/** The conversation state every chat sample mutates in place: an ordered list
    of role/content messages, with the operations the samples call on it. */
module Chat {
  import opened Wrappers

  datatype AuthorRole = System | User | Assistant | Developer

  datatype ChatMessage = ChatMessage(role: AuthorRole, content: string)

  /** `s` with the element at `index` taken out; the rest keep their order. */
  function RemovedAt<T>(s: seq<T>, index: nat): (r: seq<T>)
    requires index < |s|
    ensures |r| == |s| - 1
    ensures forall i :: 0 <= i < index ==> r[i] == s[i]
    ensures forall i :: index <= i < |r| ==> r[i] == s[i + 1]
  {
    s[..index] + s[index + 1..]
  }

  /** The text of a streamed reply: each chunk's content in arrival order, a
      chunk without content (`null`) contributing nothing. */
  function StreamedText(chunks: seq<Option<string>>): string {
    if chunks == [] then ""
    else StreamedText(chunks[..|chunks| - 1]) + chunks[|chunks| - 1].GetOr("")
  }

  /** Some chunk of the stream carries a non-empty content. */
  predicate HasContent(chunks: seq<Option<string>>) {
    exists i :: 0 <= i < |chunks| && chunks[i].Some? && chunks[i].value != ""
  }

  /** A reply is empty exactly when no chunk carried content. */
  lemma {:induction false} StreamedTextEmpty(chunks: seq<Option<string>>)
    ensures StreamedText(chunks) != "" <==> HasContent(chunks)
  {
    if chunks != [] {
      var init, last := chunks[..|chunks| - 1], chunks[|chunks| - 1];
      StreamedTextEmpty(init);
      if HasContent(init) {
        var i :| 0 <= i < |init| && init[i].Some? && init[i].value != "";
        assert chunks[i] == init[i];
      }
      if HasContent(chunks) && !(last.Some? && last.value != "") {
        var i :| 0 <= i < |chunks| && chunks[i].Some? && chunks[i].value != "";
        assert i < |init| && init[i] == chunks[i];
      }
      if last.Some? && last.value != "" {
        assert chunks[|chunks| - 1] == last;
      }
    }
  }

  /** Streaming more chunks only extends the reply text. */
  lemma {:induction false} StreamedTextAppend(a: seq<Option<string>>, b: seq<Option<string>>)
    ensures StreamedText(a + b) == StreamedText(a) + StreamedText(b)
    decreases |b|
  {
    if b != [] {
      var init := b[..|b| - 1];
      assert (a + b)[..|a + b| - 1] == a + init;
      StreamedTextAppend(a, init);
    } else {
      assert a + b == a;
    }
  }

  /** Reads a streamed reply chunk by chunk, as `responseBuilder.Append(msg.Content)`
      does in the retrieval samples. */
  method ReadStream(chunks: seq<Option<string>>) returns (response: string)
    ensures response == StreamedText(chunks)
  {
    response := "";
    for i := 0 to |chunks|
      invariant response == StreamedText(chunks[..i])
    {
      assert chunks[..i + 1][..i] == chunks[..i];
      response := response + chunks[i].GetOr("");
    }
    assert chunks[..|chunks|] == chunks;
  }

  /** Semantic Kernel's `ChatHistory`, as far as the samples use it. */
  class ChatHistory {
    var messages: seq<ChatMessage>

    /** `new ChatHistory(systemMessage: ...)`: one system message. */
    constructor (systemMessage: string)
      ensures messages == [ChatMessage(System, systemMessage)]
    {
      messages := [ChatMessage(System, systemMessage)];
    }

    function Count(): nat
      reads this
    {
      |messages|
    }

    method AddMessage(role: AuthorRole, content: string)
      modifies this
      ensures messages == old(messages) + [ChatMessage(role, content)]
    {
      messages := messages + [ChatMessage(role, content)];
    }

    method AddUserMessage(content: string)
      modifies this
      ensures messages == old(messages) + [ChatMessage(User, content)]
    {
      AddMessage(User, content);
    }

    method AddAssistantMessage(content: string)
      modifies this
      ensures messages == old(messages) + [ChatMessage(Assistant, content)]
    {
      AddMessage(Assistant, content);
    }

    /** `List.RemoveAt`: an index outside the list would throw; the samples never pass one. */
    method RemoveAt(index: int)
      requires 0 <= index < |messages|
      modifies this
      ensures messages == RemovedAt(old(messages), index)
    {
      messages := RemovedAt(messages, index);
    }
  }
}
