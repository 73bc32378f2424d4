/** The per-turn protocol both retrieval samples (Sample07, Sample08) run on their
    chat history: build a context from the search results, append it as one
    message and remember its index, append the question, append the streamed
    reply, then remove the message at the remembered index.

    The index is taken AFTER the context message is appended, so it is the slot
    the question goes into next: the question is removed and the context stays.
    `AsWrittenTurn` models the code as written; `CorrectedTurn` takes the index
    before the append, which is what the comments beside `RemoveAt` describe. */
module RagTurn {
  import opened Wrappers
  import opened Chat

  /** The chat service: the history it is called with, to the chunks it streams back. */
  type ChatService = seq<ChatMessage> -> seq<Option<string>>

  /** `Environment.NewLine`, which `StringBuilder.AppendLine` writes after each result. */
  const NewLine: string := "\n"

  /** The context text: every retrieved text followed by a line break, in result order. */
  function ContextText(results: seq<string>): string {
    if results == [] then ""
    else ContextText(results[..|results| - 1]) + results[|results| - 1] + NewLine
  }

  /** The context text is empty exactly when the search returned nothing, even if
      every retrieved text is empty, because each result adds a line break. */
  lemma {:induction false} ContextTextEmptyIff(results: seq<string>)
    ensures ContextText(results) == "" <==> results == []
  {
  }

  /** The context builder loop: `contextBuilder.AppendLine(result.Metadata.Text)` per
      result. The builder is non-empty exactly when at least one result came back,
      even if every retrieved text is empty. */
  method BuildContext(results: seq<string>) returns (context: string)
    ensures context == ContextText(results)
    ensures |context| > 0 <==> |results| > 0
  {
    context := "";
    for i := 0 to |results|
      invariant context == ContextText(results[..i])
      invariant |context| >= i
    {
      assert results[..i + 1][..i] == results[..i];
      context := context + results[i] + NewLine;
    }
    assert results[..|results|] == results;
  }

  /** The history the chat service is called with: the context message (if any),
      then the question. */
  function Prompt(h: seq<ChatMessage>, context: Option<ChatMessage>, question: string): seq<ChatMessage> {
    (if context.Some? then h + [context.value] else h) + [ChatMessage(User, question)]
  }

  /** The reply the service streams for that prompt. */
  function Reply(h: seq<ChatMessage>, context: Option<ChatMessage>, question: string, service: ChatService): ChatMessage {
    ChatMessage(Assistant, StreamedText(service(Prompt(h, context, question))))
  }

  /** One turn as the samples' code performs it, step by step. */
  function AsWrittenTurn(h: seq<ChatMessage>, context: Option<ChatMessage>, question: string,
                         service: ChatService): seq<ChatMessage>
  {
    var withContext := if context.Some? then h + [context.value] else h;
    var contextIndex := if context.Some? then |withContext| else -1;
    var withQuestion := withContext + [ChatMessage(User, question)];
    var withReply := withQuestion + [ChatMessage(Assistant, StreamedText(service(withQuestion)))];
    if contextIndex >= 0 then RemovedAt(withReply, contextIndex) else withReply
  }

  /** One turn with the index taken before the context message is appended. */
  function CorrectedTurn(h: seq<ChatMessage>, context: Option<ChatMessage>, question: string,
                         service: ChatService): seq<ChatMessage>
  {
    var contextIndex := if context.Some? then |h| else -1;
    var withContext := if context.Some? then h + [context.value] else h;
    var withQuestion := withContext + [ChatMessage(User, question)];
    var withReply := withQuestion + [ChatMessage(Assistant, StreamedText(service(withQuestion)))];
    if contextIndex >= 0 then RemovedAt(withReply, contextIndex) else withReply
  }

  /** What a turn as written leaves behind: the earlier history unchanged, then the
      context message in place of the question when there was a context, or the
      question when there was none, then the reply. Two messages either way. */
  lemma AsWrittenTurnResult(h: seq<ChatMessage>, context: Option<ChatMessage>, question: string,
                            service: ChatService)
    ensures AsWrittenTurn(h, context, question, service) ==
      h + [if context.Some? then context.value else ChatMessage(User, question),
           Reply(h, context, question, service)]
  {
    var r := AsWrittenTurn(h, context, question, service);
    var expected := h + [if context.Some? then context.value else ChatMessage(User, question),
                         Reply(h, context, question, service)];
    assert |r| == |expected|;
    forall i | 0 <= i < |r| ensures r[i] == expected[i] {
      if i < |h| {
      } else if context.Some? && i == |h| + 1 {
        assert r[i] == (h + [context.value] + [ChatMessage(User, question)]
                          + [Reply(h, context, question, service)])[i + 1];
      }
    }
  }

  /** The corrected turn leaves only the question and the reply: no context survives. */
  lemma CorrectedTurnResult(h: seq<ChatMessage>, context: Option<ChatMessage>, question: string,
                            service: ChatService)
    ensures CorrectedTurn(h, context, question, service) ==
      h + [ChatMessage(User, question), Reply(h, context, question, service)]
  {
    var r := CorrectedTurn(h, context, question, service);
    var expected := h + [ChatMessage(User, question), Reply(h, context, question, service)];
    assert |r| == |expected|;
    forall i | 0 <= i < |r| ensures r[i] == expected[i] {
      if context.Some? && i >= |h| {
        assert r[i] == (h + [context.value] + [ChatMessage(User, question)]
                          + [Reply(h, context, question, service)])[i + 1];
      }
    }
  }

  /** The code as written does what the comment says only when there was no context,
      or when the context message happens to equal the question message. */
  lemma AsWrittenMeetsIntentIff(h: seq<ChatMessage>, context: Option<ChatMessage>, question: string,
                                service: ChatService)
    ensures AsWrittenTurn(h, context, question, service) == CorrectedTurn(h, context, question, service)
        <==> context.None? || context.value == ChatMessage(User, question)
  {
    AsWrittenTurnResult(h, context, question, service);
    CorrectedTurnResult(h, context, question, service);
    if AsWrittenTurn(h, context, question, service) == CorrectedTurn(h, context, question, service) {
      assert AsWrittenTurn(h, context, question, service)[|h|]
          == CorrectedTurn(h, context, question, service)[|h|];
    }
  }

  // ---------------------------------------------------------------------------
  // Several turns in a row

  /** The history after asking `questions` in order; `contextFor` gives the context
      message (if any) the search produces for a question. */
  function AsWrittenSession(h: seq<ChatMessage>, questions: seq<string>,
                            contextFor: string -> Option<ChatMessage>, service: ChatService): seq<ChatMessage>
  {
    if questions == [] then h
    else
      var q := questions[|questions| - 1];
      AsWrittenTurn(AsWrittenSession(h, questions[..|questions| - 1], contextFor, service), contextFor(q), q, service)
  }

  function CorrectedSession(h: seq<ChatMessage>, questions: seq<string>,
                            contextFor: string -> Option<ChatMessage>, service: ChatService): seq<ChatMessage>
  {
    if questions == [] then h
    else
      var q := questions[|questions| - 1];
      CorrectedTurn(CorrectedSession(h, questions[..|questions| - 1], contextFor, service), contextFor(q), q, service)
  }

  /** Over a session as written, the history grows by two per turn, earlier messages
      are never disturbed, and slot `2i` after the start holds turn i's context message
      whenever that turn had one: retrieved context accumulates from turn to turn.
      Slot `2i + 1` holds the reply to turn i's prompt, built on the history as it
      stood before that turn. */
  lemma {:induction false} AsWrittenSessionKeepsContexts(h: seq<ChatMessage>, questions: seq<string>,
                                                        contextFor: string -> Option<ChatMessage>, service: ChatService)
    ensures |AsWrittenSession(h, questions, contextFor, service)| == |h| + 2 * |questions|
    ensures AsWrittenSession(h, questions, contextFor, service)[..|h|] == h
    ensures forall i :: 0 <= i < |questions| ==>
      AsWrittenSession(h, questions, contextFor, service)[|h| + 2 * i] ==
        contextFor(questions[i]).GetOr(ChatMessage(User, questions[i]))
    ensures forall i :: 0 <= i < |questions| ==>
      AsWrittenSession(h, questions, contextFor, service)[|h| + 2 * i + 1] ==
        Reply(AsWrittenSession(h, questions, contextFor, service)[..|h| + 2 * i], contextFor(questions[i]), questions[i], service)
  {
    if questions != [] {
      var init, q := questions[..|questions| - 1], questions[|questions| - 1];
      var prev := AsWrittenSession(h, init, contextFor, service);
      AsWrittenSessionKeepsContexts(h, init, contextFor, service);
      AsWrittenTurnResult(prev, contextFor(q), q, service);
      var r := AsWrittenSession(h, questions, contextFor, service);
      assert r == prev + [contextFor(q).GetOr(ChatMessage(User, q)), Reply(prev, contextFor(q), q, service)];
      assert |prev| == |h| + 2 * |init|;
      forall i | 0 <= i < |questions|
        ensures r[|h| + 2 * i] == contextFor(questions[i]).GetOr(ChatMessage(User, questions[i]))
        ensures r[|h| + 2 * i + 1] == Reply(r[..|h| + 2 * i], contextFor(questions[i]), questions[i], service)
      {
        if i < |init| {
          assert questions[i] == init[i];
          assert r[|h| + 2 * i] == prev[|h| + 2 * i];
          assert r[|h| + 2 * i + 1] == prev[|h| + 2 * i + 1];
          assert r[..|h| + 2 * i] == prev[..|h| + 2 * i];
        } else {
          assert i == |init| && questions[i] == q;
          assert r[..|h| + 2 * i] == prev;
        }
      }
    }
  }

  /** Over a corrected session, slot `2i` after the start always holds turn i's question
      and slot `2i + 1` the reply to its prompt, built on the history as it stood
      before that turn: no context message survives any turn. */
  lemma {:induction false} CorrectedSessionIsCleanLog(h: seq<ChatMessage>, questions: seq<string>,
                                                     contextFor: string -> Option<ChatMessage>, service: ChatService)
    ensures |CorrectedSession(h, questions, contextFor, service)| == |h| + 2 * |questions|
    ensures CorrectedSession(h, questions, contextFor, service)[..|h|] == h
    ensures forall i :: 0 <= i < |questions| ==>
      CorrectedSession(h, questions, contextFor, service)[|h| + 2 * i] == ChatMessage(User, questions[i])
    ensures forall i :: 0 <= i < |questions| ==>
      CorrectedSession(h, questions, contextFor, service)[|h| + 2 * i + 1] ==
        Reply(CorrectedSession(h, questions, contextFor, service)[..|h| + 2 * i], contextFor(questions[i]), questions[i], service)
  {
    if questions != [] {
      var init, q := questions[..|questions| - 1], questions[|questions| - 1];
      var prev := CorrectedSession(h, init, contextFor, service);
      CorrectedSessionIsCleanLog(h, init, contextFor, service);
      CorrectedTurnResult(prev, contextFor(q), q, service);
      var r := CorrectedSession(h, questions, contextFor, service);
      assert r == prev + [ChatMessage(User, q), Reply(prev, contextFor(q), q, service)];
      assert |prev| == |h| + 2 * |init|;
      forall i | 0 <= i < |questions|
        ensures r[|h| + 2 * i] == ChatMessage(User, questions[i])
        ensures r[|h| + 2 * i + 1] == Reply(r[..|h| + 2 * i], contextFor(questions[i]), questions[i], service)
      {
        if i < |init| {
          assert questions[i] == init[i];
          assert r[|h| + 2 * i] == prev[|h| + 2 * i];
          assert r[|h| + 2 * i + 1] == prev[|h| + 2 * i + 1];
          assert r[..|h| + 2 * i] == prev[..|h| + 2 * i];
        } else {
          assert i == |init| && questions[i] == q;
          assert r[..|h| + 2 * i] == prev;
        }
      }
    }
  }
}
