/** Sample04: a streaming chat. Blank lines are skipped, "exit" returns to the menu,
    any other line is appended as a user message; the reply is streamed chunk by
    chunk into a buffer and appended as an assistant message only when some chunk
    carried content. Whether the model calls the web-search plugin while answering
    is up to the chat service and is not part of this model. */
module Sample04 {
  import opened Wrappers
  import opened Text
  import opened Chat

  const SystemPrompt: string :=
    "You are an AI assistant that helps people find information. " +
    "Include citations to the relevant information where it is referenced in the response. " +
    "When you call SearchPlugin.GetTextSearchResults, always pass count=\"10\" so that ten results are returned."

  /** The streaming chat service: the history it is called with, to the chunks it streams. */
  type StreamingService = seq<ChatMessage> -> seq<Option<string>>

  /** The streaming loop: `buffer` collects the non-empty chunk contents in order, and
      `aiPrefixPrinted` records whether any such chunk arrived (the "AI: " prefix is
      printed before the first one). The flag is set exactly when the buffer is
      non-empty, which is what the check after the loop relies on. */
  method StreamReply(chunks: seq<Option<string>>) returns (buffer: string, aiPrefixPrinted: bool)
    ensures buffer == StreamedText(chunks)
    ensures aiPrefixPrinted <==> HasContent(chunks)
    ensures aiPrefixPrinted <==> buffer != ""
  {
    buffer, aiPrefixPrinted := "", false;
    for i := 0 to |chunks|
      invariant buffer == StreamedText(chunks[..i])
      invariant aiPrefixPrinted <==> HasContent(chunks[..i])
      invariant aiPrefixPrinted <==> buffer != ""
    {
      assert chunks[..i + 1][..i] == chunks[..i];
      if chunks[i].Some? && chunks[i].value != "" {
        if !aiPrefixPrinted {
          aiPrefixPrinted := true;
        }
        buffer := buffer + chunks[i].value;
        assert chunks[..i + 1][i] == chunks[i];
      } else if HasContent(chunks[..i + 1]) {
        var j :| 0 <= j < i + 1 && chunks[..i + 1][j].Some? && chunks[..i + 1][j].value != "";
        assert j < i && chunks[..i][j] == chunks[..i + 1][j];
      }
      if HasContent(chunks[..i]) {
        var j :| 0 <= j < i && chunks[..i][j].Some? && chunks[..i][j].value != "";
        assert chunks[..i + 1][j] == chunks[..i][j];
      }
    }
    assert chunks[..|chunks|] == chunks;
  }

  /** The history after an accepted line `userInput`: the question, then the reply
      when it has content. */
  function AnsweredHistory(h: seq<ChatMessage>, userInput: string, service: StreamingService): seq<ChatMessage> {
    var asked := h + [ChatMessage(User, userInput)];
    var reply := StreamedText(service(asked));
    if reply != "" then asked + [ChatMessage(Assistant, reply)] else asked
  }

  /** An accepted line grows the history by two when the service streamed some
      content and by one otherwise, and leaves the earlier messages as they were. */
  lemma AnsweredGrowth(h: seq<ChatMessage>, userInput: string, service: StreamingService)
    ensures var asked := h + [ChatMessage(User, userInput)];
      && AnsweredHistory(h, userInput, service)[..|asked|] == asked
      && |AnsweredHistory(h, userInput, service)| == |h| + (if HasContent(service(asked)) then 2 else 1)
  {
    var asked := h + [ChatMessage(User, userInput)];
    StreamedTextEmpty(service(asked));
  }

  datatype Outcome = Skipped | Exit | Answered

  /** One pass of the chat loop with the line read (`None` at end of input). */
  method Turn(history: ChatHistory, line: Option<string>, service: StreamingService) returns (outcome: Outcome)
    modifies history
    ensures var userInput := line.GetOr("");
      && (outcome == Skipped <==> IsBlank(userInput))
      && (outcome == Exit <==> !IsBlank(userInput) && IsExitCommand(userInput))
      && (outcome != Answered ==> history.messages == old(history.messages))
      && (outcome == Answered ==> history.messages == AnsweredHistory(old(history.messages), userInput, service))
  {
    var userInput := line.GetOr("");
    if IsBlank(userInput) {
      return Skipped;
    }
    if EqualsIgnoreCase(userInput, "exit") {
      return Exit;
    }
    history.AddUserMessage(userInput);
    var buffer, aiPrefixPrinted := StreamReply(service(history.messages));
    if aiPrefixPrinted {
      history.AddAssistantMessage(buffer);
    }
    return Answered;
  }

  /** The history after the lines `lines`, none of them "exit": blank lines leave it
      alone, every other line is answered. */
  function Conversation(h: seq<ChatMessage>, lines: seq<Option<string>>, service: StreamingService): seq<ChatMessage> {
    if lines == [] then h
    else
      var prev := Conversation(h, lines[..|lines| - 1], service);
      var userInput := lines[|lines| - 1].GetOr("");
      if IsBlank(userInput) then prev else AnsweredHistory(prev, userInput, service)
  }

  /** The number of lines that are not blank. */
  function Accepted(lines: seq<Option<string>>): nat {
    if lines == [] then 0
    else Accepted(lines[..|lines| - 1]) + (if IsBlank(lines[|lines| - 1].GetOr("")) then 0 else 1)
  }

  /** Over a conversation the history only grows by appends, by one or two messages
      per accepted line. */
  lemma {:induction false} ConversationGrowth(h: seq<ChatMessage>, lines: seq<Option<string>>, service: StreamingService)
    ensures |h| + Accepted(lines) <= |Conversation(h, lines, service)| <= |h| + 2 * Accepted(lines)
    ensures Conversation(h, lines, service)[..|h|] == h
  {
    if lines != [] {
      var init := lines[..|lines| - 1];
      var prev := Conversation(h, init, service);
      ConversationGrowth(h, init, service);
      var userInput := lines[|lines| - 1].GetOr("");
      if !IsBlank(userInput) {
        AnsweredGrowth(prev, userInput, service);
        assert Conversation(h, lines, service)[..|prev|] == prev;
      }
    }
  }

  /** The chat loop over the lines read: it returns true at the first "exit"; if the
      lines run out first, `exited` is false. */
  method ChatLoop(history: ChatHistory, lines: seq<Option<string>>, service: StreamingService)
    returns (consumed: nat, exited: bool)
    modifies history
    ensures consumed <= |lines|
    ensures forall i :: 0 <= i < consumed ==> !IsExitCommand(lines[i].GetOr(""))
    ensures exited <==> consumed < |lines|
    ensures exited ==> IsExitCommand(lines[consumed].GetOr(""))
    ensures history.messages == Conversation(old(history.messages), lines[..consumed], service)
  {
    consumed, exited := 0, false;
    while consumed < |lines|
      invariant consumed <= |lines|
      invariant forall i :: 0 <= i < consumed ==> !IsExitCommand(lines[i].GetOr(""))
      invariant history.messages == Conversation(old(history.messages), lines[..consumed], service)
    {
      var outcome := Turn(history, lines[consumed], service);
      if outcome == Exit {
        exited := true;
        break;
      }
      assert lines[..consumed + 1][..consumed] == lines[..consumed];
      if outcome == Skipped {
        ExitIsNotBlank(lines[consumed].GetOr(""));
      }
      consumed := consumed + 1;
    }
  }

  /** `RunAsync`: a history holding one system message, then the chat loop; the
      result is true when the loop ended at "exit". */
  method Run(lines: seq<Option<string>>, service: StreamingService)
    returns (history: ChatHistory, consumed: nat, exited: bool)
    ensures fresh(history)
    ensures consumed <= |lines|
    ensures forall i :: 0 <= i < consumed ==> !IsExitCommand(lines[i].GetOr(""))
    ensures exited <==> consumed < |lines|
    ensures exited ==> IsExitCommand(lines[consumed].GetOr(""))
    ensures history.messages == Conversation([ChatMessage(System, SystemPrompt)], lines[..consumed], service)
  {
    history := new ChatHistory(SystemPrompt);
    consumed, exited := ChatLoop(history, lines, service);
  }
}
