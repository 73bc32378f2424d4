/** Sample03: a chat that keeps its history. Each line typed is appended as a user
    message, the chat service answers from the whole history, and the answer is
    appended as an assistant message; "exit" ends the loop. */
module Sample03 {
  import opened Text
  import opened Chat

  const SystemPrompt: string := "You are an AI assistant that helps people find information."

  /** The chat service: the history it is called with, to the content of its answer. */
  type AnswerService = seq<ChatMessage> -> string

  /** The history after asking `questions` in order, starting from `h`. */
  function Conversation(h: seq<ChatMessage>, questions: seq<string>, chatService: AnswerService): seq<ChatMessage> {
    if questions == [] then h
    else
      var asked := Conversation(h, questions[..|questions| - 1], chatService)
                   + [ChatMessage(User, questions[|questions| - 1])];
      asked + [ChatMessage(Assistant, chatService(asked))]
  }

  /** The history only grows by appends: the earlier messages stay as they were, and
      each question adds exactly two messages, the question and then the answer the
      service gives to the history up to and including that question. */
  lemma {:induction false} ConversationOnlyAppends(h: seq<ChatMessage>, questions: seq<string>,
                                                  chatService: AnswerService)
    ensures |Conversation(h, questions, chatService)| == |h| + 2 * |questions|
    ensures Conversation(h, questions, chatService)[..|h|] == h
    ensures forall i :: 0 <= i < |questions| ==>
      Conversation(h, questions, chatService)[|h| + 2 * i] == ChatMessage(User, questions[i])
    ensures forall i :: 0 <= i < |questions| ==>
      Conversation(h, questions, chatService)[|h| + 2 * i + 1] ==
        ChatMessage(Assistant, chatService(Conversation(h, questions, chatService)[..|h| + 2 * i + 1]))
  {
    if questions != [] {
      var init := questions[..|questions| - 1];
      var prev := Conversation(h, init, chatService);
      ConversationOnlyAppends(h, init, chatService);
      var r := Conversation(h, questions, chatService);
      assert r[..|prev|] == prev;
      assert r[..|prev| + 1] == prev + [ChatMessage(User, questions[|questions| - 1])];
      forall i | 0 <= i < |init|
        ensures r[|h| + 2 * i] == ChatMessage(User, questions[i])
        ensures r[|h| + 2 * i + 1] == ChatMessage(Assistant, chatService(r[..|h| + 2 * i + 1]))
      {
        assert questions[i] == init[i];
        assert r[|h| + 2 * i] == prev[|h| + 2 * i];
        assert r[|h| + 2 * i + 1] == prev[|h| + 2 * i + 1];
        assert r[..|h| + 2 * i + 1] == prev[..|h| + 2 * i + 1];
      }
    }
  }

  /** One pass of the chat loop with the line `question`. */
  method Turn(chatHistory: ChatHistory, question: string, chatService: AnswerService) returns (exit: bool)
    modifies chatHistory
    ensures exit <==> IsExitCommand(question)
    ensures exit ==> chatHistory.messages == old(chatHistory.messages)
    ensures !exit ==> chatHistory.messages == Conversation(old(chatHistory.messages), [question], chatService)
  {
    if EqualsIgnoreCase(question, "exit") {
      return true;
    }
    chatHistory.AddUserMessage(question);
    var answer := chatService(chatHistory.messages);
    chatHistory.AddAssistantMessage(answer);
    assert [question][..0] == [];
    return false;
  }

  /** The chat loop over the lines typed: it stops at the first "exit", or when the
      lines run out; every line before the stop was a question. */
  method ChatLoop(chatHistory: ChatHistory, lines: seq<string>, chatService: AnswerService)
    returns (turns: nat, exited: bool)
    modifies chatHistory
    ensures turns <= |lines|
    ensures forall i :: 0 <= i < turns ==> !IsExitCommand(lines[i])
    ensures exited <==> turns < |lines|
    ensures exited ==> IsExitCommand(lines[turns])
    ensures chatHistory.messages == Conversation(old(chatHistory.messages), lines[..turns], chatService)
  {
    turns, exited := 0, false;
    while turns < |lines|
      invariant turns <= |lines|
      invariant forall i :: 0 <= i < turns ==> !IsExitCommand(lines[i])
      invariant chatHistory.messages == Conversation(old(chatHistory.messages), lines[..turns], chatService)
    {
      ghost var before := chatHistory.messages;
      var exit := Turn(chatHistory, lines[turns], chatService);
      if exit {
        exited := true;
        break;
      }
      assert lines[..turns + 1][..turns] == lines[..turns];
      assert chatHistory.messages == Conversation(before, [lines[turns]], chatService);
      turns := turns + 1;
    }
  }

  /** `RunAsync`: a history holding one system message, then the chat loop. */
  method Run(lines: seq<string>, chatService: AnswerService)
    returns (chatHistory: ChatHistory, turns: nat, exited: bool)
    ensures fresh(chatHistory)
    ensures turns <= |lines|
    ensures forall i :: 0 <= i < turns ==> !IsExitCommand(lines[i])
    ensures exited <==> turns < |lines|
    ensures exited ==> IsExitCommand(lines[turns])
    ensures chatHistory.messages ==
      Conversation([ChatMessage(System, SystemPrompt)], lines[..turns], chatService)
  {
    chatHistory := new ChatHistory(SystemPrompt);
    turns, exited := ChatLoop(chatHistory, lines, chatService);
  }
}
