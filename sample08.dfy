/** Sample08: retrieval-augmented chat over a persistent store. The documents are
    indexed only when the store does not hold the collection yet; each chat turn
    searches it for the question and adds the results as a user message before the
    question; afterwards the code removes the message at the index it recorded. */
module Sample08 {
  import opened Wrappers
  import opened Text
  import opened Chat
  import opened Memory
  import opened Ingestion
  import opened RagTurn

  const SystemPrompt: string := "You are an AI assistant that helps people find information."
  const CollectionName: string := "microsoft-news"
  const SearchLimit: nat := 3
  /** The sample passes no `minRelevanceScore`, so the memory's default applies. */
  const DefaultMinRelevanceScore: real := 0.7
  const ContextPrefix: string := "Here's some additional information: "

  /** The paragraphs of each document, in list order. */
  function DocumentParagraphs(articleList: seq<string>, fetch: string -> string, chunker: Chunker)
    : seq<seq<string>>
  {
    seq(|articleList|, j requires 0 <= j < |articleList| => Paragraphs(chunker, fetch(articleList[j])))
  }

  /** The download loop: fetch each document, chunk its content, and add its
      paragraphs one by one. */
  method CollectParagraphs(articleList: seq<string>, fetch: string -> string, chunker: Chunker)
    returns (allParagraphs: seq<string>)
    ensures allParagraphs == Flatten(DocumentParagraphs(articleList, fetch, chunker))
  {
    ghost var pss := DocumentParagraphs(articleList, fetch, chunker);
    allParagraphs := [];
    for j := 0 to |articleList|
      invariant allParagraphs == Flatten(pss[..j])
    {
      var content := fetch(articleList[j]);
      var lines := chunker.splitPlainTextLines(content, MaxTokensPerLine);
      var paragraphs := chunker.splitPlainTextParagraphs(lines, MaxTokensPerParagraph);
      for k := 0 to |paragraphs|
        invariant allParagraphs == Flatten(pss[..j]) + paragraphs[..k]
      {
        assert paragraphs[..k + 1] == paragraphs[..k] + [paragraphs[k]];
        allParagraphs := allParagraphs + [paragraphs[k]];
      }
      assert paragraphs[..|paragraphs|] == paragraphs;
      assert pss[..j + 1][..j] == pss[..j];
    }
    assert pss[..|articleList|] == pss;
  }

  /** "Index documents only once": the documents are fetched and saved if and only if
      the store has no collection of that name; otherwise the store is left alone.
      Paragraph `i` is saved under `paragraph[i]`; with no paragraphs at all nothing
      is saved and the collection is still absent afterwards. */
  method IndexOnce(memory: SemanticTextMemory, articleList: seq<string>, fetch: string -> string, chunker: Chunker)
    returns (indexed: bool, allParagraphs: seq<string>)
    modifies memory
    ensures indexed <==> CollectionName !in old(memory.collections)
    ensures !indexed ==> memory.collections == old(memory.collections) && allParagraphs == []
    ensures indexed ==> allParagraphs == Flatten(DocumentParagraphs(articleList, fetch, chunker))
    ensures indexed ==> (memory.collections ==
      if allParagraphs == [] then old(memory.collections)
      else old(memory.collections)[CollectionName := ParagraphRecords(allParagraphs)])
  {
    indexed := CollectionName !in memory.collections;
    if indexed {
      allParagraphs := CollectParagraphs(articleList, fetch, chunker);
      assert memory.Records(CollectionName) == map[];
      SaveParagraphs(memory, CollectionName, allParagraphs);
      assert map[] + ParagraphRecords(allParagraphs) == ParagraphRecords(allParagraphs);
    } else {
      allParagraphs := [];
    }
  }

  /** The context message a turn adds: the context text behind a fixed lead-in, as a
      user message, when the context builder is non-empty. */
  function ContextMessage(context: string): Option<ChatMessage> {
    if |context| > 0 then Some(ChatMessage(User, ContextPrefix + context)) else None
  }

  /** The context message the search produces for a question. */
  function ContextFor(search: SearchFn): string -> Option<ChatMessage> {
    question => ContextMessage(ContextText(search(CollectionName, question, SearchLimit, DefaultMinRelevanceScore)))
  }

  /** One pass of the chat loop with the line `question`, the code as written. */
  method Turn(chat: ChatHistory, question: string, search: SearchFn, chatService: ChatService)
    returns (exit: bool)
    modifies chat
    ensures exit <==> IsExitCommand(question)
    ensures exit ==> chat.messages == old(chat.messages)
    ensures !exit ==> (chat.messages ==
      AsWrittenTurn(old(chat.messages), ContextFor(search)(question), question, chatService))
  {
    if EqualsIgnoreCase(question, "exit") {
      return true;
    }
    var results := search(CollectionName, question, SearchLimit, DefaultMinRelevanceScore);
    var contextBuilder := BuildContext(results);
    var contextIndex: int := -1;
    if |contextBuilder| > 0 {
      chat.AddUserMessage(ContextPrefix + contextBuilder);
      contextIndex := chat.Count();
    }
    chat.AddUserMessage(question);
    var response := ReadStream(chatService(chat.messages));
    chat.AddAssistantMessage(response);
    if contextIndex >= 0 {
      chat.RemoveAt(contextIndex);
    }
    return false;
  }

  /** With at least one search result, the turn leaves the context message where the
      question was and the question is gone; with none, it leaves the question. */
  lemma TurnOutcome(h: seq<ChatMessage>, question: string, search: SearchFn, chatService: ChatService)
    ensures var results := search(CollectionName, question, SearchLimit, DefaultMinRelevanceScore);
      var context := ContextFor(search)(question);
      AsWrittenTurn(h, context, question, chatService) ==
        h + [if results != [] then ChatMessage(User, ContextPrefix + ContextText(results))
             else ChatMessage(User, question),
             Reply(h, context, question, chatService)]
  {
    var results := search(CollectionName, question, SearchLimit, DefaultMinRelevanceScore);
    ContextTextEmptyIff(results);
    AsWrittenTurnResult(h, ContextFor(search)(question), question, chatService);
  }

  /** The turn as written does what the comment beside `RemoveAt` says only when the
      search returned nothing, or when the question happens to read exactly like the
      context message. */
  lemma TurnMeetsIntentIff(h: seq<ChatMessage>, question: string, search: SearchFn, chatService: ChatService)
    ensures var results := search(CollectionName, question, SearchLimit, DefaultMinRelevanceScore);
      var context := ContextFor(search)(question);
      (AsWrittenTurn(h, context, question, chatService) == CorrectedTurn(h, context, question, chatService))
        <==> results == [] || question == ContextPrefix + ContextText(results)
  {
    ContextTextEmptyIff(search(CollectionName, question, SearchLimit, DefaultMinRelevanceScore));
    AsWrittenMeetsIntentIff(h, ContextFor(search)(question), question, chatService);
  }

  /** The chat loop over the lines typed: it stops at the first "exit", or when the
      lines run out. */
  method ChatLoop(chat: ChatHistory, lines: seq<string>, search: SearchFn, chatService: ChatService)
    returns (turns: nat, exited: bool)
    modifies chat
    ensures turns <= |lines|
    ensures forall i :: 0 <= i < turns ==> !IsExitCommand(lines[i])
    ensures exited <==> turns < |lines|
    ensures exited ==> IsExitCommand(lines[turns])
    ensures chat.messages == AsWrittenSession(old(chat.messages), lines[..turns], ContextFor(search), chatService)
  {
    turns, exited := 0, false;
    while turns < |lines|
      invariant turns <= |lines|
      invariant forall i :: 0 <= i < turns ==> !IsExitCommand(lines[i])
      invariant chat.messages == AsWrittenSession(old(chat.messages), lines[..turns], ContextFor(search), chatService)
    {
      var exit := Turn(chat, lines[turns], search, chatService);
      if exit {
        exited := true;
        break;
      }
      assert lines[..turns + 1][..turns] == lines[..turns];
      turns := turns + 1;
    }
  }

  /** `RunAsync`: index once, then chat from a history holding one system message;
      `exited` says whether the loop stopped at "exit". */
  method Run(memory: SemanticTextMemory, articleList: seq<string>, fetch: string -> string, chunker: Chunker,
             lines: seq<string>, search: SearchFn, chatService: ChatService)
    returns (chat: ChatHistory, indexed: bool, turns: nat, exited: bool)
    modifies memory
    ensures fresh(chat)
    ensures indexed <==> CollectionName !in old(memory.collections)
    ensures !indexed ==> memory.collections == old(memory.collections)
    ensures indexed ==> (var allParagraphs := Flatten(DocumentParagraphs(articleList, fetch, chunker));
      memory.collections ==
        if allParagraphs == [] then old(memory.collections)
        else old(memory.collections)[CollectionName := ParagraphRecords(allParagraphs)])
    ensures turns <= |lines|
    ensures forall i :: 0 <= i < turns ==> !IsExitCommand(lines[i])
    ensures exited <==> turns < |lines|
    ensures exited ==> IsExitCommand(lines[turns])
    ensures chat.messages ==
      AsWrittenSession([ChatMessage(System, SystemPrompt)], lines[..turns], ContextFor(search), chatService)
  {
    var allParagraphs;
    indexed, allParagraphs := IndexOnce(memory, articleList, fetch, chunker);
    chat := new ChatHistory(SystemPrompt);
    turns, exited := ChatLoop(chat, lines, search, chatService);
  }
}
