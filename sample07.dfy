/** Sample07: retrieval-augmented chat over an in-memory store. Two news articles are
    fetched and parsed, the readable text of each is chunked into paragraphs, and the
    paragraphs are saved under `paragraph[i]`. Each chat turn searches the memory for
    the question and adds the results as a Developer-role message before the
    question; afterwards the code removes the message at the index it recorded. */
module Sample07 {
  import opened Wrappers
  import opened Text
  import opened Chat
  import opened Memory
  import opened Ingestion
  import opened RagTurn

  const SystemPrompt: string := "You are an AI assistant that helps people find information."
  const MemoryName: string := "RAG-memory"
  const SearchLimit: nat := 3
  const MinRelevanceScore: real := 0.4

  /** A parsed page, reduced to what the sample reads from it: the text content of
      the first `article` element, of the first `main` element, and of the body,
      each `None` when the page has no such element. */
  datatype HtmlDocument = HtmlDocument(article: Option<string>, main: Option<string>, body: Option<string>)

  /** The first candidate that is present (the `??` chain). */
  function FirstPresent(candidates: seq<Option<string>>): (r: Option<string>)
    ensures r.Some? <==> exists i :: 0 <= i < |candidates| && candidates[i].Some?
    ensures r.Some? ==> exists i :: 0 <= i < |candidates| && candidates[i] == r &&
                                    forall j :: 0 <= j < i ==> candidates[j].None?
  {
    if candidates == [] then None
    else if candidates[0].Some? then candidates[0]
    else
      var r := FirstPresent(candidates[1..]);
      assert forall i :: 0 < i < |candidates| ==> candidates[i] == candidates[1..][i - 1];
      r
  }

  /** The text the sample chunks for a page: that of the article container, else of
      the main container, else of the body, else the empty string. */
  function PageText(doc: HtmlDocument): (text: string)
    ensures doc.article.Some? ==> text == doc.article.value
    ensures doc.article.None? && doc.main.Some? ==> text == doc.main.value
    ensures doc.article.None? && doc.main.None? && doc.body.Some? ==> text == doc.body.value
    ensures doc.article.None? && doc.main.None? && doc.body.None? ==> text == ""
  {
    var candidates := [doc.article, doc.main, doc.body];
    assert candidates[1..] == [doc.main, doc.body] && [doc.main, doc.body][1..] == [doc.body];
    assert FirstPresent([doc.body]) == doc.body by {
      assert [doc.body][1..] == [];
    }
    assert FirstPresent([doc.main, doc.body]) == if doc.main.Some? then doc.main else doc.body;
    var container := FirstPresent(candidates);
    container.GetOr("")
  }

  /** The paragraphs of each article, in list order. */
  function ArticleParagraphs(articleList: seq<string>, fetch: string -> string, parse: string -> HtmlDocument,
                             chunker: Chunker): seq<seq<string>>
  {
    seq(|articleList|, j requires 0 <= j < |articleList| => Paragraphs(chunker, PageText(parse(fetch(articleList[j])))))
  }

  /** The download loop: fetch and parse each article, take its page text, chunk it,
      and `AddRange` the paragraphs. */
  method CollectParagraphs(articleList: seq<string>, fetch: string -> string, parse: string -> HtmlDocument,
                           chunker: Chunker)
    returns (allParagraphs: seq<string>)
    ensures allParagraphs == Flatten(ArticleParagraphs(articleList, fetch, parse, chunker))
  {
    ghost var pss := ArticleParagraphs(articleList, fetch, parse, chunker);
    allParagraphs := [];
    for j := 0 to |articleList|
      invariant allParagraphs == Flatten(pss[..j])
    {
      var html := fetch(articleList[j]);
      var doc := parse(html);
      var text := PageText(doc);
      var lines := chunker.splitPlainTextLines(text, MaxTokensPerLine);
      var paragraphs := chunker.splitPlainTextParagraphs(lines, MaxTokensPerParagraph);
      assert pss[..j + 1][..j] == pss[..j];
      allParagraphs := allParagraphs + paragraphs;
    }
    assert pss[..|articleList|] == pss;
  }

  /** Ingestion into a new volatile memory: every paragraph of every article is saved
      once, paragraph `i` under `paragraph[i]`; with no paragraphs at all the
      collection is never created. */
  method Ingest(articleList: seq<string>, fetch: string -> string, parse: string -> HtmlDocument,
                chunker: Chunker)
    returns (memory: SemanticTextMemory, allParagraphs: seq<string>)
    ensures fresh(memory)
    ensures allParagraphs == Flatten(ArticleParagraphs(articleList, fetch, parse, chunker))
    ensures memory.collections ==
      if allParagraphs == [] then map[] else map[MemoryName := ParagraphRecords(allParagraphs)]
  {
    memory := new SemanticTextMemory();
    allParagraphs := CollectParagraphs(articleList, fetch, parse, chunker);
    assert memory.Records(MemoryName) == map[];
    SaveParagraphs(memory, MemoryName, allParagraphs);
    assert map[] + ParagraphRecords(allParagraphs) == ParagraphRecords(allParagraphs);
  }

  /** The context message a turn adds: the context text with the Developer role,
      when the context builder is non-empty. */
  function ContextMessage(context: string): Option<ChatMessage> {
    if |context| > 0 then Some(ChatMessage(Developer, context)) else None
  }

  /** The context message the search produces for a question. */
  function ContextFor(search: SearchFn): string -> Option<ChatMessage> {
    question => ContextMessage(ContextText(search(MemoryName, question, SearchLimit, MinRelevanceScore)))
  }

  /** One pass of the chat loop with the line read (`None` at end of input, read as
      ""), the code as written. */
  method Turn(chatHistory: ChatHistory, line: Option<string>, search: SearchFn, chatService: ChatService)
    returns (exit: bool)
    modifies chatHistory
    ensures exit <==> IsExitCommand(line.GetOr(""))
    ensures exit ==> chatHistory.messages == old(chatHistory.messages)
    ensures !exit ==> (chatHistory.messages ==
      AsWrittenTurn(old(chatHistory.messages), ContextFor(search)(line.GetOr("")), line.GetOr(""), chatService))
  {
    var question := line.GetOr("");
    if EqualsIgnoreCase(question, "exit") {
      return true;
    }
    ghost var h := chatHistory.messages;
    var results := search(MemoryName, question, SearchLimit, MinRelevanceScore);
    var context := BuildContext(results);
    var contextIndex: int := -1;
    if |context| > 0 {
      chatHistory.AddMessage(Developer, context);
      contextIndex := chatHistory.Count();
    }
    chatHistory.AddUserMessage(question);
    var response := ReadStream(chatService(chatHistory.messages));
    chatHistory.AddAssistantMessage(response);
    if contextIndex >= 0 {
      chatHistory.RemoveAt(contextIndex);
    }
    return false;
  }

  /** With at least one search result, the turn leaves the context message where the
      question was and the question is gone; with none, it leaves the question. */
  lemma TurnOutcome(h: seq<ChatMessage>, question: string, search: SearchFn, chatService: ChatService)
    ensures var results := search(MemoryName, question, SearchLimit, MinRelevanceScore);
      var context := ContextFor(search)(question);
      AsWrittenTurn(h, context, question, chatService) ==
        h + [if results != [] then ChatMessage(Developer, ContextText(results)) else ChatMessage(User, question),
             Reply(h, context, question, chatService)]
  {
    var results := search(MemoryName, question, SearchLimit, MinRelevanceScore);
    ContextTextEmptyIff(results);
    AsWrittenTurnResult(h, ContextFor(search)(question), question, chatService);
  }

  /** A Developer message never equals the user's question, so with any search
      result the turn as written never does what the comment beside `RemoveAt` says. */
  lemma TurnNeverMeetsIntent(h: seq<ChatMessage>, question: string, search: SearchFn, chatService: ChatService)
    ensures var context := ContextFor(search)(question);
      (AsWrittenTurn(h, context, question, chatService) == CorrectedTurn(h, context, question, chatService))
        <==> search(MemoryName, question, SearchLimit, MinRelevanceScore) == []
  {
    ContextTextEmptyIff(search(MemoryName, question, SearchLimit, MinRelevanceScore));
    AsWrittenMeetsIntentIff(h, ContextFor(search)(question), question, chatService);
  }

  /** A concrete turn: the search returns the one text "a" for the question "q" and
      the service streams "r". The history keeps the Developer message "a" plus a line
      break and loses the question. */
  lemma ContextOutlivesTurn(search: SearchFn, chatService: ChatService)
    requires search(MemoryName, "q", SearchLimit, MinRelevanceScore) == ["a"]
    requires chatService([ChatMessage(System, SystemPrompt), ChatMessage(Developer, "a\n"), ChatMessage(User, "q")])
               == [Some("r")]
    ensures var h := [ChatMessage(System, SystemPrompt)];
      && AsWrittenTurn(h, ContextFor(search)("q"), "q", chatService)
           == h + [ChatMessage(Developer, "a\n"), ChatMessage(Assistant, "r")]
      && CorrectedTurn(h, ContextFor(search)("q"), "q", chatService)
           == h + [ChatMessage(User, "q"), ChatMessage(Assistant, "r")]
  {
    var h := [ChatMessage(System, SystemPrompt)];
    var context := ContextFor(search)("q");
    assert ContextText(["a"]) == "a\n" by {
      assert ["a"][..0] == [];
    }
    assert StreamedText([Some("r")]) == "r" by {
      assert [Some("r")][..0] == [];
    }
    assert context == Some(ChatMessage(Developer, "a\n"));
    assert Prompt(h, context, "q")
        == [ChatMessage(System, SystemPrompt), ChatMessage(Developer, "a\n"), ChatMessage(User, "q")];
    assert Reply(h, context, "q", chatService) == ChatMessage(Assistant, "r");
    AsWrittenTurnResult(h, context, "q", chatService);
    CorrectedTurnResult(h, context, "q", chatService);
  }

  /** The questions the lines stand for. */
  function Questions(lines: seq<Option<string>>): seq<string> {
    seq(|lines|, i requires 0 <= i < |lines| => lines[i].GetOr(""))
  }

  /** The chat loop over the lines read: it stops at the first "exit", or when the
      lines run out. */
  method ChatLoop(chatHistory: ChatHistory, lines: seq<Option<string>>, search: SearchFn, chatService: ChatService)
    returns (turns: nat, exited: bool)
    modifies chatHistory
    ensures turns <= |lines|
    ensures forall i :: 0 <= i < turns ==> !IsExitCommand(lines[i].GetOr(""))
    ensures exited <==> turns < |lines|
    ensures exited ==> IsExitCommand(lines[turns].GetOr(""))
    ensures chatHistory.messages ==
      AsWrittenSession(old(chatHistory.messages), Questions(lines[..turns]), ContextFor(search), chatService)
  {
    turns, exited := 0, false;
    while turns < |lines|
      invariant turns <= |lines|
      invariant forall i :: 0 <= i < turns ==> !IsExitCommand(lines[i].GetOr(""))
      invariant chatHistory.messages ==
        AsWrittenSession(old(chatHistory.messages), Questions(lines[..turns]), ContextFor(search), chatService)
    {
      var exit := Turn(chatHistory, lines[turns], search, chatService);
      if exit {
        exited := true;
        break;
      }
      assert Questions(lines[..turns + 1])[..turns] == Questions(lines[..turns]);
      turns := turns + 1;
    }
  }

  /** `RunAsync`: ingest into a new memory, then chat from a history holding one
      system message; `exited` says whether the loop stopped at "exit". */
  method Run(articleList: seq<string>, fetch: string -> string, parse: string -> HtmlDocument, chunker: Chunker,
             lines: seq<Option<string>>, search: SearchFn, chatService: ChatService)
    returns (memory: SemanticTextMemory, chatHistory: ChatHistory, turns: nat, exited: bool)
    ensures fresh(memory) && fresh(chatHistory)
    ensures var allParagraphs := Flatten(ArticleParagraphs(articleList, fetch, parse, chunker));
      memory.collections == if allParagraphs == [] then map[] else map[MemoryName := ParagraphRecords(allParagraphs)]
    ensures turns <= |lines|
    ensures forall i :: 0 <= i < turns ==> !IsExitCommand(lines[i].GetOr(""))
    ensures exited <==> turns < |lines|
    ensures exited ==> IsExitCommand(lines[turns].GetOr(""))
    ensures chatHistory.messages ==
      AsWrittenSession([ChatMessage(System, SystemPrompt)], Questions(lines[..turns]), ContextFor(search), chatService)
  {
    chatHistory := new ChatHistory(SystemPrompt);
    var allParagraphs;
    memory, allParagraphs := Ingest(articleList, fetch, parse, chunker);
    turns, exited := ChatLoop(chatHistory, lines, search, chatService);
  }
}
