# Semantic Kernel chat samples: a Dafny model

The repository is a set of console samples built on Semantic Kernel. The language
model, the embedding service, the text chunker, cosine similarity and the memory
stores are all library code. What the samples do themselves, and what this project
models, is the bookkeeping around those calls:

- **The conversation history.** Sample03, Sample04, Sample07 and Sample08 keep a
  `ChatHistory`, an ordered list of role/content messages. They append to it on
  every turn and, in the two retrieval samples, remove one entry by index.
  `Chat.ChatHistory` is a class whose methods change its `messages` field in place.
  Each sample's turn is a module-level method that takes the `ChatHistory` as a
  parameter and changes it, and each chat loop is a `while` loop over the lines
  typed.
- **Retrieval turns (Sample07, Sample08).** The search results are joined into a
  context text, one line each. When there is at least one result, the context is
  added as one message and its index is recorded. Then the question is appended,
  then the streamed reply. Finally the message at the recorded index is removed.
  The index is read after the context message is appended, so it points at the
  slot the question takes next. The code therefore removes the question and keeps
  the context, although the comments beside `RemoveAt` (samples/Sample07.cs:126,
  samples/Sample08.cs:129) say the added context is removed.
  Module `RagTurn` models the code as written (`AsWrittenTurn`) and the intended
  behaviour (`CorrectedTurn`), and proves what each one leaves in the history,
  for one turn and for a whole session.
- **Ingestion (Sample07, Sample08).** Each source is fetched and chunked into lines
  of at most 64 tokens, which are then merged into paragraphs of at most 512. The
  paragraphs of all sources are collected in source order. Paragraph `i` is saved
  under the id `paragraph[i]`. Sample07 takes a page's text from its `article`
  element, else its `main` element, else its body, else "". Sample08 indexes only
  when the store has no collection of that name yet.
- **Ranking (Sample05, Sample06).** Each example is paired with its similarity
  score. The pairs are then ordered by descending score with a stable sort.
  Sample05 then reads a key and a line to decide whether to return to the menu.

External calls enter as parameters. The chat service is a function from the
history it is called with to the chunks it streams, each chunk's content being
`None` for `null`. The memory search is a function from (collection, query, limit,
minimum relevance) to the retrieved texts. Fetching, HTML parsing and the chunker
are functions too. Console input is a sequence of lines. Scores are `real`s.

Modules, one file each: `Wrappers`, `Text`, `Chat`, `Memory`, `Ingestion`,
`RagTurn`, `Ranking`, `Sample03` … `Sample08`.

## Model

| member | source | states |
|---|---|---|
| `Text.IsWhiteSpace` | samples/Sample04.cs:69 | defines the characters `string.IsNullOrWhiteSpace` treats as white space: the space separators (U+0020, U+00A0, U+1680, U+2000..U+200A, U+202F, U+205F, U+3000), U+2028, U+2029, and the controls U+0009..U+000D and U+0085 |
| `Text.IsBlank` | samples/Sample04.cs:69 | defines a blank line: empty, or white space only (the input is never null there, because of `?? ""` at line 68) |
| `Text.ExitIsNotBlank` | samples/Sample04.cs:69-77 | no spelling of "exit" is blank, so testing for a blank line first never skips an exit command |
| `Text.ExitCommandSpellings` | samples/Sample03.cs:41 | a line ends the chat exactly when it is "exit" in one of its sixteen upper/lower-case spellings |
| `Text.DecimalRoundTrip` | samples/Sample08.cs:85 | the decimal text of an index inside `$"paragraph[{i}]"` reads back as that index |
| `Text.NatToStringInjective` | samples/Sample08.cs:85 | distinct indices render as distinct decimal texts |
| `Memory.ParagraphIdInjective` | samples/Sample08.cs:85 | ids `paragraph[i]` and `paragraph[j]` are equal only when `i == j` |
| `Memory.ParagraphRecords` | samples/Sample08.cs:83-86 | after the save loop, paragraph `i` is stored under `paragraph[i]` for every `i` |
| `Memory.ParagraphRecordsKeys` | samples/Sample08.cs:83-86 | the save loop stores no record other than the `paragraph[i]` ids |
| `Memory.ParagraphRecordsCount` | samples/Sample08.cs:83-86 | exactly one record per paragraph: as many records as paragraphs |
| `Memory.SemanticTextMemory.constructor` | samples/Sample07.cs:40-43 | a memory over a new volatile store has no collections |
| `Memory.SemanticTextMemory.SaveInformation` | samples/Sample08.cs:85 | a save creates the collection if absent and inserts or replaces the one record `id`; other collections are unchanged |
| `Memory.SaveParagraphs` | samples/Sample08.cs:83-86 | the save loop (the same loop is at Sample07.cs:68-71) adds exactly the paragraph records to the collection; with no paragraphs the store is unchanged and the collection is not created |
| `Ingestion.FlattenAppend` | samples/Sample08.cs:74-82 | collecting two runs of sources one after the other gives the two paragraph lists concatenated |
| `Ingestion.FlattenPosition` | samples/Sample08.cs:74-82 | paragraph `k` of source `j` sits at that source's offset plus `k`, and each source's block ends where the next begins |
| `Ingestion.OffsetMonotone` | samples/Sample08.cs:74-82 | a later source's paragraphs never start before an earlier source's |
| `Ingestion.FlattenKeepsSourceOrder` | samples/Sample08.cs:74-82 | every paragraph of an earlier source precedes every paragraph of a later one |
| `Chat.RemovedAt` | samples/Sample08.cs:130 | removing index `i` shortens the list by one, keeps the elements before `i` and shifts the rest down by one |
| `Chat.StreamedTextEmpty` | samples/Sample04.cs:105 | a streamed reply is empty exactly when no chunk carried non-empty content |
| `Chat.StreamedTextAppend` | samples/Sample08.cs:121-125 | more chunks only extend the reply: the text of a longer stream is the text of its prefix followed by the text of the rest |
| `Chat.ReadStream` | samples/Sample08.cs:120-127 | the response builder ends up holding the streamed contents in arrival order, with `null` contents contributing nothing |
| `Chat.ChatHistory.constructor` | samples/Sample03.cs:29-30 | a new history holds exactly one system message with the given text |
| `Chat.ChatHistory.AddMessage` | samples/Sample07.cs:107 | the message is appended at the end and nothing else changes |
| `Chat.ChatHistory.AddUserMessage` | samples/Sample03.cs:46 | a user message is appended at the end and nothing else changes |
| `Chat.ChatHistory.AddAssistantMessage` | samples/Sample03.cs:48 | an assistant message is appended at the end and nothing else changes |
| `Chat.ChatHistory.RemoveAt` | samples/Sample08.cs:130 | for an index inside the list, exactly that message is removed and the others keep their order |
| `RagTurn.ContextTextEmptyIff` | samples/Sample08.cs:104-110 | the context text is empty exactly when the search returned no result, even if every retrieved text is empty |
| `RagTurn.BuildContext` | samples/Sample08.cs:102-107 | the context builder holds each retrieved text followed by a line break, in result order, and is non-empty exactly when there was a result |
| `RagTurn.AsWrittenTurn` | samples/Sample08.cs:102-130 | defines one retrieval turn as written: append the context message if any, record the count after that append as the index, append the question, append the streamed reply to that history, then remove the message at the recorded index (the same steps are at samples/Sample07.cs:98-130) |
| `RagTurn.CorrectedTurn` | samples/Sample08.cs:129 | defines the turn the removal comment describes: the same steps, with the index taken before the context message is appended |
| `RagTurn.AsWrittenTurnResult` | samples/Sample08.cs:109-130 | a turn as written leaves the earlier history unchanged and adds exactly two messages: the context message in the question's place when there was a context, otherwise the question, then the reply to the augmented prompt |
| `RagTurn.CorrectedTurnResult` | samples/Sample08.cs:129 | with the index taken before the context is appended, a turn leaves exactly the question and the reply, so no context survives |
| `RagTurn.AsWrittenMeetsIntentIff` | samples/Sample08.cs:109-130 | the code as written matches the intended removal if and only if there was no context or the context message equals the question message |
| `RagTurn.AsWrittenSessionKeepsContexts` | samples/Sample08.cs:95-132 | over any number of turns as written, the history grows by two per turn, earlier messages are untouched, and each turn with a context leaves its context message in the history, followed by the reply to that turn's prompt built on the history as it stood before the turn |
| `RagTurn.CorrectedSessionIsCleanLog` | samples/Sample08.cs:95-132 | over any number of corrected turns, the history after the start is each question followed by the reply to its prompt, built on the history as it stood before that turn |
| `Ranking.ScoreExamples` | samples/Sample05.cs:58-63 | `similarityResults` has one entry per example, and entry `i` pairs `examples[i]` with the score of `exampleEmbeddings[i]` against the input |
| `Ranking.OrderByDescending` | samples/Sample05.cs:66 | defines `OrderByDescending(x => x.score)` by insertion: the rest of the list is ordered, then its first entry is placed before the first entry that does not outscore it, so ties keep input order |
| `Ranking.OrderByDescendingPermutes` | samples/Sample05.cs:66 | the ordered list is a permutation of the scored list |
| `Ranking.OrderByDescendingSorted` | samples/Sample05.cs:66 | scores never increase along the ordered list |
| `Ranking.OrderByDescendingStable` | samples/Sample05.cs:66 | entries with equal scores keep their input order |
| `Ranking.SortedUnique` | samples/Sample05.cs:66 | two non-increasing lists with the same entries per score, in the same order, are equal |
| `Ranking.OrderByDescendingIsTheStableSort` | samples/Sample05.cs:66 | any non-increasing list that keeps the input order among equal scores is exactly the ordered list |
| `Sample03.ConversationOnlyAppends` | samples/Sample03.cs:37-52 | the history only grows by appends: earlier messages are never removed or reordered, and turn `i`'s two slots hold question `i` and then the answer the service gives to the history up to and including that question |
| `Sample03.Turn` | samples/Sample03.cs:40-48 | "exit" ends the loop without touching the history; any other line appends the question, then the answer to the history that includes it |
| `Sample03.ChatLoop` | samples/Sample03.cs:37-52 | the loop stops at the first "exit" and the history is the conversation of exactly the lines before it |
| `Sample03.Run` | samples/Sample03.cs:29-52 | the loop consumed exactly the lines before the first "exit" (all lines when there is none), and the history is one system message followed by the conversation of those lines |
| `Sample04.StreamReply` | samples/Sample04.cs:81-101 | the buffer is the non-empty chunk contents in order; the flag is set if and only if some chunk had content, which is exactly when the buffer is non-empty |
| `Sample04.AnsweredGrowth` | samples/Sample04.cs:79-108 | of the messages the sample itself appends, an accepted line adds the question, and adds the reply only when some chunk had content: two messages, or one |
| `Sample04.Turn` | samples/Sample04.cs:68-108 | a missing line reads as ""; a blank line is skipped and "exit" returns, both leaving the history alone; any other line is appended once, then the reply if it has content |
| `Sample04.ConversationGrowth` | samples/Sample04.cs:65-110 | over a conversation the sample's own appends only extend the history, by one or two messages per non-blank line |
| `Sample04.ChatLoop` | samples/Sample04.cs:65-110 | the loop returns at the first "exit", and the history is the conversation of the lines before it |
| `Sample04.Run` | samples/Sample04.cs:55-110 | the result is true exactly when a line before the end was "exit", the loop consumed exactly the lines before the first "exit", and the history is one system message followed by the conversation of those lines |
| `Sample05.Similarities` | samples/Sample05.cs:58-66 | the scored list pairs each example with its score, and the displayed list is a stable, non-increasing permutation of it |
| `Sample05.IsExitKey` | samples/Sample05.cs:76-85 | defines the value returned after the ranking: true when the key pressed is 'e' or 'E' and the line read after it equals "xit" ignoring case (a missing line reads as "") |
| `Sample05.IsExitKeyIffExitWord` | samples/Sample05.cs:76-85 | the sample returns true if and only if the key pressed followed by the rest of the line spells "exit", ignoring case; a missing line reads as "" |
| `Sample06.Similarities` | samples/Sample06.cs:58-67 | the scored list pairs each example with its score, and the displayed list is `OrderByDescending` of it: a stable, non-increasing permutation |
| `Sample07.FirstPresent` | samples/Sample07.cs:60-62 | the `??` chain yields a value exactly when some candidate is present, and then the first present one |
| `Sample07.PageText` | samples/Sample07.cs:60-63 | a page's text is the article's, else the main element's, else the body's, else "" |
| `Sample07.CollectParagraphs` | samples/Sample07.cs:51-67 | `allParagraphs` is the paragraph lists of the articles concatenated in list order |
| `Sample07.Ingest` | samples/Sample07.cs:40-71 | the new memory holds paragraph `i` under `paragraph[i]` in "RAG-memory" and nothing else; with no paragraphs it stays empty |
| `Sample07.Turn` | samples/Sample07.cs:78-130 | "exit" (a missing line reads as "") ends the loop with the history unchanged; any other line runs the turn as written with a Developer-role context message |
| `Sample07.TurnOutcome` | samples/Sample07.cs:98-130 | with a search result the Developer context message is left where the question was and the question is gone; with none, the question stays; the reply follows either way |
| `Sample07.TurnNeverMeetsIntent` | samples/Sample07.cs:107-130 | the turn as written matches the intended removal if and only if the search returned nothing |
| `Sample07.ContextOutlivesTurn` | samples/Sample07.cs:107-130 | one result "a", question "q", reply "r": the history ends with the Developer message "a" and a line break, then "r", where the intended history ends with "q", then "r" |
| `Sample07.ChatLoop` | samples/Sample07.cs:75-133 | the loop stops at the first "exit" and the history is the session as written over the questions before it |
| `Sample07.Run` | samples/Sample07.cs:33-133 | the store holds exactly the article paragraphs; the loop consumed exactly the lines before the first "exit"; the history is the session as written over those lines, starting from one system message |
| `Sample08.CollectParagraphs` | samples/Sample08.cs:73-82 | the nested loops leave `allParagraphs` equal to the documents' paragraph lists concatenated in list order |
| `Sample08.IndexOnce` | samples/Sample08.cs:49-91 | documents are indexed if and only if the collection is absent; otherwise the store is unchanged; when indexed the collection holds exactly the paragraph records, or stays absent if there were none |
| `Sample08.Turn` | samples/Sample08.cs:98-130 | "exit" ends the loop with the history unchanged; any other line runs the turn as written with the lead-in user context message |
| `Sample08.TurnOutcome` | samples/Sample08.cs:109-130 | with a search result the context message "Here's some additional information: " plus the context is left where the question was and the question is gone; with none, the question stays; the reply follows |
| `Sample08.TurnMeetsIntentIff` | samples/Sample08.cs:109-130 | the turn as written matches the intended removal if and only if the search returned nothing or the question reads exactly like the context message |
| `Sample08.ChatLoop` | samples/Sample08.cs:95-132 | the loop stops at the first "exit" and the history is the session as written over the lines before it |
| `Sample08.Run` | samples/Sample08.cs:36-132 | the documents are indexed if and only if the collection is absent; a store that already holds it is left unchanged; otherwise the collection ends up holding exactly the documents' paragraph records (still absent when there are none); the loop consumed exactly the lines before the first "exit"; the history is the session as written over those lines, starting from one system message |

## Left out

- Semantic Kernel and Azure OpenAI are not part of this model: chat completion and streaming, embedding generation, `TextChunker`, the memory's search with its `limit` and `minRelevanceScore` filtering, and the volatile and SQLite stores. Their results enter as function parameters. The embedding vector stored beside each saved text is not modelled.
- `Sample08.DefaultMinRelevanceScore` is 0.7, the memory library's default for a search that passes none. It is only passed on to the search parameter.
- Cosine similarity is floating-point library code. Scores are `real`s, so float rounding and the ordering of NaN scores are not modelled.
- Fetching over HTTP and HTML parsing are parameters. An exception from a fetch, which ends `RunAsync` in both retrieval samples, is not modelled. Neither sample isolates per-source failures.
- Console output is not modelled, and neither is the "AI: " prefix, beyond the flag that controls it. Input is a finite sequence of lines. A chat loop also ends when the lines run out, where the real program would go on waiting or reading end of input.
- Sample03 and Sample08 read input without `?? ""`, so at end of input their question is `null`. The model's lines there are strings. Sample03's `answer.Content!` is likewise a string.
- `Text.EqualsIgnoreCase` folds ASCII letters only. Non-ASCII case mappings of `OrdinalIgnoreCase` are not modelled, and neither are the culture rules of Sample05's `CurrentCultureIgnoreCase` (such as the Turkish dotted and dotless i).
- `RagTurn.NewLine` is "\n". `Environment.NewLine` is "\r\n" on Windows.
- `Sample05.IsExitKey` takes the rest of the line as a parameter even when the key is not 'e' or 'E'. The source reads no line in that case, and the result is false either way.
- Sample04's web-search plugin and the model's decision to call it happen inside the chat service. `InvocationLogger` only logs and is left out.
- `Program.cs`, `Sample01.cs` and `Sample02.cs` are not part of this model. They are menu dispatch, configuration loading, and loops with an exit check and one external call.
- async/await is modelled as sequential code. The samples have no concurrency of their own.
- The comments at samples/Sample07.cs:126 and samples/Sample08.cs:129 say the added context is removed. The model follows the code instead, which removes the question (see "## Findings").
- Sample07 and Sample08 append the assistant reply even when it is empty. Only Sample04 checks for content first. The model does the same as each sample.
- The ingestion loops have no per-source error handling: one failed fetch ends the run. They also fetch one source at a time, with no concurrency and so no concurrency bound. The model has the same sequential order, and its fetch cannot fail.
- Sample04.AnsweredGrowth: the streaming service is a pure function of the history it receives, so it cannot change that history. With `FunctionChoiceBehavior.Auto()` in the settings passed to the streaming call (samples/Sample04.cs:84-85), Semantic Kernel's automatic function invocation also appends the tool-call and tool-result messages of any plugin call to the `ChatHistory`. Those messages are not captured. The growth of two or one counts only the messages the sample appends itself.
- Sample04.ConversationGrowth: counts only the messages the sample appends itself, for the same reason as `Sample04.AnsweredGrowth`.
- Sample04.Turn: its new history holds only the messages the sample appends itself, for the same reason.

## Findings

| source | as written | input that shows it | evidently intended | confidence | as-written member | corrected member |
|---|---|---|---|---|---|---|
| samples/Sample08.cs:113 | `contextIndex = chat.Count` runs after the context message is appended, so `chat.RemoveAt(contextIndex)` at line 130 removes the question and the context message stays in the history | a search that returns one text for the question "q": the history keeps "Here's some additional information: " plus the text, and loses "q" | take the index before the append, so that line 130 removes the context, as the comment at line 129 says | high; not executed | `Sample08.TurnMeetsIntentIff` | `RagTurn.CorrectedTurnResult` |
| samples/Sample07.cs:109 | `contextIndex = chatHistory.Count` runs after the Developer message is appended, so `RemoveAt(contextIndex)` at line 129 removes the question; a Developer message never equals the question, so every turn with a search result does this | search result "a", question "q", reply "r": the history ends with Developer "a" plus a line break, then assistant "r" | take the index before the append, so the retrieved context never carries over into later turns | high; not executed | `Sample07.ContextOutlivesTurn` | `RagTurn.CorrectedSessionIsCleanLog` |

The chat loops (`Sample07.ChatLoop`, `Sample08.ChatLoop`) model the code as written.
`RagTurn.AsWrittenSessionKeepsContexts` shows that one context message per
retrieval turn accumulates in the history over a session. With the corrected index,
`RagTurn.CorrectedSessionIsCleanLog` shows that the history holds only questions
and replies.
