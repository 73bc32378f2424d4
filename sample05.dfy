/** Sample05: rank a fixed list of example sentences by their similarity to an input
    sentence, show the ranking, then read a key press and a line to decide whether to
    return to the menu. Embedding generation is the embedding service's; its results
    enter as parameters. */
module Sample05 {
  import opened Wrappers
  import opened Text
  import opened Ranking

  /** Scores every example and orders the entries by descending score. */
  method Similarities<V>(examples: seq<string>, exampleEmbeddings: seq<V>, inputEmbedding: V,
                         cosine: (V, V) -> real)
    returns (similarityResults: seq<ScoredExample>, similarities: seq<ScoredExample>)
    requires |exampleEmbeddings| >= |examples|
    ensures |similarityResults| == |examples|
    ensures forall i :: 0 <= i < |examples| ==>
      similarityResults[i] == ScoredExample(cosine(exampleEmbeddings[i], inputEmbedding), examples[i])
    ensures multiset(similarities) == multiset(similarityResults)
    ensures NonIncreasing(similarities)
    ensures forall k :: WithScore(similarities, k) == WithScore(similarityResults, k)
  {
    similarityResults := ScoreExamples(examples, exampleEmbeddings, inputEmbedding, cosine);
    similarities := OrderByDescending(similarityResults);
    OrderByDescendingPermutes(similarityResults);
    OrderByDescendingSorted(similarityResults);
    forall k ensures WithScore(similarities, k) == WithScore(similarityResults, k) {
      OrderByDescendingStable(similarityResults, k);
    }
  }

  /** The value `RunAsync` returns after the ranking: `key` is the key pressed, and
      `remaining` the line read after it (`None` at end of input, read as ""). The line
      is only consulted when the key is 'e' or 'E'. */
  function IsExitKey(key: char, remaining: Option<string>): bool {
    if key == 'e' || key == 'E' then EqualsIgnoreCase(remaining.GetOr(""), "xit") else false
  }

  /** Pressing a key and then typing the rest of the line accepts exactly what the
      other chat loops accept as "exit": the key followed by the line spells the exit
      word, ignoring case. */
  lemma IsExitKeyIffExitWord(key: char, remaining: Option<string>)
    ensures IsExitKey(key, remaining) <==> IsExitCommand([key] + remaining.GetOr(""))
  {
    var line := [key] + remaining.GetOr("");
    ExitCommandSpellings(line);
    var rest := remaining.GetOr("");
    assert line[1..] == rest;
    if IsExitCommand(line) {
      assert forall i :: 0 <= i < 3 ==> UpperAscii(rest[i]) == UpperAscii(line[i + 1]);
    }
    if IsExitKey(key, remaining) {
      assert UpperAscii(rest[0]) == 'X' && UpperAscii(rest[1]) == 'I' && UpperAscii(rest[2]) == 'T';
    }
  }
}
