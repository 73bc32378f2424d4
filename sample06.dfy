/** Sample06: the ranking part of Sample05 without the exit check; the sample waits
    for any key afterwards. */
module Sample06 {
  import opened Ranking

  /** Scores every example and orders the entries by descending score. */
  method Similarities<V>(examples: seq<string>, exampleEmbeddings: seq<V>, inputEmbedding: V,
                         cosine: (V, V) -> real)
    returns (similarityResults: seq<ScoredExample>, similarities: seq<ScoredExample>)
    requires |exampleEmbeddings| >= |examples|
    ensures |similarityResults| == |examples|
    ensures forall i :: 0 <= i < |examples| ==>
      similarityResults[i] == ScoredExample(cosine(exampleEmbeddings[i], inputEmbedding), examples[i])
    ensures similarities == OrderByDescending(similarityResults)
    ensures multiset(similarities) == multiset(similarityResults)
    ensures NonIncreasing(similarities)
    ensures forall k :: WithScore(similarities, k) == WithScore(similarityResults, k)
  {
    similarityResults := ScoreExamples(examples, exampleEmbeddings, inputEmbedding, cosine);
    similarities := OrderByDescending(similarityResults);
    OrderByDescendingPermutes(similarityResults);
    OrderByDescendingSorted(similarityResults);
    forall k ensures WithScore(similarities, k) == WithScore(similarityResults, k) {
      OrderByDescendingStable(similarityResults, k);
    }
  }
}
