/** The ranking step of the similarity demos (Sample05, Sample06): pair each example
    with its similarity score, then order the pairs by descending score with LINQ's
    `OrderByDescending`, a stable sort. The score is the cosine similarity the
    tensor library computes; here it is any real-valued function of two embeddings. */
module Ranking {

  /** One `(float score, string text)` entry of `similarityResults`. */
  datatype ScoredExample = ScoredExample(score: real, text: string)

  /** The scoring loop: entry `i` pairs `examples[i]` with the score of
      `exampleEmbeddings[i]` against the input's embedding. */
  method ScoreExamples<V>(examples: seq<string>, exampleEmbeddings: seq<V>, inputEmbedding: V,
                          cosine: (V, V) -> real)
    returns (similarityResults: seq<ScoredExample>)
    requires |exampleEmbeddings| >= |examples|
    ensures |similarityResults| == |examples|
    ensures forall i :: 0 <= i < |examples| ==>
      similarityResults[i] == ScoredExample(cosine(exampleEmbeddings[i], inputEmbedding), examples[i])
  {
    similarityResults := [];
    for i := 0 to |examples|
      invariant |similarityResults| == i
      invariant forall j :: 0 <= j < i ==>
        similarityResults[j] == ScoredExample(cosine(exampleEmbeddings[j], inputEmbedding), examples[j])
    {
      var score := cosine(exampleEmbeddings[i], inputEmbedding);
      similarityResults := similarityResults + [ScoredExample(score, examples[i])];
    }
  }

  predicate NonIncreasing(s: seq<ScoredExample>) {
    forall i, j :: 0 <= i < j < |s| ==> s[i].score >= s[j].score
  }

  /** The entries of `s` whose score is `k`, in their order in `s`. */
  function WithScore(s: seq<ScoredExample>, k: real): seq<ScoredExample> {
    if s == [] then []
    else (if s[0].score == k then [s[0]] else []) + WithScore(s[1..], k)
  }

  /** `x` placed before the first entry of `s` that does not outscore it. */
  function InsertDescending(x: ScoredExample, s: seq<ScoredExample>): seq<ScoredExample> {
    if s == [] || x.score >= s[0].score then [x] + s
    else [s[0]] + InsertDescending(x, s[1..])
  }

  /** `OrderByDescending(x => x.score)`: a stable sort by descending score. */
  function OrderByDescending(xs: seq<ScoredExample>): seq<ScoredExample> {
    if xs == [] then [] else InsertDescending(xs[0], OrderByDescending(xs[1..]))
  }

  lemma {:induction false} InsertPermutes(x: ScoredExample, s: seq<ScoredExample>)
    ensures multiset(InsertDescending(x, s)) == multiset{x} + multiset(s)
  {
    if !(s == [] || x.score >= s[0].score) {
      InsertPermutes(x, s[1..]);
      assert s == [s[0]] + s[1..];
    }
  }

  lemma {:induction false} InsertSorted(x: ScoredExample, s: seq<ScoredExample>)
    requires NonIncreasing(s)
    ensures NonIncreasing(InsertDescending(x, s))
  {
    if !(s == [] || x.score >= s[0].score) {
      var rest := InsertDescending(x, s[1..]);
      InsertSorted(x, s[1..]);
      InsertPermutes(x, s[1..]);
      forall j | 0 <= j < |rest| ensures s[0].score >= rest[j].score {
        assert rest[j] in multiset(rest);
        if rest[j] != x {
          assert rest[j] in multiset(s[1..]);
          var m :| 0 <= m < |s[1..]| && s[1..][m] == rest[j];
          assert s[m + 1] == rest[j];
        }
      }
    }
  }

  lemma {:induction false} WithScoreAppend(a: seq<ScoredExample>, b: seq<ScoredExample>, k: real)
    ensures WithScore(a + b, k) == WithScore(a, k) + WithScore(b, k)
  {
    if a != [] {
      assert (a + b)[1..] == a[1..] + b;
      WithScoreAppend(a[1..], b, k);
    } else {
      assert a + b == b;
    }
  }

  lemma {:induction false} InsertStable(x: ScoredExample, s: seq<ScoredExample>, k: real)
    requires NonIncreasing(s)
    ensures WithScore(InsertDescending(x, s), k) == WithScore([x], k) + WithScore(s, k)
  {
    WithScoreAppend([x], s, k);
    if !(s == [] || x.score >= s[0].score) {
      InsertStable(x, s[1..], k);
      WithScoreAppend([s[0]], InsertDescending(x, s[1..]), k);
      WithScoreAppend([s[0]], s[1..], k);
      WithScoreAppend([x], s[1..], k);
      assert s == [s[0]] + s[1..];
      assert [s[0]] + InsertDescending(x, s[1..]) == InsertDescending(x, s);
      // `s[0]` outscores `x`, so at most one of them has score `k`.
      assert WithScore([x], k) == [] || WithScore([s[0]], k) == [];
    }
  }

  /** The sorted list is a permutation of its input. */
  lemma {:induction false} OrderByDescendingPermutes(xs: seq<ScoredExample>)
    ensures multiset(OrderByDescending(xs)) == multiset(xs)
  {
    if xs != [] {
      OrderByDescendingPermutes(xs[1..]);
      InsertPermutes(xs[0], OrderByDescending(xs[1..]));
      assert xs == [xs[0]] + xs[1..];
    }
  }

  /** Scores never increase along the sorted list. */
  lemma {:induction false} OrderByDescendingSorted(xs: seq<ScoredExample>)
    ensures NonIncreasing(OrderByDescending(xs))
  {
    if xs != [] {
      OrderByDescendingSorted(xs[1..]);
      InsertSorted(xs[0], OrderByDescending(xs[1..]));
    }
  }

  /** Entries with equal scores keep their input order. */
  lemma {:induction false} OrderByDescendingStable(xs: seq<ScoredExample>, k: real)
    ensures WithScore(OrderByDescending(xs), k) == WithScore(xs, k)
  {
    if xs != [] {
      OrderByDescendingStable(xs[1..], k);
      OrderByDescendingSorted(xs[1..]);
      InsertStable(xs[0], OrderByDescending(xs[1..]), k);
      WithScoreAppend([xs[0]], xs[1..], k);
      assert xs == [xs[0]] + xs[1..];
    }
  }

  lemma {:induction false} WithScoreMember(s: seq<ScoredExample>, k: real, y: ScoredExample)
    ensures y in WithScore(s, k) <==> y in s && y.score == k
  {
    if s != [] {
      WithScoreMember(s[1..], k, y);
      assert s == [s[0]] + s[1..];
    }
  }

  /** Unfolding `WithScore` once at the head's own score: the head comes first. */
  lemma WithScoreHead(s: seq<ScoredExample>)
    requires s != []
    ensures WithScore(s, s[0].score) == [s[0]] + WithScore(s[1..], s[0].score)
  {
  }

  lemma {:induction false} WithScoreTail(s: seq<ScoredExample>, k: real)
    requires s != [] && s[0].score != k
    ensures WithScore(s, k) == WithScore(s[1..], k)
  {
  }

  /** Two non-increasing lists that agree on the entries of every score, in order,
      are the same list. */
  lemma {:induction false} SortedUnique(a: seq<ScoredExample>, b: seq<ScoredExample>)
    requires NonIncreasing(a) && NonIncreasing(b)
    requires forall k :: WithScore(a, k) == WithScore(b, k)
    ensures a == b
    decreases |a| + |b|
  {
    if a == [] || b == [] {
      // Every entry shows up under its own score, so neither list can be empty
      // while the other is not.
      if a != [] {
        WithScoreHead(a);
        assert false;
      }
      if b != [] {
        WithScoreHead(b);
        assert false;
      }
    } else {
      var m, n := a[0].score, b[0].score;
      WithScoreMember(a, m, a[0]);
      assert a[0] in WithScore(b, m);
      WithScoreMember(b, m, a[0]);
      var i :| 0 <= i < |b| && b[i] == a[0];
      assert n >= m by { if i > 0 { assert b[0].score >= b[i].score; } }
      WithScoreMember(b, n, b[0]);
      assert b[0] in WithScore(a, n);
      WithScoreMember(a, n, b[0]);
      var j :| 0 <= j < |a| && a[j] == b[0];
      assert m >= n by { if j > 0 { assert a[0].score >= a[j].score; } }
      WithScoreHead(a);
      WithScoreHead(b);
      assert WithScore(a, m) == WithScore(b, m);
      assert a[0] == WithScore(a, m)[0] == WithScore(b, m)[0] == b[0];
      forall k ensures WithScore(a[1..], k) == WithScore(b[1..], k) {
        if k == m {
          assert WithScore(a[1..], k) == WithScore(a, k)[1..];
          assert WithScore(b[1..], k) == WithScore(b, k)[1..];
        } else {
          WithScoreTail(a, k);
          WithScoreTail(b, k);
          assert WithScore(a, k) == WithScore(b, k);
        }
      }
      assert NonIncreasing(a[1..]) && NonIncreasing(b[1..]);
      SortedUnique(a[1..], b[1..]);
      assert a == [a[0]] + a[1..] && b == [b[0]] + b[1..];
    }
  }

  /** `OrderByDescending` is THE stable descending order: any non-increasing list that
      keeps the input order among equal scores is exactly its result. */
  lemma OrderByDescendingIsTheStableSort(xs: seq<ScoredExample>, ys: seq<ScoredExample>)
    requires NonIncreasing(ys)
    requires forall k :: WithScore(ys, k) == WithScore(xs, k)
    ensures ys == OrderByDescending(xs)
  {
    OrderByDescendingSorted(xs);
    forall k ensures WithScore(ys, k) == WithScore(OrderByDescending(xs), k) {
      OrderByDescendingStable(xs, k);
    }
    SortedUnique(ys, OrderByDescending(xs));
  }
}
