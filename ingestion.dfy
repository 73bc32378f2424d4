/** What the two retrieval samples share when they ingest documents: each source's
    text goes through the chunker (lines of at most 64 tokens, merged into
    paragraphs of at most 512), and the paragraphs of all sources are collected in
    source order. The chunker itself is library code and enters as two functions. */
module Ingestion {

  /** `TextChunker.SplitPlainTextLines` and `TextChunker.SplitPlainTextParagraphs`. */
  datatype Chunker = Chunker(
    splitPlainTextLines: (string, nat) -> seq<string>,
    splitPlainTextParagraphs: (seq<string>, nat) -> seq<string>)

  const MaxTokensPerLine: nat := 64
  const MaxTokensPerParagraph: nat := 512

  /** The paragraphs one source's text is split into. */
  function Paragraphs(chunker: Chunker, text: string): seq<string> {
    chunker.splitPlainTextParagraphs(chunker.splitPlainTextLines(text, MaxTokensPerLine), MaxTokensPerParagraph)
  }

  /** The lists of `pss` one after another. */
  function Flatten(pss: seq<seq<string>>): seq<string> {
    if pss == [] then [] else Flatten(pss[..|pss| - 1]) + pss[|pss| - 1]
  }

  /** Where the paragraphs of source `j` start in the flattened list. */
  function Offset(pss: seq<seq<string>>, j: nat): nat
    requires j <= |pss|
  {
    |Flatten(pss[..j])|
  }

  lemma {:induction false} FlattenAppend(a: seq<seq<string>>, b: seq<seq<string>>)
    ensures Flatten(a + b) == Flatten(a) + Flatten(b)
    decreases |b|
  {
    if b == [] {
      assert a + b == a;
    } else {
      var init := b[..|b| - 1];
      assert (a + b)[..|a + b| - 1] == a + init;
      FlattenAppend(a, init);
    }
  }

  /** Paragraph `k` of source `j` sits at `Offset(pss, j) + k`, and source `j`'s
      paragraphs end where source `j + 1`'s begin. */
  lemma FlattenPosition(pss: seq<seq<string>>, j: nat, k: nat)
    requires j < |pss| && k < |pss[j]|
    ensures Offset(pss, j + 1) == Offset(pss, j) + |pss[j]|
    ensures Offset(pss, j) + k < |Flatten(pss)|
    ensures Flatten(pss)[Offset(pss, j) + k] == pss[j][k]
  {
    assert pss[..j + 1][..j] == pss[..j];
    assert pss == pss[..j + 1] + pss[j + 1..];
    FlattenAppend(pss[..j + 1], pss[j + 1..]);
  }

  /** Offsets never decrease from one source to the next. */
  lemma {:induction false} OffsetMonotone(pss: seq<seq<string>>, i: nat, j: nat)
    requires i <= j <= |pss|
    ensures Offset(pss, i) <= Offset(pss, j)
    decreases j - i
  {
    if i < j {
      OffsetMonotone(pss, i, j - 1);
      assert pss[..j][..j - 1] == pss[..j - 1];
    }
  }

  /** Source order is kept: every paragraph of an earlier source comes before every
      paragraph of a later one. */
  lemma FlattenKeepsSourceOrder(pss: seq<seq<string>>, j1: nat, k1: nat, j2: nat, k2: nat)
    requires j1 < j2 < |pss| && k1 < |pss[j1]| && k2 < |pss[j2]|
    ensures Offset(pss, j1) + k1 < Offset(pss, j2) + k2
  {
    FlattenPosition(pss, j1, k1);
    OffsetMonotone(pss, j1 + 1, j2);
  }
}
