/** The semantic memory the retrieval samples save paragraphs into. A record is
    kept per (collection, id); saving under an id that is already present replaces
    its text. The embedding vector stored beside each text is computed by the
    embedding service and is not part of this model. */
module Memory {
  import opened Text

  /** `SearchAsync(collection, query, limit, minRelevanceScore)`: the texts of the
      matching records, best match first. Embedding the query, scoring and filtering
      are the memory library's and are not part of this model. */
  type SearchFn = (string, string, nat, real) -> seq<string>

  /** The id the ingestion loops give paragraph `i`: `$"paragraph[{i}]"`. */
  function ParagraphId(i: nat): string {
    "paragraph[" + NatToString(i) + "]"
  }

  /** Distinct paragraph indices get distinct ids. */
  lemma ParagraphIdInjective(i: nat, j: nat)
    ensures ParagraphId(i) == ParagraphId(j) ==> i == j
  {
    if ParagraphId(i) == ParagraphId(j) {
      var a, b := ParagraphId(i), ParagraphId(j);
      assert a[10..|a| - 1] == NatToString(i);
      assert b[10..|b| - 1] == NatToString(j);
      NatToStringInjective(i, j);
    }
  }

  lemma ParagraphIdFresh(n: nat)
    ensures forall i :: 0 <= i < n ==> ParagraphId(i) != ParagraphId(n)
  {
    forall i | 0 <= i < n ensures ParagraphId(i) != ParagraphId(n) {
      ParagraphIdInjective(i, n);
    }
  }

  /** The records the save loop writes for `paragraphs`: paragraph `i` under the id
      `paragraph[i]`, and no other record. */
  function ParagraphRecords(paragraphs: seq<string>): (m: map<string, string>)
    ensures forall i :: 0 <= i < |paragraphs| ==> ParagraphId(i) in m && m[ParagraphId(i)] == paragraphs[i]
  {
    if paragraphs == [] then map[]
    else
      var n := |paragraphs| - 1;
      var prev := ParagraphRecords(paragraphs[..n]);
      ParagraphIdFresh(n);
      prev[ParagraphId(n) := paragraphs[n]]
  }

  /** No record besides the paragraphs' own. */
  lemma {:induction false} ParagraphRecordsKeys(paragraphs: seq<string>)
    ensures forall id :: id in ParagraphRecords(paragraphs) ==>
      exists i :: 0 <= i < |paragraphs| && id == ParagraphId(i)
  {
    if paragraphs != [] {
      var n := |paragraphs| - 1;
      ParagraphRecordsKeys(paragraphs[..n]);
      forall id | id in ParagraphRecords(paragraphs)
        ensures exists i :: 0 <= i < |paragraphs| && id == ParagraphId(i)
      {
        if id != ParagraphId(n) {
          assert id in ParagraphRecords(paragraphs[..n]);
        }
      }
    }
  }

  /** Exactly one record per paragraph: the ids never collide. */
  lemma {:induction false} ParagraphRecordsCount(paragraphs: seq<string>)
    ensures |ParagraphRecords(paragraphs)| == |paragraphs|
  {
    if paragraphs != [] {
      var n := |paragraphs| - 1;
      ParagraphRecordsCount(paragraphs[..n]);
      ParagraphRecordsKeys(paragraphs[..n]);
      ParagraphIdFresh(n);
      assert ParagraphId(n) !in ParagraphRecords(paragraphs[..n]);
    }
  }

  /** `ISemanticTextMemory` over a memory store: collection name to (id to text). */
  class SemanticTextMemory {
    var collections: map<string, map<string, string>>

    /** A memory over a new, empty store. */
    constructor ()
      ensures collections == map[]
    {
      collections := map[];
    }

    /** The records of `collection`; none when it does not exist. */
    function Records(collection: string): map<string, string>
      reads this
    {
      if collection in collections then collections[collection] else map[]
    }

    /** `SaveInformationAsync(collection, text, id)`: creates the collection when it is
        absent, then inserts or replaces the record `id`. */
    method SaveInformation(collection: string, text: string, id: string)
      modifies this
      ensures collections == old(collections)[collection := old(Records(collection))[id := text]]
    {
      collections := collections[collection := Records(collection)[id := text]];
    }
  }

  /** The save loop of both retrieval samples:
      `SaveInformationAsync(name, allParagraphs[i], $"paragraph[{i}]")` for each `i` in
      order. With no paragraphs nothing is saved, so the collection is not created. */
  method SaveParagraphs(memory: SemanticTextMemory, collection: string, allParagraphs: seq<string>)
    modifies memory
    ensures allParagraphs == [] ==> memory.collections == old(memory.collections)
    ensures allParagraphs != [] ==>
      memory.collections == old(memory.collections)[collection :=
        old(memory.Records(collection)) + ParagraphRecords(allParagraphs)]
  {
    for i := 0 to |allParagraphs|
      invariant i == 0 ==> memory.collections == old(memory.collections)
      invariant i > 0 ==>
        memory.collections == old(memory.collections)[collection :=
          old(memory.Records(collection)) + ParagraphRecords(allParagraphs[..i])]
    {
      ghost var before := memory.Records(collection);
      assert allParagraphs[..i + 1][..i] == allParagraphs[..i];
      assert before == old(memory.Records(collection)) + ParagraphRecords(allParagraphs[..i]);
      assert before[ParagraphId(i) := allParagraphs[i]]
          == old(memory.Records(collection)) + ParagraphRecords(allParagraphs[..i + 1]);
      memory.SaveInformation(collection, allParagraphs[i], ParagraphId(i));
    }
    assert allParagraphs[..|allParagraphs|] == allParagraphs;
  }
}
