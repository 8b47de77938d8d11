/**
 * backend/query_understanding/retriever.py: schema retrieval for one
 * question — one embedding call, one store query, one record per match —
 * and the prompt context built from the retrieved chunk texts.
 */
module Retriever {
  import opened Base
  import opened TextUtil
  import opened VectorStore

  /** One retrieved chunk as `retrieve` returns it. */
  datatype Record = Record(id: string, score: real, text: string, tableName: string, chunkType: string)

  /** `metadata.get(k, "")`. */
  function Field(m: Metadata, k: string): (v: string)
    ensures k in m ==> v == m[k]
    ensures k !in m ==> v == ""
  {
    if k in m then m[k] else ""
  }

  function RecordOf(m: Match): Record {
    Record(m.id, m.score, Field(m.metadata, "text"), Field(m.metadata, "table_name"), Field(m.metadata, "chunk_type"))
  }

  /** One record per match, in the same order. */
  function Records(matches: seq<Match>): (rs: seq<Record>)
    ensures |rs| == |matches|
    ensures forall i :: 0 <= i < |rs| ==> rs[i].id == matches[i].id && rs[i].score == matches[i].score
    ensures forall i :: 0 <= i < |rs| ==> rs[i] == RecordOf(matches[i])
  {
    seq(|matches|, i requires 0 <= i < |matches| => RecordOf(matches[i]))
  }

  const NoContext: string := "No schema context retrieved."
  const ContextSeparator: string := "\n\n---\n\n"

  // ---------------------------------------------------------------------
  // Deduplication of chunk texts

  /** The texts of the records, in order. */
  function Texts(records: seq<Record>): (ts: seq<string>)
    ensures |ts| == |records| && forall i :: 0 <= i < |ts| ==> ts[i] == records[i].text
  {
    seq(|records|, i requires 0 <= i < |records| => records[i].text)
  }

  /** The non-empty texts, each kept at its first occurrence only. */
  function Dedup(ts: seq<string>): (d: seq<string>)
    ensures forall i :: 0 <= i < |d| ==> d[i] != ""
    ensures forall i, j :: 0 <= i < j < |d| ==> d[i] != d[j]
    ensures |d| <= |ts|
    decreases |ts|
  {
    if |ts| == 0 then []
    else
      var d := Dedup(ts[..|ts| - 1]);
      var t := ts[|ts| - 1];
      if t != "" && t !in d then d + [t] else d
  }

  /** Nothing is lost: the kept texts are exactly the distinct non-empty texts. */
  lemma {:induction false} DedupKeepsEveryText(ts: seq<string>)
    ensures forall t :: t in Dedup(ts) <==> t in ts && t != ""
    decreases |ts|
  {
    if |ts| > 0 {
      var init := ts[..|ts| - 1];
      DedupKeepsEveryText(init);
      assert ts == init + [ts[|ts| - 1]];
    }
  }

  /** First-occurrence order: the result for a prefix is a prefix of the result. */
  lemma {:induction false} DedupPrefix(ts: seq<string>, k: nat)
    requires k <= |ts|
    ensures Dedup(ts[..k]) <= Dedup(ts)
    decreases |ts| - k
  {
    if k < |ts| {
      DedupPrefix(ts, k + 1);
      assert ts[..k + 1][..k] == ts[..k];
    } else {
      assert ts[..k] == ts;
    }
  }

  /** The context for a list of records: the sentinel for none, else the kept texts joined. */
  function ContextOf(records: seq<Record>): (c: string)
    ensures records == [] ==> c == NoContext
  {
    if |records| == 0 then NoContext else Join(Dedup(Texts(records)), ContextSeparator)
  }

  lemma {:induction false} DedupAllEmpty(ts: seq<string>)
    requires forall i :: 0 <= i < |ts| ==> ts[i] == ""
    ensures Dedup(ts) == []
    decreases |ts|
  {
    if |ts| > 0 {
      DedupAllEmpty(ts[..|ts| - 1]);
    }
  }

  lemma {:induction false} DedupRepeated(ts: seq<string>, t: string)
    requires |ts| > 0 && t != "" && forall i :: 0 <= i < |ts| ==> ts[i] == t
    ensures Dedup(ts) == [t]
    decreases |ts|
  {
    if |ts| > 1 {
      DedupRepeated(ts[..|ts| - 1], t);
    }
  }

  /** Records that all have empty text give the empty context, not the sentinel. */
  lemma AllEmptyTextsGiveEmptyContext(records: seq<Record>)
    requires |records| > 0 && forall i :: 0 <= i < |records| ==> records[i].text == ""
    ensures ContextOf(records) == ""
  {
    DedupAllEmpty(Texts(records));
  }

  /** Records that all carry the same non-empty text give that text alone as the context. */
  lemma SingleTextContext(records: seq<Record>, t: string)
    requires |records| > 0 && t != "" && forall i :: 0 <= i < |records| ==> records[i].text == t
    ensures ContextOf(records) == t
  {
    DedupRepeated(Texts(records), t);
  }

  /**
   * The loop of `get_context_for_prompt`: for each record, a non-empty text
   * not seen before is added to `seen` and appended to `lines`.
   */
  method BuildContext(records: seq<Record>) returns (ctx: string)
    ensures ctx == ContextOf(records)
  {
    if |records| == 0 {
      return NoContext;
    }
    var ts := Texts(records);
    var lines: seq<string> := [];
    var seen: set<string> := {};
    for i := 0 to |records|
      invariant lines == Dedup(ts[..i])
      invariant seen == set t | t in lines
    {
      assert ts[..i + 1][..i] == ts[..i];
      var text := records[i].text;
      if text != "" && text !in seen {
        seen := seen + {text};
        lines := lines + [text];
      }
    }
    assert ts[..|records|] == ts;
    return Join(lines, ContextSeparator);
  }

  // ---------------------------------------------------------------------
  // The retriever object

  class SchemaRetriever {
    const store: FAISSSchemaStore
    const topK: nat

    /** The retriever's own store for the connection key, and the number of matches it asks for (10 by default). */
    constructor (registry: StoreRegistry, connectionKey: Option<string>, topK: nat)
      ensures store.registry == registry && store.key == StoreKey(connectionKey) && this.topK == topK
      ensures store.key in registry.stores ==> store.idList == registry.stores[store.key].ids
      ensures store.key !in registry.stores ==> store.index == None && store.idList == []
    {
      store := new FAISSSchemaStore(registry, connectionKey);
      this.topK := topK;
    }

    /**
     * `retrieve`: embeds the single text `[query]`, queries the store with the
     * retriever's `top_k` and maps each match to a record. An embedder that
     * returns no vector makes `vectors[0]` raise.
     */
    method Retrieve(query: string, embed: seq<string> -> seq<Vector>, search: (seq<Vector>, Vector, nat) -> seq<Hit>)
      returns (r: Outcome<seq<Record>>)
      ensures |embed([query])| == 0 ==> r == Raised(IndexOutOfRange)
      ensures |embed([query])| > 0 ==>
        r == match store.Answer(embed([query])[0], topK, search)
             case Ok(ms) => Ok(Records(ms))
             case Raised(e) => Raised(e)
    {
      var vectors := embed([query]);
      if |vectors| == 0 {
        return Raised(IndexOutOfRange);
      }
      var matches := store.Query(vectors[0], topK, search);
      match matches
      case Ok(ms) => r := Ok(Records(ms));
      case Raised(e) => r := Raised(e);
    }

    /** `get_context_for_prompt`: the context built from the retrieved records. */
    method ContextForPrompt(query: string, embed: seq<string> -> seq<Vector>, search: (seq<Vector>, Vector, nat) -> seq<Hit>)
      returns (r: Outcome<string>)
      ensures |embed([query])| == 0 ==> r == Raised(IndexOutOfRange)
      ensures |embed([query])| > 0 ==>
        r == match store.Answer(embed([query])[0], topK, search)
             case Ok(ms) => Ok(ContextOf(Records(ms)))
             case Raised(e) => Raised(e)
    {
      var records := Retrieve(query, embed, search);
      match records
      case Raised(e) => r := Raised(e);
      case Ok(rs) =>
        var ctx := BuildContext(rs);
        r := Ok(ctx);
    }
  }
}
