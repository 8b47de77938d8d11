/**
 * backend/schema_ingestion/vector_store.py: an in-process registry of
 * similarity indexes, one per connection key, and the store object that
 * snapshots its key's entry when built, replaces it on upsert and answers
 * nearest-neighbour queries. The index search itself is a parameter.
 */
module VectorStore {
  import opened Base

  type Vector = seq<real>

  /** A chunk's metadata record, after ingestion has flattened every value to text. */
  type Metadata = map<string, string>

  /** One search result of the index: a position in the id list (negative for "no result") and its score. */
  datatype Hit = Hit(index: int, score: real)

  datatype Match = Match(id: string, score: real, metadata: Metadata)

  /** A registry entry: the indexed vectors, and the id and metadata lists kept beside them. */
  datatype Entry = Entry(vectors: seq<Vector>, ids: seq<string>, metadatas: seq<Metadata>)

  /** `_store_key`: a missing or empty connection key shares the "default" entry. */
  function StoreKey(connectionKey: Option<string>): (k: string)
    ensures k != ""
    ensures connectionKey.None? || connectionKey.value == "" ==> k == "default"
    ensures connectionKey.Some? && connectionKey.value != "" ==> k == connectionKey.value
  {
    if connectionKey.Some? && connectionKey.value != "" then connectionKey.value else "default"
  }

  /** The module-level `_stores` dictionary. */
  class StoreRegistry {
    var stores: map<string, Entry>

    constructor ()
      ensures stores == map[]
    {
      stores := map[];
    }
  }

  class FAISSSchemaStore {
    const registry: StoreRegistry
    const key: string
    /** The index's vectors; None until something is indexed. */
    var index: Option<seq<Vector>>
    var idList: seq<string>
    var metadatas: seq<Metadata>

    /** The instance adopts its key's registry entry if there is one; otherwise it starts empty. */
    constructor (registry: StoreRegistry, connectionKey: Option<string>)
      ensures this.registry == registry && key == StoreKey(connectionKey)
      ensures key in registry.stores ==>
        (index == Some(registry.stores[key].vectors) && idList == registry.stores[key].ids
         && metadatas == registry.stores[key].metadatas)
      ensures key !in registry.stores ==> index == None && idList == [] && metadatas == []
    {
      this.registry := registry;
      var k := StoreKey(connectionKey);
      key := k;
      if k in registry.stores {
        var e := registry.stores[k];
        index := Some(e.vectors);
        idList := e.ids;
        metadatas := e.metadatas;
      } else {
        index := None;
        idList := [];
        metadatas := [];
      }
    }

    /**
     * `upsert`: with no vectors nothing happens; otherwise the instance holds
     * exactly the given vectors, ids and metadata, and this key's registry
     * entry is replaced by them while every other key keeps its entry.
     */
    method Upsert(ids: seq<string>, vectors: seq<Vector>, metas: seq<Metadata>)
      modifies this, registry
      ensures |vectors| == 0 ==>
        (index == old(index) && idList == old(idList) && metadatas == old(metadatas) && registry.stores == old(registry.stores))
      ensures |vectors| > 0 ==>
        (index == Some(vectors) && idList == ids && metadatas == metas
         && registry.stores == old(registry.stores)[key := Entry(vectors, ids, metas)])
      ensures forall k :: k in old(registry.stores) && k != key ==> k in registry.stores && registry.stores[k] == old(registry.stores)[k]
    {
      if |vectors| == 0 {
        return;
      }
      index := Some(vectors);
      idList := ids;
      metadatas := metas;
      registry.stores := registry.stores[key := Entry(vectors, ids, metas)];
    }

    /**
     * `query`: no index or no ids gives no matches; otherwise the index is
     * searched for min(top_k, number of ids) neighbours and the hits are
     * mapped to matches by `MatchesOf`.
     */
    method Query(vector: Vector, topK: nat, search: (seq<Vector>, Vector, nat) -> seq<Hit>) returns (r: Outcome<seq<Match>>)
      ensures index.None? || idList == [] ==> r == Ok([])
      ensures index.Some? && idList != [] ==>
        r == MatchesOf(search(index.value, vector, Min(topK, |idList|)), idList, metadatas)
      ensures r == Answer(vector, topK, search)
    {
      if index.None? || idList == [] {
        return Ok([]);
      }
      var hits := search(index.value, vector, Min(topK, |idList|));
      var out: seq<Match> := [];
      for i := 0 to |hits|
        invariant MatchesOf(hits[..i], idList, metadatas) == Ok(out)
      {
        assert hits[..i + 1][..i] == hits[..i];
        var h := hits[i];
        if h.index < 0 {
          continue;
        }
        if h.index >= |idList| {
          PrefixRaises(hits, i + 1, |hits|, idList, metadatas);
          assert hits[..|hits|] == hits;
          return Raised(IndexOutOfRange);
        }
        var meta := if h.index < |metadatas| then metadatas[h.index] else map[];
        out := out + [Match(idList[h.index], h.score, meta)];
      }
      assert hits[..|hits|] == hits;
      return Ok(out);
    }

    /** What `query` returns in the store's current state. */
    function Answer(vector: Vector, topK: nat, search: (seq<Vector>, Vector, nat) -> seq<Hit>): Outcome<seq<Match>>
      reads this
    {
      if index.None? || idList == [] then Ok([])
      else MatchesOf(search(index.value, vector, Min(topK, |idList|)), idList, metadatas)
    }
  }

  function Min(a: nat, b: nat): nat {
    if a <= b then a else b
  }

  /**
   * The matches for the hits, in order: a negative position is skipped, a
   * position past the id list raises, and a position past the metadata list
   * gets empty metadata.
   */
  function MatchesOf(hits: seq<Hit>, ids: seq<string>, metas: seq<Metadata>): Outcome<seq<Match>>
    decreases |hits|
  {
    if |hits| == 0 then Ok([])
    else match MatchesOf(hits[..|hits| - 1], ids, metas)
      case Raised(e) => Raised(e)
      case Ok(prev) =>
        var h := hits[|hits| - 1];
        if h.index < 0 then Ok(prev)
        else if h.index >= |ids| then Raised(IndexOutOfRange)
        else Ok(prev + [Match(ids[h.index], h.score, if h.index < |metas| then metas[h.index] else map[])])
  }

  /** Once a prefix of the hits raises, every longer prefix raises too. */
  lemma {:induction false} PrefixRaises(hits: seq<Hit>, i: nat, j: nat, ids: seq<string>, metas: seq<Metadata>)
    requires i <= j <= |hits| && MatchesOf(hits[..i], ids, metas).Raised?
    ensures MatchesOf(hits[..j], ids, metas) == Raised(IndexOutOfRange)
    decreases j - i
  {
    if i < j {
      assert hits[..i + 1][..i] == hits[..i];
      PrefixRaises(hits, i + 1, j, ids, metas);
    } else {
      RaisedReason(hits[..i], ids, metas);
    }
  }

  lemma {:induction false} RaisedReason(hits: seq<Hit>, ids: seq<string>, metas: seq<Metadata>)
    requires MatchesOf(hits, ids, metas).Raised?
    ensures MatchesOf(hits, ids, metas) == Raised(IndexOutOfRange)
    decreases |hits|
  {
    if |hits| > 0 && MatchesOf(hits[..|hits| - 1], ids, metas).Raised? {
      RaisedReason(hits[..|hits| - 1], ids, metas);
    }
  }

  /** At most one match per hit, each naming an id of the list. */
  lemma {:induction false} MatchesBounded(hits: seq<Hit>, ids: seq<string>, metas: seq<Metadata>)
    ensures MatchesOf(hits, ids, metas).Ok? ==> |MatchesOf(hits, ids, metas).value| <= |hits|
    ensures MatchesOf(hits, ids, metas).Ok? ==>
      forall m :: 0 <= m < |MatchesOf(hits, ids, metas).value| ==> MatchesOf(hits, ids, metas).value[m].id in ids
    decreases |hits|
  {
    if |hits| > 0 {
      MatchesBounded(hits[..|hits| - 1], ids, metas);
    }
  }

  /**
   * `query` returns at most min(top_k, number of ids) matches, given the
   * index's promise that a search for k neighbours yields at most k rows.
   */
  lemma QueryBounded(s: FAISSSchemaStore, vector: Vector, topK: nat, search: (seq<Vector>, Vector, nat) -> seq<Hit>)
    requires forall vs, q, k :: |search(vs, q, k)| <= k
    ensures s.Answer(vector, topK, search).Ok? ==> |s.Answer(vector, topK, search).value| <= Min(topK, |s.idList|)
  {
    if s.index.Some? && s.idList != [] {
      MatchesBounded(search(s.index.value, vector, Min(topK, |s.idList|)), s.idList, s.metadatas);
    }
  }

  /** Hits that all fall inside the id list give one match per hit, in order, with that id and score. */
  lemma {:induction false} MatchesOfValidHits(hits: seq<Hit>, ids: seq<string>, metas: seq<Metadata>)
    requires forall h :: 0 <= h < |hits| ==> 0 <= hits[h].index < |ids|
    ensures MatchesOf(hits, ids, metas).Ok?
    ensures |MatchesOf(hits, ids, metas).value| == |hits|
    ensures forall h :: 0 <= h < |hits| ==>
      MatchesOf(hits, ids, metas).value[h].id == ids[hits[h].index]
      && MatchesOf(hits, ids, metas).value[h].score == hits[h].score
    decreases |hits|
  {
    if |hits| > 0 {
      MatchesOfValidHits(hits[..|hits| - 1], ids, metas);
    }
  }

  /** Only hits at negative positions: no matches. */
  lemma {:induction false} MatchesOfNoResults(hits: seq<Hit>, ids: seq<string>, metas: seq<Metadata>)
    requires forall h :: 0 <= h < |hits| ==> hits[h].index < 0
    ensures MatchesOf(hits, ids, metas) == Ok([])
    decreases |hits|
  {
    if |hits| > 0 {
      MatchesOfNoResults(hits[..|hits| - 1], ids, metas);
    }
  }

  /**
   * Two stores for the same key built before an upsert: the one that did not
   * upsert keeps its empty snapshot, while a store built afterwards sees the
   * new entry.
   */
  method StaleSnapshotScenario(ids: seq<string>, vectors: seq<Vector>, metas: seq<Metadata>)
    returns (stale: seq<string>, later: seq<string>)
    requires |vectors| > 0
    ensures stale == [] && later == ids
  {
    var registry := new StoreRegistry();
    var writer := new FAISSSchemaStore(registry, Some("k"));
    var reader := new FAISSSchemaStore(registry, Some("k"));
    writer.Upsert(ids, vectors, metas);
    var newcomer := new FAISSSchemaStore(registry, Some("k"));
    stale := reader.idList;
    later := newcomer.idList;
  }

  /**
   * A second upsert replaces the first rather than merging with it, and an
   * upsert under one key leaves another key's entry as it was.
   */
  method ReplaceNotMergeScenario(ids1: seq<string>, vs1: seq<Vector>, ids2: seq<string>, vs2: seq<Vector>)
    returns (first: seq<string>, second: seq<string>)
    requires |vs1| > 0 && |vs2| > 0
    ensures first == ids1 && second == ids2
  {
    var registry := new StoreRegistry();
    var a := new FAISSSchemaStore(registry, Some("a"));
    var b := new FAISSSchemaStore(registry, None);
    a.Upsert(ids1, vs1, []);
    b.Upsert(ids1, vs1, []);
    b.Upsert(ids2, vs2, []);
    first := registry.stores["a"].ids;
    second := registry.stores["default"].ids;
  }
}
