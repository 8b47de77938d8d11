/**
 * backend/schema_ingestion/pipeline.py: extract the schema, chunk it, embed
 * the chunk texts, and upsert one id, vector and flattened metadata record
 * per chunk into the connection's store. The embedder, the uuid generator
 * and Python's `str` of a foreign-key record are parameters.
 */
module Ingestion {
  import opened Base
  import opened TextUtil
  import opened Settings
  import opened Connection
  import opened Extractor
  import opened Chunker
  import opened VectorStore

  /** The statistics `run` returns. */
  datatype Stats = Stats(tables: nat, chunks: nat, vectorsUpserted: nat)

  /** What is handed to the store: ids, vectors and metadata records. */
  datatype Batch = Batch(ids: seq<string>, vectors: seq<Vector>, metadatas: seq<Metadata>)

  const MetadataTextLimit: nat := 1000

  /** "chunk-" followed by the first 12 hex digits of a fresh uuid. */
  function ChunkId(uuid: UuidHex): (id: string)
    ensures |id| == 18 && StartsWith(id, "chunk-") && IsLowerHex(id[6..])
  {
    "chunk-" + uuid[..12]
  }

  /** The table name, the chunk type and the text cut to 1000 characters, overridden by the chunk's own metadata. */
  function MergedMetadata(c: SchemaChunk): (m: map<string, MetaValue>)
    ensures m.Keys == {"table_name", "chunk_type", "text"} + c.metadata.Keys
    ensures forall k :: k in c.metadata ==> m[k] == c.metadata[k]
    ensures "table_name" !in c.metadata ==> m["table_name"] == Text(c.tableName)
    ensures "chunk_type" !in c.metadata ==> m["chunk_type"] == Text(c.chunkType)
    ensures "text" !in c.metadata ==> m["text"] == Text(Prefix(c.text, MetadataTextLimit))
  {
    map["table_name" := Text(c.tableName), "chunk_type" := Text(c.chunkType), "text" := Text(Prefix(c.text, MetadataTextLimit))]
    + c.metadata
  }

  /** A metadata value as stored: text unchanged, a list as its items' `str` joined by ",". */
  function FlatValue(v: MetaValue, strOf: ForeignKey -> string): string {
    match v
    case Text(s) => s
    case Names(ns) => Join(ns, ",")
    case ForeignKeys(fks) => Join(seq(|fks|, k requires 0 <= k < |fks| => strOf(fks[k])), ",")
  }

  function Flattened(m: map<string, MetaValue>, strOf: ForeignKey -> string): (out: Metadata)
    ensures out.Keys == m.Keys
  {
    map k | k in m :: FlatValue(m[k], strOf)
  }

  /** The normalisation loop: every list value is replaced by its flattened text, every key kept. */
  method NormaliseMetadata(m: map<string, MetaValue>, strOf: ForeignKey -> string) returns (out: Metadata)
    ensures out.Keys == m.Keys
    ensures forall k :: k in m ==> out[k] == FlatValue(m[k], strOf)
    ensures out == Flattened(m, strOf)
  {
    out := map[];
    var keys := m.Keys;
    while keys != {}
      invariant keys <= m.Keys
      invariant out.Keys == m.Keys - keys
      invariant forall k :: k in out ==> out[k] == FlatValue(m[k], strOf)
      decreases keys
    {
      var k :| k in keys;
      out := out[k := FlatValue(m[k], strOf)];
      keys := keys - {k};
    }
  }

  /** A flattened name list reads back as the names when none holds a comma. */
  lemma FlatNamesReadBack(ns: seq<string>, strOf: ForeignKey -> string)
    requires |ns| > 0 && forall k :: 0 <= k < |ns| ==> ',' !in ns[k]
    ensures Split(FlatValue(Names(ns), strOf), ',') == ns
  {
    SplitJoin(ns, ',');
  }

  /** The stored metadata of a chunk the chunker produced: its owner, its kind and its text, next to its flattened lists. */
  lemma ChunkMetadataKeepsOwner(tables: seq<TableInfo>, c: SchemaChunk, strOf: ForeignKey -> string)
    requires c in ChunksOf(tables)
    ensures Flattened(MergedMetadata(c), strOf)["table_name"] == c.tableName
    ensures Flattened(MergedMetadata(c), strOf)["chunk_type"] == c.chunkType
    ensures Flattened(MergedMetadata(c), strOf)["text"] == Prefix(c.text, MetadataTextLimit)
  {
    ChunkMetadataKeys(tables);
  }

  /** Chunker metadata uses only the keys "columns", "pk" and "foreign_keys". */
  lemma ChunkMetadataKeys(tables: seq<TableInfo>)
    ensures forall c :: c in ChunksOf(tables) ==> c.metadata.Keys <= {"columns", "pk", "foreign_keys"}
  {
    forall c | c in ChunksOf(tables)
      ensures c.metadata.Keys <= {"columns", "pk", "foreign_keys"}
    {
      var t := FlatMapSource(tables, ChunksFor, c);
      var cs := ChunksFor(t);
      assert c == cs[0] || c == cs[1];
    }
  }

  /**
   * The batch for the chunks: one id and one metadata record per chunk, in
   * chunk order, and the embedded vectors paired with the chunks as `zip`
   * pairs them (the shorter list decides).
   */
  function BatchOf(chunks: seq<SchemaChunk>, embedded: seq<Vector>, uuid: nat -> UuidHex, strOf: ForeignKey -> string): (b: Batch)
    ensures |b.ids| == |chunks| && |b.metadatas| == |chunks|
    ensures |b.vectors| == Min(|chunks|, |embedded|) && b.vectors == embedded[..|b.vectors|]
    ensures forall k :: 0 <= k < |chunks| ==> b.ids[k] == ChunkId(uuid(k))
    ensures forall k :: 0 <= k < |chunks| ==> b.metadatas[k] == Flattened(MergedMetadata(chunks[k]), strOf)
  {
    Batch(ChunkIds(|chunks|, uuid), embedded[..Min(|chunks|, |embedded|)], MetadatasOf(chunks, strOf))
  }

  /** A fresh id for each of the n chunks. */
  function ChunkIds(n: nat, uuid: nat -> UuidHex): seq<string> {
    seq(n, k requires 0 <= k < n => ChunkId(uuid(k)))
  }

  function MetadatasOf(chunks: seq<SchemaChunk>, strOf: ForeignKey -> string): seq<Metadata> {
    seq(|chunks|, k requires 0 <= k < |chunks| => Flattened(MergedMetadata(chunks[k]), strOf))
  }

  /** The two metadata loops of `run`: merge each chunk's record, then normalise it. */
  method NormaliseAll(chunks: seq<SchemaChunk>, strOf: ForeignKey -> string) returns (metadatas: seq<Metadata>)
    ensures metadatas == MetadatasOf(chunks, strOf)
  {
    var merged := seq(|chunks|, k requires 0 <= k < |chunks| => MergedMetadata(chunks[k]));
    metadatas := [];
    for k := 0 to |merged|
      invariant |metadatas| == k
      invariant forall j :: 0 <= j < k ==> metadatas[j] == Flattened(merged[j], strOf)
    {
      var m := NormaliseMetadata(merged[k], strOf);
      metadatas := metadatas + [m];
    }
  }

  function Texts(chunks: seq<SchemaChunk>): seq<string> {
    seq(|chunks|, k requires 0 <= k < |chunks| => chunks[k].text)
  }

  class SchemaIngestionPipeline {
    const extractor: SchemaExtractor
    const store: FAISSSchemaStore

    /** The pipeline's extractor and its store, keyed by the connection's key. */
    constructor (connection: Option<ConnectionConfig>, settings: Settings, registry: StoreRegistry, sha256: string -> Sha256Hex)
      ensures extractor.databaseType == GetConnection(connection, settings).databaseType
      ensures store.registry == registry
      ensures store.key == StoreKey(Some(ConnectionKey(GetConnection(connection, settings), sha256)))
    {
      var conn := GetConnection(connection, settings);
      extractor := new SchemaExtractor(Some(conn), settings);
      store := new FAISSSchemaStore(registry, Some(ConnectionKey(conn, sha256)));
    }

    /**
     * `run`: the batch for the chunks of the extracted schema is upserted
     * once, and the statistics count the tables, the chunks and the ids.
     */
    method Run(insp: Inspector, probe: string -> ProbeResult, embed: seq<string> -> seq<Vector>,
               uuid: nat -> UuidHex, strOf: ForeignKey -> string) returns (stats: Stats)
      modifies store, store.registry
      ensures
        var tables := ExtractedTables(insp, probe, extractor.databaseType);
        var chunks := ChunksOf(tables);
        var b := BatchOf(chunks, embed(Texts(chunks)), uuid, strOf);
        && stats == Stats(|tables|, |chunks|, |chunks|)
        && stats.tables == |insp.tableNames|
        && (|b.vectors| > 0 ==> store.registry.stores == old(store.registry.stores)[store.key := Entry(b.vectors, b.ids, b.metadatas)])
        && (|b.vectors| > 0 ==> store.index == Some(b.vectors) && store.idList == b.ids && store.metadatas == b.metadatas)
        && (|b.vectors| == 0 ==> store.registry.stores == old(store.registry.stores))
        && (|b.vectors| == 0 ==> store.index == old(store.index) && store.idList == old(store.idList) && store.metadatas == old(store.metadatas))
    {
      var schema := extractor.Extract(insp, probe);
      stats := IndexSchema(schema, embed, uuid, strOf);
    }

    /** The steps of `run` after extraction: chunk, embed, build the batch and upsert it. */
    method IndexSchema(schema: SchemaInfo, embed: seq<string> -> seq<Vector>, uuid: nat -> UuidHex, strOf: ForeignKey -> string)
      returns (stats: Stats)
      modifies store, store.registry
      ensures
        var chunks := ChunksOf(schema.tables);
        var b := BatchOf(chunks, embed(Texts(chunks)), uuid, strOf);
        && stats == Stats(|schema.tables|, |chunks|, |chunks|)
        && (|b.vectors| > 0 ==> store.registry.stores == old(store.registry.stores)[store.key := Entry(b.vectors, b.ids, b.metadatas)])
        && (|b.vectors| > 0 ==> store.index == Some(b.vectors) && store.idList == b.ids && store.metadatas == b.metadatas)
        && (|b.vectors| == 0 ==> store.registry.stores == old(store.registry.stores))
        && (|b.vectors| == 0 ==> store.index == old(store.index) && store.idList == old(store.idList) && store.metadatas == old(store.metadatas))
    {
      var chunks := Chunk(schema);
      var embedded := embed(Texts(chunks));
      var ids := ChunkIds(|chunks|, uuid);
      var vectors := embedded[..Min(|chunks|, |embedded|)];
      var metadatas := NormaliseAll(chunks, strOf);
      store.Upsert(ids, vectors, metadatas);
      stats := Stats(|schema.tables|, |chunks|, |ids|);
    }
  }
}
