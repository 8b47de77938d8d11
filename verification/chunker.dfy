/**
 * backend/schema_ingestion/chunker.py: a schema becomes retrievable text
 * chunks, one per table plus one relationships chunk for each table that has
 * foreign keys.
 */
module Chunker {
  import opened Base
  import opened TextUtil
  import opened Extractor

  /** A chunk metadata value: the chunker stores lists; ingestion adds plain text values. */
  datatype MetaValue = Text(text: string) | Names(names: seq<string>) | ForeignKeys(fks: seq<ForeignKey>)

  datatype SchemaChunk = SchemaChunk(text: string, tableName: string, chunkType: string, metadata: map<string, MetaValue>)

  function ColumnNames(cols: seq<ColumnInfo>): (ns: seq<string>)
    ensures |ns| == |cols| && forall k :: 0 <= k < |cols| ==> ns[k] == cols[k].name
  {
    MapSeqIndex(cols, (c: ColumnInfo) => c.name);
    MapSeq(cols, (c: ColumnInfo) => c.name)
  }

  function TableChunkLines(t: TableInfo): seq<string> {
    ["Table: " + t.name, "Columns: " + ColumnList(t.columns)]
    + (if t.primaryKey != [] then ["Primary key: " + Join(t.primaryKey, ", ")] else [])
  }

  /**
   * `_table_to_chunk`: the header and column lines, plus a primary-key line
   * only when the key is not empty; the column names and the key as metadata.
   */
  function TableChunk(t: TableInfo): (c: SchemaChunk)
    ensures c.text == "Table: " + t.name + "\nColumns: " + ColumnList(t.columns)
      + (if t.primaryKey != [] then "\nPrimary key: " + Join(t.primaryKey, ", ") else "")
    ensures c.tableName == t.name && c.chunkType == "table"
    ensures c.metadata == map["columns" := Names(ColumnNames(t.columns)), "pk" := Names(t.primaryKey)]
  {
    var lines := TableChunkLines(t);
    TableChunkText(t);
    SchemaChunk(Join(lines, "\n"), t.name, "table", map["columns" := Names(ColumnNames(t.columns)), "pk" := Names(t.primaryKey)])
  }

  lemma TableChunkText(t: TableInfo)
    ensures Join(TableChunkLines(t), "\n") == "Table: " + t.name + "\nColumns: " + ColumnList(t.columns)
      + (if t.primaryKey != [] then "\nPrimary key: " + Join(t.primaryKey, ", ") else "")
  {
    var head, cols := "Table: " + t.name, "Columns: " + ColumnList(t.columns);
    if t.primaryKey != [] {
      var pk := "Primary key: " + Join(t.primaryKey, ", ");
      assert TableChunkLines(t) == [head, cols, pk];
      JoinThreeLines(head, cols, pk);
    } else {
      assert TableChunkLines(t) == [head, cols];
      JoinTwoLines(head, cols);
    }
  }

  lemma JoinTwoLines(a: string, b: string)
    ensures Join([a, b], "\n") == a + "\n" + b
  {
    assert [a, b][1..] == [b];
  }

  lemma JoinThreeLines(a: string, b: string, c: string)
    ensures Join([a, b, c], "\n") == a + "\n" + b + "\n" + c
  {
    assert [a, b, c][1..] == [b, c];
    JoinTwoLines(b, c);
  }

  function RelationshipLine(fk: ForeignKey): string {
    "  " + fk.columns + " references " + fk.referredTable + "(" + fk.referredColumns + ")"
  }

  function RelationshipsHeader(t: TableInfo): string {
    "Table " + t.name + " relationships:"
  }

  function RelationshipsLines(t: TableInfo): seq<string> {
    [RelationshipsHeader(t)] + seq(|t.foreignKeys|, k requires 0 <= k < |t.foreignKeys| => RelationshipLine(t.foreignKeys[k]))
  }

  /** What `_relationships_to_chunk` returns. */
  function RelationshipsChunk(t: TableInfo): SchemaChunk {
    SchemaChunk(Join(RelationshipsLines(t), "\n"), t.name, "relationships", map["foreign_keys" := ForeignKeys(t.foreignKeys)])
  }

  /** No newline in a table's name or foreign-key fields. */
  predicate SingleLineNames(t: TableInfo) {
    && '\n' !in t.name
    && forall k :: 0 <= k < |t.foreignKeys| ==>
      '\n' !in t.foreignKeys[k].columns && '\n' !in t.foreignKeys[k].referredTable && '\n' !in t.foreignKeys[k].referredColumns
  }

  /**
   * The relationships text reads back as the header line followed by one
   * line per foreign key, in order.
   */
  lemma RelationshipsChunkLines(t: TableInfo)
    requires SingleLineNames(t)
    ensures Split(RelationshipsChunk(t).text, '\n') == RelationshipsLines(t)
    ensures |RelationshipsLines(t)| == 1 + |t.foreignKeys|
    ensures forall k :: 0 <= k < |t.foreignKeys| ==> RelationshipsLines(t)[k + 1] == RelationshipLine(t.foreignKeys[k])
  {
    var lines := RelationshipsLines(t);
    forall k | 0 <= k < |lines|
      ensures '\n' !in lines[k]
    {
      if k > 0 {
        var fk := t.foreignKeys[k - 1];
        assert lines[k] == "  " + fk.columns + " references " + fk.referredTable + "(" + fk.referredColumns + ")";
      }
    }
    SplitJoin(lines, '\n');
  }

  /** `_relationships_to_chunk`, which appends one line per foreign key. */
  method BuildRelationshipsChunk(t: TableInfo) returns (c: SchemaChunk)
    ensures c == RelationshipsChunk(t)
  {
    var lines := [RelationshipsHeader(t)];
    for k := 0 to |t.foreignKeys|
      invariant lines == RelationshipsLines(t.(foreignKeys := t.foreignKeys[..k]))
    {
      lines := lines + [RelationshipLine(t.foreignKeys[k])];
    }
    assert t.(foreignKeys := t.foreignKeys[..|t.foreignKeys|]) == t;
    c := SchemaChunk(Join(lines, "\n"), t.name, "relationships", map["foreign_keys" := ForeignKeys(t.foreignKeys)]);
  }

  /** A table's chunks: its table chunk, then its relationships chunk if it has foreign keys. */
  function ChunksFor(t: TableInfo): (cs: seq<SchemaChunk>)
    ensures |cs| == if t.foreignKeys != [] then 2 else 1
    ensures cs[0] == TableChunk(t)
    ensures t.foreignKeys != [] ==> cs[1] == RelationshipsChunk(t)
    ensures forall c :: c in cs ==> c.tableName == t.name && (c.chunkType == "table" || c.chunkType == "relationships")
  {
    [TableChunk(t)] + if t.foreignKeys != [] then [RelationshipsChunk(t)] else []
  }

  function ChunksOf(tables: seq<TableInfo>): seq<SchemaChunk> {
    FlatMap(tables, ChunksFor)
  }

  /** `SchemaChunker.chunk`. */
  method Chunk(schema: SchemaInfo) returns (chunks: seq<SchemaChunk>)
    ensures chunks == ChunksOf(schema.tables)
  {
    var tables := schema.tables;
    chunks := [];
    for i := 0 to |tables|
      invariant chunks == ChunksOf(tables[..i])
    {
      assert tables[..i + 1][..i] == tables[..i];
      var own := TableChunks(tables[i]);
      chunks := chunks + own;
    }
    assert tables[..|tables|] == tables;
  }

  /** One table's iteration of `chunk`: its table chunk, then its relationships chunk when it has foreign keys. */
  method TableChunks(t: TableInfo) returns (own: seq<SchemaChunk>)
    ensures own == ChunksFor(t)
  {
    own := [TableChunk(t)];
    if t.foreignKeys != [] {
      var rel := BuildRelationshipsChunk(t);
      own := own + [rel];
    }
  }

  /** The number of tables with at least one foreign key. */
  function TablesWithForeignKeys(tables: seq<TableInfo>): (n: nat)
    ensures n <= |tables|
    decreases |tables|
  {
    if |tables| == 0 then 0
    else TablesWithForeignKeys(tables[..|tables| - 1]) + if tables[|tables| - 1].foreignKeys != [] then 1 else 0
  }

  /** N tables of which F have foreign keys give exactly N + F chunks. */
  lemma {:induction false} ChunkCount(tables: seq<TableInfo>)
    ensures |ChunksOf(tables)| == |tables| + TablesWithForeignKeys(tables)
    decreases |tables|
  {
    if |tables| > 0 {
      var init, last := tables[..|tables| - 1], tables[|tables| - 1];
      assert init + [last] == tables;
      calc {
        |ChunksOf(tables)|;
        { FlatMapSnoc(init, last, ChunksFor); }
        |ChunksOf(init) + ChunksFor(last)|;
        { ChunkCount(init); }
        |init| + TablesWithForeignKeys(init) + |ChunksFor(last)|;
        |tables| + TablesWithForeignKeys(tables);
      }
    }
  }

  /**
   * Chunks follow table order: the chunks of the tables before a table, then
   * that table's own chunks, then those of the tables after it.
   */
  lemma ChunkLayout(tables: seq<TableInfo>, i: nat)
    requires i < |tables|
    ensures ChunksOf(tables) == ChunksOf(tables[..i]) + ChunksFor(tables[i]) + ChunksOf(tables[i + 1..])
  {
    assert tables == tables[..i] + [tables[i]] + tables[i + 1..];
    FlatMapAppend(tables[..i] + [tables[i]], tables[i + 1..], ChunksFor);
    FlatMapSnoc(tables[..i], tables[i], ChunksFor);
  }

  /** Every chunk belongs to one of the tables and is a table or a relationships chunk. */
  lemma ChunkOwners(tables: seq<TableInfo>)
    ensures forall c :: c in ChunksOf(tables) ==>
      (exists t :: t in tables && c.tableName == t.name) && (c.chunkType == "table" || c.chunkType == "relationships")
  {
    forall c | c in ChunksOf(tables)
      ensures (exists t :: t in tables && c.tableName == t.name) && (c.chunkType == "table" || c.chunkType == "relationships")
    {
      var t := FlatMapSource(tables, ChunksFor, c);
    }
  }
}
