/**
 * backend/schema_ingestion/extractor.py: the schema data model, the
 * per-table assembly of what a database inspector reports, and the
 * human-readable rendering of a schema. The inspector and the row-count
 * query are parameters.
 */
module Extractor {
  import opened Base
  import opened TextUtil
  import opened Settings
  import opened Connection

  datatype ColumnInfo = ColumnInfo(name: string, typeName: string, nullable: bool, default: Option<string>)

  /** A foreign-key record: the constrained and referred column lists each joined with ", ". */
  datatype ForeignKey = ForeignKey(columns: string, referredTable: string, referredColumns: string)

  datatype TableInfo = TableInfo(
    name: string,
    columns: seq<ColumnInfo>,
    primaryKey: seq<string>,
    foreignKeys: seq<ForeignKey>,
    sampleRowCount: int)

  datatype SchemaInfo = SchemaInfo(tables: seq<TableInfo>, rawText: string)

  // ---------------------------------------------------------------------
  // What the inspector reports

  /** A reported column default: its `str` and its truth value. */
  datatype RawDefault = RawDefault(text: string, truthy: bool)

  /** A reported column; `typeText` is the `str` of the reported type, an absent entry is `None`. */
  datatype RawColumn = RawColumn(name: string, typeText: string, nullable: Option<bool>, default: Option<RawDefault>)

  datatype RawForeignKey = RawForeignKey(
    constrainedColumns: Option<seq<string>>,
    referredTable: Option<string>,
    referredColumns: Option<seq<string>>)

  /**
   * A database inspector: the table names in its order, and per table its
   * columns, its primary-key columns (`None` when no constraint is
   * reported) and its foreign keys.
   */
  datatype Inspector = Inspector(
    tableNames: seq<string>,
    columns: string -> seq<RawColumn>,
    primaryKey: string -> Option<seq<string>>,
    foreignKeys: string -> seq<RawForeignKey>)

  /** The outcome of the row-count query: its scalar (`None` for NULL), or an exception. */
  datatype ProbeResult = Counted(scalar: Option<int>) | ProbeFailed

  /** A column as `extract` records it: `nullable` defaults to true, and a falsy default becomes `None`. */
  function ColumnOf(raw: RawColumn): (c: ColumnInfo)
    ensures c.name == raw.name && c.typeName == raw.typeText
    ensures c.nullable <==> raw.nullable.None? || raw.nullable.value
    ensures c.default.Some? <==> raw.default.Some? && raw.default.value.truthy
    ensures c.default.Some? ==> c.default.value == raw.default.value.text
  {
    ColumnInfo(
      raw.name,
      raw.typeText,
      raw.nullable.GetOr(true),
      if raw.default.Some? && raw.default.value.truthy then Some(raw.default.value.text) else None)
  }

  function ColumnsOf(raws: seq<RawColumn>): seq<ColumnInfo> {
    seq(|raws|, k requires 0 <= k < |raws| => ColumnOf(raws[k]))
  }

  /** A foreign-key record; a missing column list or table becomes empty text. */
  function ForeignKeyOf(raw: RawForeignKey): (fk: ForeignKey)
    ensures fk.columns == Join(raw.constrainedColumns.GetOr([]), ", ")
    ensures fk.referredTable == raw.referredTable.GetOr("")
    ensures fk.referredColumns == Join(raw.referredColumns.GetOr([]), ", ")
    ensures raw.constrainedColumns.None? ==> fk.columns == ""
    ensures raw.referredTable.None? ==> fk.referredTable == ""
    ensures raw.referredColumns.None? ==> fk.referredColumns == ""
  {
    ForeignKey(
      Join(raw.constrainedColumns.GetOr([]), ", "),
      raw.referredTable.GetOr(""),
      Join(raw.referredColumns.GetOr([]), ", "))
  }

  function ForeignKeysOf(raws: seq<RawForeignKey>): seq<ForeignKey> {
    seq(|raws|, k requires 0 <= k < |raws| => ForeignKeyOf(raws[k]))
  }

  const CountQueryHead: string := "SELECT COUNT(*) FROM "

  /** The row-count query for a table, its name quoted for the database type. */
  function ProbeSql(name: string, databaseType: string): (sql: string)
    ensures StartsWith(sql, CountQueryHead)
    ensures sql[|CountQueryHead|..] == QuoteTable(name, databaseType)
  {
    CountQueryHead + QuoteTable(name, databaseType)
  }

  /** `r.scalar() or 0`, with any exception also giving 0. */
  function RowCountOf(p: ProbeResult): (n: int)
    ensures p.ProbeFailed? || p.scalar.None? ==> n == 0
    ensures p.Counted? && p.scalar.Some? ==> n == p.scalar.value
  {
    match p
    case ProbeFailed => 0
    case Counted(v) => v.GetOr(0)
  }

  /** The record for one inspected table. */
  function TableOf(insp: Inspector, probe: string -> ProbeResult, databaseType: string, name: string): TableInfo {
    TableInfo(
      name,
      ColumnsOf(insp.columns(name)),
      insp.primaryKey(name).GetOr([]),
      ForeignKeysOf(insp.foreignKeys(name)),
      RowCountOf(probe(ProbeSql(name, databaseType))))
  }

  /** The records for every inspected table, in the inspector's order. */
  function ExtractedTables(insp: Inspector, probe: string -> ProbeResult, databaseType: string): (ts: seq<TableInfo>)
    ensures |ts| == |insp.tableNames|
    ensures forall i :: 0 <= i < |ts| ==> ts[i] == TableOf(insp, probe, databaseType, insp.tableNames[i])
  {
    MapSeqIndex(insp.tableNames, name => TableOf(insp, probe, databaseType, name));
    TablesOf(insp, probe, databaseType, insp.tableNames)
  }

  /** The records for the named tables, one per name, built front to back. */
  function TablesOf(insp: Inspector, probe: string -> ProbeResult, databaseType: string, names: seq<string>): seq<TableInfo> {
    MapSeq(names, name => TableOf(insp, probe, databaseType, name))
  }

  /** Each record carries its table's name and one entry per inspected column and foreign key. */
  lemma ExtractedTablesShape(insp: Inspector, probe: string -> ProbeResult, databaseType: string, i: nat)
    requires i < |insp.tableNames|
    ensures var t := ExtractedTables(insp, probe, databaseType)[i];
      && t.name == insp.tableNames[i]
      && |t.columns| == |insp.columns(insp.tableNames[i])|
      && |t.foreignKeys| == |insp.foreignKeys(insp.tableNames[i])|
  {
  }

  /** The names of the records, in order. */
  function TableNames(tables: seq<TableInfo>): (names: seq<string>)
    ensures |names| == |tables| && forall k :: 0 <= k < |tables| ==> names[k] == tables[k].name
  {
    MapSeqIndex(tables, (t: TableInfo) => t.name);
    MapSeq(tables, (t: TableInfo) => t.name)
  }

  /** Extraction keeps exactly the inspector's table names, in its order. */
  lemma ExtractedNames(insp: Inspector, probe: string -> ProbeResult, databaseType: string)
    ensures TableNames(ExtractedTables(insp, probe, databaseType)) == insp.tableNames
  {
    var ts := ExtractedTables(insp, probe, databaseType);
    forall k | 0 <= k < |ts|
      ensures TableNames(ts)[k] == insp.tableNames[k]
    {
      ExtractedTablesShape(insp, probe, databaseType, k);
    }
  }

  // ---------------------------------------------------------------------
  // The text rendering

  function ColumnDesc(c: ColumnInfo): string {
    c.name + " (" + c.typeName + ")"
  }

  /** The columns as "name (type)" items joined with ", ". */
  function ColumnList(cols: seq<ColumnInfo>): string {
    Join(seq(|cols|, k requires 0 <= k < |cols| => ColumnDesc(cols[k])), ", ")
  }

  function ForeignKeyLine(fk: ForeignKey): string {
    "  Foreign key: " + fk.columns + " -> " + fk.referredTable + "(" + fk.referredColumns + ")"
  }

  function ForeignKeyLines(fks: seq<ForeignKey>): seq<string> {
    seq(|fks|, k requires 0 <= k < |fks| => ForeignKeyLine(fks[k]))
  }

  /** The lines rendered for one table, ending with a blank line. */
  function TableLines(t: TableInfo): (ls: seq<string>)
    ensures |ls| == 3 + (if t.primaryKey != [] then 1 else 0) + |t.foreignKeys| + (if t.sampleRowCount != 0 then 1 else 0)
    ensures ls[0] == "Table: " + t.name
    ensures ls[1] == "  Columns: " + ColumnList(t.columns)
    ensures t.primaryKey != [] ==> ls[2] == "  Primary key: " + Join(t.primaryKey, ", ")
    ensures ls[|ls| - 1] == ""
  {
    ["Table: " + t.name, "  Columns: " + ColumnList(t.columns)]
    + (if t.primaryKey != [] then ["  Primary key: " + Join(t.primaryKey, ", ")] else [])
    + ForeignKeyLines(t.foreignKeys)
    + (if t.sampleRowCount != 0 then ["  Row count: " + IntToString(t.sampleRowCount)] else [])
    + [""]
  }

  /** The lines of a schema: every table's lines, in table order. */
  function SchemaLines(tables: seq<TableInfo>): seq<string> {
    FlatMap(tables, TableLines)
  }

  /** `_schema_to_text`: every table's lines joined by newlines, then stripped. */
  function SchemaText(tables: seq<TableInfo>): string {
    Strip(Join(SchemaLines(tables), "\n"))
  }

  /** A schema without tables renders as the empty text. */
  lemma EmptySchemaText()
    ensures SchemaText([]) == ""
  {
  }

  /** A rendered schema with tables begins with the first table's header line. */
  lemma SchemaTextStartsWithFirstTable(tables: seq<TableInfo>)
    requires |tables| > 0
    ensures StartsWith(SchemaText(tables), "Table: " + tables[0].name)
  {
    SchemaLinesStart(tables);
    HeaderSurvivesStrip(SchemaLines(tables), "Table: " + tables[0].name);
  }

  /** The schema's lines open with the first table's header and columns lines. */
  lemma SchemaLinesStart(tables: seq<TableInfo>)
    requires |tables| > 0
    ensures |SchemaLines(tables)| >= 2
    ensures SchemaLines(tables)[0] == "Table: " + tables[0].name
    ensures SchemaLines(tables)[1] == "  Columns: " + ColumnList(tables[0].columns)
  {
    var t := tables[0];
    assert [t] + tables[1..] == tables;
    FlatMapAppend([t], tables[1..], TableLines);
    assert [] + [t] == [t];
    FlatMapSnoc([], t, TableLines);
  }

  /** Lines whose first is the header and whose second starts "  C" join and strip to text starting with the header. */
  lemma HeaderSurvivesStrip(lines: seq<string>, head: string)
    requires |lines| >= 2 && lines[0] == head && |head| > 0 && !IsSpace(head[0])
    requires |lines[1]| >= 3 && lines[1][2] == 'C'
    ensures StartsWith(Strip(Join(lines, "\n")), head)
  {
    var rest := Join(lines[1..], "\n");
    var q := "\n" + rest;
    assert Join(lines, "\n") == head + q;
    assert lines[1..][0] == lines[1];
    JoinStartsWithFirst(lines[1..], "\n");
    assert rest[2] == 'C' by {
      assert rest[..|lines[1]|] == lines[1];
    }
    assert q[3] == 'C';
    StripStartsWithNonSpace(q, head);
    RStripKeepsPrefix(head, q, 3);
  }

  class SchemaExtractor {
    const databaseType: string

    /** The extractor works on the given connection, or on the one built from the settings. */
    constructor (connection: Option<ConnectionConfig>, settings: Settings)
      ensures databaseType == GetConnection(connection, settings).databaseType
    {
      databaseType := GetConnection(connection, settings).databaseType;
    }

    /**
     * `extract`: one record per inspected table, in the inspector's order,
     * and the rendered text of exactly those records.
     */
    method Extract(insp: Inspector, probe: string -> ProbeResult) returns (schema: SchemaInfo)
      ensures schema.tables == ExtractedTables(insp, probe, databaseType)
      ensures schema.rawText == SchemaText(schema.tables)
    {
      var tables := ExtractTables(insp, probe, databaseType);
      var text := SchemaToText(SchemaInfo(tables, ""));
      schema := SchemaInfo(tables, text);
    }

    /** `_schema_to_text`. */
    method SchemaToText(schema: SchemaInfo) returns (text: string)
      ensures text == SchemaText(schema.tables)
    {
      var tables := schema.tables;
      var lines: seq<string> := [];
      for i := 0 to |tables|
        invariant lines == SchemaLines(tables[..i])
      {
        assert tables[..i + 1][..i] == tables[..i];
        lines := AppendTableLines(lines, tables[i]);
      }
      assert tables[..|tables|] == tables;
      text := Strip(Join(lines, "\n"));
    }
  }

  /** The table loop of `extract`. */
  method ExtractTables(insp: Inspector, probe: string -> ProbeResult, databaseType: string) returns (tables: seq<TableInfo>)
    ensures tables == ExtractedTables(insp, probe, databaseType)
  {
    var names := insp.tableNames;
    tables := [];
    for i := 0 to |names|
      invariant tables == TablesOf(insp, probe, databaseType, names[..i])
    {
      var t := ExtractTable(insp, probe, databaseType, names[i]);
      assert names[..i + 1][..i] == names[..i];
      tables := tables + [t];
    }
    assert names[..|names|] == names;
  }

  /** One table's iteration of `extract`: its columns, key, foreign keys and probed row count. */
  method ExtractTable(insp: Inspector, probe: string -> ProbeResult, databaseType: string, name: string) returns (t: TableInfo)
    ensures t == TableOf(insp, probe, databaseType, name)
  {
    var columns := AssembleColumns(insp.columns(name));
    var primaryKey := insp.primaryKey(name).GetOr([]);
    var foreignKeys := AssembleForeignKeys(insp.foreignKeys(name));
    var sampleRowCount := RowCountOf(probe(ProbeSql(name, databaseType)));
    t := TableInfo(name, columns, primaryKey, foreignKeys, sampleRowCount);
  }

  /** The column loop of `extract`. */
  method AssembleColumns(raws: seq<RawColumn>) returns (columns: seq<ColumnInfo>)
    ensures columns == ColumnsOf(raws)
    ensures |columns| == |raws| && forall k :: 0 <= k < |raws| ==> columns[k] == ColumnOf(raws[k])
  {
    columns := [];
    for k := 0 to |raws|
      invariant columns == ColumnsOf(raws[..k])
    {
      columns := columns + [ColumnOf(raws[k])];
    }
    assert raws[..|raws|] == raws;
  }

  /** The foreign-key loop of `extract`. */
  method AssembleForeignKeys(raws: seq<RawForeignKey>) returns (fks: seq<ForeignKey>)
    ensures fks == ForeignKeysOf(raws)
    ensures |fks| == |raws| && forall k :: 0 <= k < |raws| ==> fks[k] == ForeignKeyOf(raws[k])
  {
    fks := [];
    for k := 0 to |raws|
      invariant fks == ForeignKeysOf(raws[..k])
    {
      fks := fks + [ForeignKeyOf(raws[k])];
    }
    assert raws[..|raws|] == raws;
  }

  /** One table's iteration of `_schema_to_text`, appending its lines. */
  method AppendTableLines(lines: seq<string>, t: TableInfo) returns (out: seq<string>)
    ensures out == lines + TableLines(t)
  {
    var header := ["Table: " + t.name, "  Columns: " + ColumnList(t.columns)];
    ghost var own := header;
    out := lines + header;
    if t.primaryKey != [] {
      var line := "  Primary key: " + Join(t.primaryKey, ", ");
      own, out := own + [line], out + [line];
    }
    ghost var keyed := own;
    for k := 0 to |t.foreignKeys|
      invariant own == keyed + ForeignKeyLines(t.foreignKeys[..k])
      invariant out == lines + own
    {
      var line := ForeignKeyLine(t.foreignKeys[k]);
      own, out := own + [line], out + [line];
    }
    assert t.foreignKeys[..|t.foreignKeys|] == t.foreignKeys;
    if t.sampleRowCount != 0 {
      var line := "  Row count: " + IntToString(t.sampleRowCount);
      own, out := own + [line], out + [line];
    }
    own, out := own + [""], out + [""];
    assert own == TableLines(t);
  }

}
