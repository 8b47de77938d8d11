/**
 * backend/sql_generation/validator.py: the four-stage gate a generated
 * statement must pass before it is executed. Stages run in the order syntax,
 * read-only, row limit, table existence; the first failure is the verdict.
 */
module Validator {
  import opened Base
  import opened TextUtil
  import opened SqlScan
  import opened Settings

  /** `(is_valid, error_message)`. */
  datatype Verdict = Verdict(ok: bool, error: string)

  const Pass: Verdict := Verdict(true, "")

  function Fail(message: string): Verdict {
    Verdict(false, message)
  }

  /** What `sqlparse.parse` gives back: a number of statements, or the message of the exception it raised. */
  datatype ParseOutcome = Statements(count: nat) | ParseError(message: string)

  // ---------------------------------------------------------------------
  // Stage 1: syntax

  function SyntaxVerdict(p: ParseOutcome): (v: Verdict)
    ensures v.ok <==> p.Statements? && p.count > 0
    ensures p.Statements? && p.count == 0 ==> v.error == "Invalid SQL: could not parse."
    ensures p.ParseError? ==> v.error == "SQL syntax error: " + p.message
  {
    match p
    case Statements(n) => if n == 0 then Fail("Invalid SQL: could not parse.") else Pass
    case ParseError(m) => Fail("SQL syntax error: " + m)
  }

  // ---------------------------------------------------------------------
  // Stage 2: read-only

  const Forbidden: seq<string> := ["INSERT", "UPDATE", "DELETE", "DROP", "CREATE", "ALTER", "TRUNCATE", "REPLACE"]

  function ReadOnlyMessage(kw: string): string {
    "Read-only mode: " + kw + " is not allowed."
  }

  function ReadOnlyVerdict(sql: string, readOnly: bool): (v: Verdict)
    ensures !readOnly ==> v == Pass
    ensures readOnly ==> (v.ok <==> forall q :: 0 <= q < |Forbidden| ==> !ContainsWord(Upper(sql), Forbidden[q]))
    ensures readOnly && !v.ok ==> exists j | 0 <= j < |Forbidden| :: (
      && v.error == ReadOnlyMessage(Forbidden[j])
      && ContainsWord(Upper(sql), Forbidden[j])
      && forall q :: 0 <= q < j ==> !ContainsWord(Upper(sql), Forbidden[q]))
  {
    if !readOnly then Pass
    else match FirstWord(Upper(sql), Forbidden)
      case Some(j) => Fail(ReadOnlyMessage(Forbidden[j]))
      case None => Pass
  }

  // ---------------------------------------------------------------------
  // Stage 3: row limit

  function LimitMessage(n: nat, maxRows: int): string {
    "LIMIT " + NatToString(n) + " exceeds maximum allowed (" + IntToString(maxRows) + ")."
  }

  function RowLimitVerdict(sql: string, maxRows: int): (v: Verdict)
    ensures FirstLimit(sql).None? ==> v == Pass
    ensures FirstLimit(sql).Some? ==> (v.ok <==> FirstLimit(sql).value <= maxRows)
    ensures !v.ok ==> FirstLimit(sql).Some? && v.error == LimitMessage(FirstLimit(sql).value, maxRows)
  {
    match FirstLimit(sql)
    case Some(n) => if n > maxRows then Fail(LimitMessage(n, maxRows)) else Pass
    case None => Pass
  }

  // ---------------------------------------------------------------------
  // Stage 4: table existence

  function TablesVerdict(sql: string, known: set<string>): (v: Verdict)
    ensures v.ok <==> forall q :: 0 <= q < |TableRefs(sql)| ==> TableRefs(sql)[q] in known
    ensures !v.ok ==> exists p | 0 <= p < |TableRefs(sql)| :: (
      && v.error == "Unknown table: " + TableRefs(sql)[p]
      && TableRefs(sql)[p] !in known
      && forall q :: 0 <= q < p ==> TableRefs(sql)[q] in known)
  {
    var refs := TableRefs(sql);
    match FirstMissing(refs, known)
    case Some(p) => Fail("Unknown table: " + refs[p])
    case None => Pass
  }

  /** The table names the validator compares against: the schema's names, lower-cased. */
  function LowerNames(names: seq<string>): (r: set<string>)
    ensures forall n :: n in names ==> Lower(n) in r
    ensures forall m :: m in r ==> exists n :: n in names && m == Lower(n)
  {
    set n | n in names :: Lower(n)
  }

  // ---------------------------------------------------------------------
  // The gate

  /** Stages 1-3, which need no schema. */
  predicate PassesSchemaFreeStages(parsed: ParseOutcome, sql: string, readOnly: bool, maxRows: int) {
    SyntaxVerdict(parsed).ok && ReadOnlyVerdict(sql, readOnly).ok && RowLimitVerdict(sql, maxRows).ok
  }

  /** `validate` as a function of the parse result, the settings and the known table names. */
  function ValidateSpec(parsed: ParseOutcome, sql: string, readOnly: bool, maxRows: int, known: set<string>): Verdict {
    var syntax := SyntaxVerdict(parsed);
    if !syntax.ok then syntax
    else
      var readOnlyStage := ReadOnlyVerdict(sql, readOnly);
      if !readOnlyStage.ok then readOnlyStage
      else
        var rowLimit := RowLimitVerdict(sql, maxRows);
        if !rowLimit.ok then rowLimit
        else TablesVerdict(sql, known)
  }

  /** Every rejection carries a non-empty reason. */
  lemma FailuresHaveReasons(parsed: ParseOutcome, sql: string, readOnly: bool, maxRows: int, known: set<string>)
    ensures !SyntaxVerdict(parsed).ok ==> SyntaxVerdict(parsed).error != ""
    ensures !ReadOnlyVerdict(sql, readOnly).ok ==> ReadOnlyVerdict(sql, readOnly).error != ""
    ensures !RowLimitVerdict(sql, maxRows).ok ==> RowLimitVerdict(sql, maxRows).error != ""
    ensures !TablesVerdict(sql, known).ok ==> TablesVerdict(sql, known).error != ""
  {
    var v := ReadOnlyVerdict(sql, readOnly);
    if !v.ok {
      var j :| 0 <= j < |Forbidden| && v.error == ReadOnlyMessage(Forbidden[j]);
    }
    var t := TablesVerdict(sql, known);
    if !t.ok {
      var p :| 0 <= p < |TableRefs(sql)| && t.error == "Unknown table: " + TableRefs(sql)[p];
    }
  }

  /**
   * The verdict is `(True, "")` exactly when all four stages pass; otherwise
   * it is the verdict of the first stage that failed, in the order syntax,
   * read-only, row limit, tables, and its reason is not empty.
   */
  lemma {:induction false} ValidateIsFirstFailure(parsed: ParseOutcome, sql: string, readOnly: bool, maxRows: int, known: set<string>)
    ensures var v := ValidateSpec(parsed, sql, readOnly, maxRows, known);
      && (v.ok <==> v.error == "")
      && (v == Pass <==> PassesSchemaFreeStages(parsed, sql, readOnly, maxRows) && TablesVerdict(sql, known).ok)
      && (!SyntaxVerdict(parsed).ok ==> v == SyntaxVerdict(parsed))
      && (SyntaxVerdict(parsed).ok && !ReadOnlyVerdict(sql, readOnly).ok ==> v == ReadOnlyVerdict(sql, readOnly))
      && (SyntaxVerdict(parsed).ok && ReadOnlyVerdict(sql, readOnly).ok && !RowLimitVerdict(sql, maxRows).ok
          ==> v == RowLimitVerdict(sql, maxRows))
      && (PassesSchemaFreeStages(parsed, sql, readOnly, maxRows) ==> v == TablesVerdict(sql, known))
  {
    FailuresHaveReasons(parsed, sql, readOnly, maxRows, known);
  }

  /** A statement the gate accepts names only known tables after FROM and every JOIN form. */
  lemma AcceptedReferencesAreKnown(parsed: ParseOutcome, sql: string, readOnly: bool, maxRows: int, known: set<string>, name: string)
    requires ValidateSpec(parsed, sql, readOnly, maxRows, known).ok
    requires name in TableRefs(sql)
    ensures name in known
  {
    var p :| 0 <= p < |TableRefs(sql)| && TableRefs(sql)[p] == name;
  }

  /** With read-only mode on, an accepted statement holds none of the forbidden keywords as a whole word. */
  lemma AcceptedIsReadOnly(parsed: ParseOutcome, sql: string, maxRows: int, known: set<string>, kw: string)
    requires ValidateSpec(parsed, sql, true, maxRows, known).ok
    requires kw in Forbidden
    ensures !ContainsWord(Upper(sql), kw)
  {
    var j :| 0 <= j < |Forbidden| && Forbidden[j] == kw;
  }

  // ---------------------------------------------------------------------
  // The scans of stages 2 and 4, as the loops of the source

  /** `_check_read_only`: tries the forbidden keywords in list order and stops at the first found. */
  method CheckReadOnly(sql: string, readOnly: bool) returns (v: Verdict)
    ensures v == ReadOnlyVerdict(sql, readOnly)
  {
    if !readOnly {
      return Pass;
    }
    var upper := Upper(sql);
    for j := 0 to |Forbidden|
      invariant forall q :: 0 <= q < j ==> !ContainsWord(upper, Forbidden[q])
    {
      if ContainsWord(upper, Forbidden[j]) {
        FirstWordUnique(upper, Forbidden, j);
        return Fail(ReadOnlyMessage(Forbidden[j]));
      }
    }
    return Pass;
  }

  /** Adding the next keyword phrase appends its captures, and the result is still a prefix of all references. */
  lemma KeywordStep(sql: string, kws: seq<seq<string>>, k: nat)
    requires k < |kws| && forall q :: 0 <= q < |kws| ==> |kws[q]| > 0
    ensures RefsForKeywords(sql, kws[..k + 1]) == RefsForKeywords(sql, kws[..k]) + RefsFrom(sql, kws[k], 0)
    ensures RefsForKeywords(sql, kws[..k + 1]) <= RefsForKeywords(sql, kws)
  {
    assert kws[..k + 1][..k] == kws[..k];
    RefsForKeywordsPrefix(sql, kws, k + 1);
  }

  /** The inner loop of `_check_tables_exist`: the first captured name that is not a known table. */
  method FirstUnknownName(names: seq<string>, known: set<string>) returns (r: Option<nat>)
    ensures r == FirstMissing(names, known)
  {
    for m := 0 to |names|
      invariant forall q :: 0 <= q < m ==> names[q] in known
    {
      if names[m] !in known {
        FirstMissingUnique(names, known, m);
        return Some(m);
      }
    }
    return None;
  }

  /**
   * The loops of `_check_tables_exist` over a list of keyword phrases: for
   * each phrase in order, each captured name in turn; the first unknown name
   * rejects.
   */
  method FindUnknownIn(sql: string, kws: seq<seq<string>>, known: set<string>) returns (missing: Option<string>)
    requires forall q :: 0 <= q < |kws| ==> |kws[q]| > 0
    ensures match FirstMissing(RefsForKeywords(sql, kws), known)
      case Some(p) => missing == Some(RefsForKeywords(sql, kws)[p])
      case None => missing == None
  {
    ghost var all := RefsForKeywords(sql, kws);
    ghost var done: seq<string> := [];
    for k := 0 to |kws|
      invariant done == RefsForKeywords(sql, kws[..k])
      invariant forall q :: 0 <= q < |done| ==> done[q] in known
    {
      var names := RefsFrom(sql, kws[k], 0);
      KeywordStep(sql, kws, k);
      var m := FirstUnknownName(names, known);
      if m.Some? {
        UnknownAt(all, done, names, m.value, known);
        return Some(names[m.value]);
      }
      AllKnownAppend(done, names, known);
      done := done + names;
    }
    assert kws[..|kws|] == kws;
    return None;
  }

  /** `_check_tables_exist`, with the source's keyword list. */
  method FindUnknownTable(sql: string, known: set<string>) returns (v: Verdict)
    ensures v == TablesVerdict(sql, known)
  {
    var missing := FindUnknownIn(sql, TableKeywords, known);
    if missing.Some? {
      return Fail("Unknown table: " + missing.value);
    }
    return Pass;
  }

  lemma AllKnownAppend(a: seq<string>, b: seq<string>, known: set<string>)
    requires forall q :: 0 <= q < |a| ==> a[q] in known
    requires forall q :: 0 <= q < |b| ==> b[q] in known
    ensures forall q :: 0 <= q < |a + b| ==> (a + b)[q] in known
  {
  }

  /** The first unknown name met in the loops is the one TablesVerdict reports. */
  lemma UnknownAt(all: seq<string>, done: seq<string>, names: seq<string>, m: nat, known: set<string>)
    requires done + names <= all
    requires m < |names| && names[m] !in known
    requires forall q :: 0 <= q < |done| ==> done[q] in known
    requires forall q :: 0 <= q < m ==> names[q] in known
    ensures FirstMissing(all, known) == Some(|done| + m) && all[|done| + m] == names[m]
  {
    assert all[|done| + m] == names[m];
    forall q | 0 <= q < |done| + m ensures all[q] in known {
      if q < |done| { assert all[q] == done[q]; } else { assert all[q] == names[q - |done|]; }
    }
    FirstMissingUnique(all, known, |done| + m);
  }

  // ---------------------------------------------------------------------
  // The validator object and its lazily extracted table set

  class SQLValidator {
    const readOnly: bool
    const maxRowsLimit: int
    /** `_schema_tables`: None until the table stage first needs it. */
    var schemaTables: Option<set<string>>
    /** How many schema extractions this instance has performed. */
    ghost var extractions: nat

    constructor (settings: Settings)
      ensures readOnly == settings.readOnly && maxRowsLimit == settings.maxRowsLimit
      ensures schemaTables == None && extractions == 0
    {
      readOnly := settings.readOnly;
      maxRowsLimit := settings.maxRowsLimit;
      schemaTables := None;
      extractions := 0;
    }

    /**
     * `_get_schema_tables`: extracts at most once per instance and keeps the
     * lower-cased names. `extracted` is the list of table names the schema
     * extractor reports for this connection.
     */
    method GetSchemaTables(extracted: seq<string>) returns (tables: set<string>)
      modifies this`schemaTables, this`extractions
      ensures old(schemaTables).Some? ==> tables == old(schemaTables).value && extractions == old(extractions)
      ensures old(schemaTables).None? ==> tables == LowerNames(extracted) && extractions == old(extractions) + 1
      ensures schemaTables == Some(tables)
    {
      if schemaTables.None? {
        schemaTables := Some(LowerNames(extracted));
        extractions := extractions + 1;
      }
      tables := schemaTables.value;
    }

    /**
     * Since the state (`t0`, `e0`): either the memo and the extraction count
     * are unchanged, or this was the instance's first extraction, of the
     * names `extracted`. Once a table set is memoised it never changes again.
     */
    ghost predicate MemoFrom(t0: Option<set<string>>, e0: nat, extracted: seq<string>)
      reads this
    {
      || (schemaTables == t0 && extractions == e0)
      || (t0.None? && schemaTables == Some(LowerNames(extracted)) && extractions == e0 + 1)
    }

    /** The table set the table stage would use now. */
    function TablesInUse(extracted: seq<string>): set<string>
      reads this
    {
      if schemaTables.Some? then schemaTables.value else LowerNames(extracted)
    }

    /**
     * `validate`: the verdict of the four stages. The schema is extracted only
     * when the first three stages pass and no table set is memoised yet, so a
     * statement rejected early never touches the database.
     */
    method Validate(sql: string, parse: string -> ParseOutcome, extracted: seq<string>) returns (ok: bool, error: string)
      modifies this`schemaTables, this`extractions
      ensures Verdict(ok, error) == ValidateSpec(parse(sql), sql, readOnly, maxRowsLimit, old(TablesInUse(extracted)))
      ensures ok <==> error == ""
      ensures !PassesSchemaFreeStages(parse(sql), sql, readOnly, maxRowsLimit) ==>
        schemaTables == old(schemaTables) && extractions == old(extractions)
      ensures PassesSchemaFreeStages(parse(sql), sql, readOnly, maxRowsLimit) ==>
        schemaTables == Some(old(TablesInUse(extracted)))
        && extractions == old(extractions) + (if old(schemaTables).None? then 1 else 0)
    {
      ValidateIsFirstFailure(parse(sql), sql, readOnly, maxRowsLimit, TablesInUse(extracted));
      var v := SyntaxVerdict(parse(sql));
      if !v.ok {
        return false, v.error;
      }
      v := CheckReadOnly(sql, readOnly);
      if !v.ok {
        return false, v.error;
      }
      v := RowLimitVerdict(sql, maxRowsLimit);
      if !v.ok {
        return false, v.error;
      }
      var tables := GetSchemaTables(extracted);
      v := FindUnknownTable(sql, tables);
      if !v.ok {
        return false, v.error;
      }
      return true, "";
    }
  }
}
