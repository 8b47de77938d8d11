/**
 * backend/sql_generation/pipeline.py: a question becomes one validated SQL
 * statement (understand, retrieve schema context, generate, add a LIMIT when
 * one is missing, validate), or, when the question asks for every table
 * separately, one capped SELECT per table. The language model, the embedder,
 * the vector search, `sqlparse` and the database inspector are parameters.
 */
module SqlPipeline {
  import opened Base
  import opened TextUtil
  import opened Settings
  import opened Connection
  import opened Chat
  import opened Intent
  import opened SqlScan
  import opened Validator
  import opened Generator
  import opened VectorStore
  import opened Retriever
  import opened Extractor
  import opened Cache

  // ---------------------------------------------------------------------
  // Does the question ask for each table on its own?

  /** One of the phrases that ask for separate results or for no joins. */
  predicate AsksNoJoins(q: string) {
    AsksSeparately(q) || RefusesJoins(q)
  }

  predicate AsksSeparately(q: string) {
    Contains(q, "separately") || Contains(q, "each table") || Contains(q, "per table")
  }

  predicate RefusesJoins(q: string) {
    Contains(q, "no join") || Contains(q, "without join") || Contains(q, "don't use join") || Contains(q, "dont use join")
  }

  /** One of the phrases that name all the tables. */
  predicate NamesAllTables(q: string) {
    Contains(q, "all table") || Contains(q, "list table") || Contains(q, "every table") || Contains(q, "each table")
  }

  /**
   * `_wants_tables_separately`, on the lower-cased, stripped question: the
   * separate-results and no-join phrases together make up the first half of
   * the test.
   */
  function WantsTablesSeparately(userQuery: string): bool {
    var q := Strip(Lower(userQuery));
    q != "" && AsksNoJoins(q) && (NamesAllTables(q) || Contains(q, "table"))
  }

  /** A question of whitespace only never asks for the fan-out. */
  lemma BlankQuestionNoFanOut(userQuery: string)
    requires forall i :: 0 <= i < |userQuery| ==> IsSpace(userQuery[i])
    ensures !WantsTablesSeparately(userQuery)
  {
    var l := Lower(userQuery);
    assert Strip(l) == RStrip([]);
  }

  /** A text that holds a phrase ending in "table" holds "table". */
  lemma PhraseHoldsTable(s: string, phrase: string)
    requires |phrase| >= 5 && phrase[|phrase| - 5..] == "table"
    ensures Contains(s, phrase) ==> Contains(s, "table")
  {
    if Contains(s, phrase) {
      var i :| 0 <= i <= |s| - |phrase| && OccursAt(s, phrase, i);
      var j := |phrase| - 5;
      assert phrase[j..j + 5] == "table";
      OccursInSlice(s, i, i + |phrase|, "table", j);
      ContainsAt(s, "table", i + j);
    }
  }

  /** Every "all tables" phrase holds the word "table". */
  lemma {:induction false} AllTablesHoldsTable(q: string)
    ensures NamesAllTables(q) ==> Contains(q, "table")
  {
    PhraseHoldsTable(q, "all table");
    PhraseHoldsTable(q, "list table");
    PhraseHoldsTable(q, "every table");
    PhraseHoldsTable(q, "each table");
  }

  /** Stripping the question changes none of the no-join phrases' presence. */
  lemma AsksNoJoinsStrip(l: string)
    ensures AsksNoJoins(Strip(l)) <==> AsksNoJoins(l)
  {
    AsksSeparatelyStrip(l);
    RefusesJoinsStrip(l);
  }

  lemma {:induction false} AsksSeparatelyStrip(l: string)
    ensures AsksSeparately(Strip(l)) <==> AsksSeparately(l)
  {
    ContainsStrip(l, "separately");
    ContainsStrip(l, "each table");
    ContainsStrip(l, "per table");
  }

  lemma {:induction false} RefusesJoinsStrip(l: string)
    ensures RefusesJoins(Strip(l)) <==> RefusesJoins(l)
  {
    ContainsStrip(l, "no join");
    ContainsStrip(l, "without join");
    ContainsStrip(l, "don't use join");
    ContainsStrip(l, "dont use join");
  }

  /**
   * The fan-out is asked for exactly when the lower-cased question holds the
   * word "table" and one of the no-join phrases; surrounding whitespace and
   * the "all tables" phrases change nothing.
   */
  lemma WantsTablesSeparatelyIff(userQuery: string)
    ensures WantsTablesSeparately(userQuery) <==> Contains(Lower(userQuery), "table") && AsksNoJoins(Lower(userQuery))
  {
    var l := Lower(userQuery);
    var q := Strip(l);
    ContainsStrip(l, "table");
    AsksNoJoinsStrip(l);
    AllTablesHoldsTable(q);
  }

  // ---------------------------------------------------------------------
  // The LIMIT the pipeline adds

  function LimitClause(n: int): string {
    " LIMIT " + IntToString(n)
  }

  /** A limit is configured, and the statement is a SELECT whose upper-cased text has no "LIMIT" yet. */
  predicate NeedsLimit(sql: string, maxRows: int) {
    maxRows != 0 && !Contains(Upper(sql), "LIMIT") && Contains(Upper(sql), "SELECT")
  }

  /**
   * The statement after LIMIT enforcement: the clause goes after the
   * right-stripped text, or before a final ";" when there is one.
   */
  function WithLimit(sql: string, maxRows: int): string {
    if NeedsLimit(sql, maxRows) then
      var t := RStrip(sql);
      if !EndsWith(RStrip(t), ";") then t + LimitClause(maxRows)
      else RStrip(t[..|t| - 1]) + LimitClause(maxRows) + ";"
    else sql
  }

  lemma RStripTwice(s: string)
    ensures RStrip(RStrip(s)) == RStrip(s)
  {
  }

  /** Upper-casing a prefix of a text in which a needle never occurs upper-cased keeps it absent. */
  lemma UpperPrefixLacks(s: string, p: string, n: string)
    requires StartsWith(s, p) && !Contains(Upper(s), n)
    ensures !Contains(Upper(p), n)
  {
    var m := |p|;
    assert s[..m] == p;
    forall i | 0 <= i <= m - |n|
      ensures !OccursAt(Upper(p), n, i)
    {
      assert !OccursAt(Upper(s), n, i);
      assert Upper(p)[i..i + |n|] == Upper(s)[i..i + |n|];
    }
  }

  /** The text kept before the LIMIT clause, and the optional ";" that follows it. */
  lemma LimitedParts(sql: string, maxRows: int) returns (p: string, e: string)
    requires NeedsLimit(sql, maxRows)
    ensures WithLimit(sql, maxRows) == p + LimitClause(maxRows) + e
    ensures StartsWith(sql, p) && !Contains(Upper(p), "LIMIT")
    ensures forall i :: |p| <= i < |sql| ==> IsSpace(sql[i]) || sql[i] == ';'
    ensures e == "" || e == ";"
    ensures p == [] || !IsSpace(p[|p| - 1])
  {
    p, e := LimitedSplit(sql, maxRows);
    UpperPrefixLacks(sql, p, "LIMIT");
  }

  /** The two cases of the enforcement: no final ";", or a final ";" that is put back after the clause. */
  lemma LimitedSplit(sql: string, maxRows: int) returns (p: string, e: string)
    requires NeedsLimit(sql, maxRows)
    ensures WithLimit(sql, maxRows) == p + LimitClause(maxRows) + e
    ensures StartsWith(sql, p)
    ensures forall i :: |p| <= i < |sql| ==> IsSpace(sql[i]) || sql[i] == ';'
    ensures e == "" || e == ";"
    ensures p == [] || !IsSpace(p[|p| - 1])
  {
    RStripTwice(sql);
    if !EndsWith(RStrip(sql), ";") {
      p, e := RStrip(sql), "";
      NoSemicolonSplit(sql, maxRows);
    } else {
      p := KeptBeforeSemicolon(sql);
      e := ";";
      SemicolonSplit(sql, maxRows, p);
    }
  }

  lemma NoSemicolonSplit(sql: string, maxRows: int)
    requires NeedsLimit(sql, maxRows) && !EndsWith(RStrip(sql), ";")
    ensures WithLimit(sql, maxRows) == RStrip(sql) + LimitClause(maxRows)
  {
    RStripTwice(sql);
  }

  lemma SemicolonSplit(sql: string, maxRows: int, p: string)
    requires NeedsLimit(sql, maxRows) && EndsWith(RStrip(sql), ";")
    requires p == RStrip(RStrip(sql)[..|RStrip(sql)| - 1])
    ensures WithLimit(sql, maxRows) == p + LimitClause(maxRows) + ";"
  {
    RStripTwice(sql);
  }

  /** Before a final ";", the kept text is the right-stripped text without the ";", stripped again. */
  lemma KeptBeforeSemicolon(sql: string) returns (p: string)
    requires EndsWith(RStrip(sql), ";")
    ensures p == RStrip(RStrip(sql)[..|RStrip(sql)| - 1])
    ensures |p| <= |sql| && sql[..|p|] == p
    ensures forall i :: |p| <= i < |sql| ==> IsSpace(sql[i]) || sql[i] == ';'
  {
    var t := RStrip(sql);
    var u := t[..|t| - 1];
    p := RStrip(u);
    assert p == u[..|p|] && u == sql[..|u|];
    forall i | |p| <= i < |sql|
      ensures IsSpace(sql[i]) || sql[i] == ';'
    {
      if i < |u| {
        assert sql[i] == u[i];
      } else if i == |u| {
        assert sql[i] == t[|t| - 1] == ';';
      }
    }
  }

  /**
   * LIMIT enforcement only appends: the statement keeps a prefix of its text
   * that drops trailing whitespace and at most a final ";", then gets the
   * clause, then the ";" back when there was one.
   */
  lemma WithLimitKeepsStatement(sql: string, maxRows: int)
    requires NeedsLimit(sql, maxRows)
    ensures exists p :: (
      && StartsWith(sql, p)
      && (forall i :: |p| <= i < |sql| ==> IsSpace(sql[i]) || sql[i] == ';')
      && (WithLimit(sql, maxRows) == p + LimitClause(maxRows) || WithLimit(sql, maxRows) == p + LimitClause(maxRows) + ";"))
  {
    var p, e := LimitedParts(sql, maxRows);
    assert p + LimitClause(maxRows) + "" == p + LimitClause(maxRows);
  }

  /** The upper-cased text of a statement with a LIMIT clause holds "LIMIT". */
  lemma ClauseHasLimit(p: string, n: int, e: string)
    ensures Contains(Upper(p + LimitClause(n) + e), "LIMIT")
  {
    var s := p + LimitClause(n) + e;
    assert s[|p| + 1..|p| + 6] == "LIMIT";
    UpperSlice(s, |p| + 1, |p| + 6);
    assert Upper(s)[|p| + 1..|p| + 6] == "LIMIT";
    ContainsAt(Upper(s), "LIMIT", |p| + 1);
  }

  /** Enforcing the limit twice is enforcing it once. */
  lemma WithLimitIdempotent(sql: string, maxRows: int)
    ensures WithLimit(WithLimit(sql, maxRows), maxRows) == WithLimit(sql, maxRows)
  {
    if NeedsLimit(sql, maxRows) {
      var p, e := LimitedParts(sql, maxRows);
      ClauseHasLimit(p, maxRows, e);
    }
  }

  /** No `LIMIT <digits>` match starts inside the kept text or on the space before the clause. */
  lemma NoLimitBefore(p: string, d: string, e: string, q: nat)
    requires !Contains(Upper(p), "LIMIT") && q <= |p|
    ensures q <= |p + " LIMIT " + d + e| && LimitAt(p + " LIMIT " + d + e, q).None?
  {
    var s := p + " LIMIT " + d + e;
    if q + 5 <= |s| {
      if q + 5 <= |p| {
        assert !OccursAt(Upper(p), "LIMIT", q);
        assert s[q..q + 5] == p[q..q + 5];
        UpperSlice(p, q, q + 5);
      } else {
        assert s[|p|] == ' ';
        assert Upper(s[q..q + 5])[|p| - q] == ' ';
      }
    }
  }

  /** The pattern matches at the clause and captures the appended digits. */
  lemma ClauseMatches(p: string, d: string, e: string)
    requires |d| > 0 && AllDigits(d)
    requires e == [] || !IsDigit(e[0])
    ensures |p| + 1 <= |p + " LIMIT " + d + e|
    ensures LimitAt(p + " LIMIT " + d + e, |p| + 1) == Some(DigitsValue(d))
  {
    var s := p + " LIMIT " + d + e;
    var i0 := |p| + 1;
    assert s[i0 - 1] == ' ' && s[i0 + 5] == ' ';
    assert s[i0..i0 + 5] == "LIMIT";
    assert s[i0 + 6..] == d + e;
    MatchAt(s, i0, d, e);
  }

  /** `\bLIMIT\s+(\d+)` at i0, for "LIMIT", one space and the digits d up to a non-digit or the end. */
  lemma MatchAt(s: string, i0: nat, d: string, e: string)
    requires 0 < i0 && i0 + 6 <= |s| && |d| > 0 && AllDigits(d) && (e == [] || !IsDigit(e[0]))
    requires s[i0 - 1] == ' ' && s[i0..i0 + 5] == "LIMIT" && s[i0 + 5] == ' ' && s[i0 + 6..] == d + e
    ensures LimitAt(s, i0) == Some(DigitsValue(d))
  {
    var j := i0 + 6;
    LimitWordAt(s, i0);
    assert s[j] == s[j..][0] == d[0];
    OneSpace(s, i0 + 5);
    DigitsAt(s, j, d, e);
    LimitAtRuns(s, i0, j, j + |d|, d);
  }

  /** The pattern at i: the word, then the whitespace run up to j, then the digit run up to k, which spells `digits`. */
  lemma LimitAtRuns(s: string, i: nat, j: nat, k: nat, digits: string)
    requires i + 5 <= |s| && BoundaryAt(s, i) && Upper(s[i..i + 5]) == "LIMIT"
    requires j == SpaceRunEnd(s, i + 5) && j <= |s| && k == DigitRunEnd(s, j)
    requires j > i + 5 && k > j && s[j..k] == digits
    ensures LimitAt(s, i) == Some(DigitsValue(digits))
  {
  }

  /** The word "LIMIT" after a space starts at a word boundary and reads "LIMIT" upper-cased. */
  lemma LimitWordAt(s: string, i0: nat)
    requires 0 < i0 && i0 + 5 <= |s| && s[i0 - 1] == ' ' && s[i0..i0 + 5] == "LIMIT"
    ensures BoundaryAt(s, i0) && Upper(s[i0..i0 + 5]) == "LIMIT"
  {
    assert s[i0] == s[i0..i0 + 5][0] == 'L';
  }

  /** A single space followed by a non-space ends the whitespace run after one character. */
  lemma OneSpace(s: string, i: nat)
    requires i + 1 < |s| && s[i] == ' ' && !IsSpace(s[i + 1])
    ensures SpaceRunEnd(s, i) == i + 1
  {
  }

  lemma DigitsAt(s: string, j: nat, d: string, e: string)
    requires |d| > 0 && AllDigits(d) && (e == [] || !IsDigit(e[0]))
    requires j + |d| + |e| == |s| && s[j..] == d + e
    ensures DigitRunEnd(s, j) == j + |d| && s[j..j + |d|] == d
  {
    assert s[j..j + |d|] == (d + e)[..|d|] == d;
    forall k | j <= k < j + |d|
      ensures IsDigit(s[k])
    {
      assert s[k] == s[j..][k - j] == d[k - j];
    }
    if j + |d| < |s| {
      assert s[j + |d|] == s[j..][|d|] == e[0];
    }
  }

  /** The leftmost match is the first position where the pattern matches. */
  lemma FirstMatchAt(s: string, i0: nat)
    requires i0 <= |s| && LimitAt(s, i0).Some?
    requires forall q :: 0 <= q < i0 ==> LimitAt(s, q).None?
    ensures FirstLimit(s) == LimitAt(s, i0)
  {
    var r := FirstLimitFrom(s, 0);
    assert r.Some?;
    assert r.value == i0;
  }

  /**
   * The first `LIMIT <digits>` match of a statement whose kept text has no
   * "LIMIT" is the appended clause, and it reads back the appended number.
   */
  lemma LimitReadAt(p: string, d: string, e: string)
    requires !Contains(Upper(p), "LIMIT")
    requires |d| > 0 && AllDigits(d)
    requires e == [] || !IsDigit(e[0])
    ensures FirstLimit(p + " LIMIT " + d + e) == Some(DigitsValue(d))
  {
    var s := p + " LIMIT " + d + e;
    ClauseMatches(p, d, e);
    forall q | 0 <= q < |p| + 1
      ensures LimitAt(s, q).None?
    {
      NoLimitBefore(p, d, e, q);
    }
    FirstMatchAt(s, |p| + 1);
  }

  /** A statement with the clause for a positive limit spells " LIMIT " and digits that read back the limit. */
  lemma PositiveLimitClause(p: string, n: int, e: string) returns (d: string)
    requires n > 0
    ensures p + LimitClause(n) + e == p + " LIMIT " + d + e
    ensures |d| > 0 && AllDigits(d) && DigitsValue(d) == n
  {
    d := NatToString(n);
    DigitsValueOfNatToString(n);
    var c := " LIMIT " + d;
    assert LimitClause(n) == c;
    assert p + c + e == p + " LIMIT " + d + e;
  }

  /** The first `LIMIT <digits>` match of a limited statement reads back the positive limit. */
  lemma InjectedLimitRead(sql: string, maxRows: int)
    requires maxRows > 0 && NeedsLimit(sql, maxRows)
    ensures FirstLimit(WithLimit(sql, maxRows)) == Some(maxRows)
  {
    var p, e := LimitedParts(sql, maxRows);
    var d := PositiveLimitClause(p, maxRows, e);
    assert e == [] || !IsDigit(e[0]);
    LimitReadAt(p, d, e);
  }

  /**
   * For a positive limit, the clause the pipeline adds is the LIMIT the
   * validator's row-limit stage reads, so that stage passes.
   */
  lemma InjectedLimitPassesRowLimit(sql: string, maxRows: int)
    requires maxRows > 0 && NeedsLimit(sql, maxRows)
    ensures FirstLimit(WithLimit(sql, maxRows)) == Some(maxRows)
    ensures RowLimitVerdict(WithLimit(sql, maxRows), maxRows).ok
  {
    InjectedLimitRead(sql, maxRows);
  }

  // ---------------------------------------------------------------------
  // The context preview and the result

  const PreviewLimit: nat := 500

  /** `context_used`: the first 500 characters and "..." when the context is longer. */
  function Preview(ctx: string): (p: string)
    ensures |ctx| <= PreviewLimit ==> p == ctx
    ensures |ctx| > PreviewLimit ==> |p| == PreviewLimit + 3 && StartsWith(p, ctx[..PreviewLimit]) && EndsWith(p, "...")
  {
    if |ctx| > PreviewLimit then ctx[..PreviewLimit] + "..." else ctx
  }

  /** The three fields of the intent the result reports. */
  datatype IntentView = IntentView(intent: string, entities: seq<string>, summary: string)

  function ViewOf(i: QueryIntent): IntentView {
    IntentView(i.intent, i.entities, i.summary)
  }

  /** `{sql, valid, error, sql_list?, intent, context_used}`. */
  datatype RunResult = RunResult(
    sql: string,
    valid: bool,
    error: string,
    sqlList: Option<seq<string>>,
    intent: IntentView,
    contextUsed: string)

  /** The fan-out result: the statements joined for display, reported valid, with no context. */
  function FanOutResult(list: seq<string>, intent: QueryIntent): RunResult {
    RunResult(Join(list, ";\n\n"), true, "", Some(list), ViewOf(intent), "")
  }

  /**
   * The single-statement result for a retrieved context: the generated
   * statement with its LIMIT enforced, the validator's verdict on it, and
   * the context preview.
   */
  function Answered(userQuery: string, intent: QueryIntent, ctx: string, settings: Settings,
                    complete: CompletionRequest -> string, parse: string -> ParseOutcome,
                    readOnly: bool, maxRows: int, known: set<string>): (r: RunResult)
    ensures r.sql == WithLimit(Generate(userQuery, ctx, settings, complete), settings.maxRowsLimit)
    ensures r.valid <==> r.error == ""
    ensures Verdict(r.valid, r.error) == ValidateSpec(parse(r.sql), r.sql, readOnly, maxRows, known)
    ensures r.sqlList.None? && r.intent == ViewOf(intent) && |r.contextUsed| <= PreviewLimit + 3
  {
    var sql := WithLimit(Generate(userQuery, ctx, settings, complete), settings.maxRowsLimit);
    ValidateIsFirstFailure(parse(sql), sql, readOnly, maxRows, known);
    var v := ValidateSpec(parse(sql), sql, readOnly, maxRows, known);
    RunResult(sql, v.ok, v.error, None, ViewOf(intent), Preview(ctx))
  }

  /**
   * With a positive limit the generated statement never fails at the row
   * limit stage when the limit was added by the pipeline: a rejection is then
   * for syntax, a write keyword or an unknown table.
   */
  lemma AnsweredNotOverLimit(userQuery: string, intent: QueryIntent, ctx: string, settings: Settings,
                             complete: CompletionRequest -> string, parse: string -> ParseOutcome,
                             readOnly: bool, known: set<string>)
    requires settings.maxRowsLimit > 0
    requires NeedsLimit(Generate(userQuery, ctx, settings, complete), settings.maxRowsLimit)
    ensures var r := Answered(userQuery, intent, ctx, settings, complete, parse, readOnly, settings.maxRowsLimit, known);
      RowLimitVerdict(r.sql, settings.maxRowsLimit).ok
      && (!r.valid ==> !SyntaxVerdict(parse(r.sql)).ok || !ReadOnlyVerdict(r.sql, readOnly).ok || !TablesVerdict(r.sql, known).ok)
  {
    var sql := Generate(userQuery, ctx, settings, complete);
    InjectedLimitPassesRowLimit(sql, settings.maxRowsLimit);
    var r := Answered(userQuery, intent, ctx, settings, complete, parse, readOnly, settings.maxRowsLimit, known);
    ValidateIsFirstFailure(parse(r.sql), r.sql, readOnly, settings.maxRowsLimit, known);
  }

  // ---------------------------------------------------------------------
  // One SELECT per table

  const FallbackLimit: int := 1000

  /** `max_rows_limit or 1000`. */
  function FanOutLimit(maxRows: int): (n: int)
    ensures n != 0
    ensures maxRows != 0 ==> n == maxRows
  {
    if maxRows != 0 then maxRows else FallbackLimit
  }

  function SelectFor(name: string, databaseType: string, limit: int): string {
    "SELECT * FROM " + QuoteTable(name, databaseType) + " LIMIT " + IntToString(limit)
  }

  /** One capped SELECT per name, in order. */
  function SelectsFor(names: seq<string>, databaseType: string, limit: int): seq<string> {
    MapSeq(names, name => SelectFor(name, databaseType, limit))
  }

  lemma SelectsForSnoc(names: seq<string>, databaseType: string, limit: int, k: nat)
    requires k < |names|
    ensures SelectsFor(names[..k + 1], databaseType, limit) == SelectsFor(names[..k], databaseType, limit) + [SelectFor(names[k], databaseType, limit)]
  {
    assert names[..k + 1][..k] == names[..k];
  }

  /** The fan-out has one statement per name, the k-th for the k-th name. */
  lemma SelectsForIndex(names: seq<string>, databaseType: string, limit: int)
    ensures |SelectsFor(names, databaseType, limit)| == |names|
    ensures forall k :: 0 <= k < |names| ==> SelectsFor(names, databaseType, limit)[k] == SelectFor(names[k], databaseType, limit)
  {
    MapSeqIndex(names, name => SelectFor(name, databaseType, limit));
  }

  /**
   * The table names of the fan-out: a non-empty list of names from the
   * cache, or else the names of the extracted schema.
   */
  function FanOutNames(cached: Option<Json>, extracted: seq<string>): (names: seq<string>)
    ensures names == extracted || (names != [] && cached.Some? && TableNamesOf(cached.value) == Some(names))
    ensures (cached.None? || TableNamesOf(cached.value).None?) ==> names == extracted
  {
    if cached.Some? && TableNamesOf(cached.value).Some? && TableNamesOf(cached.value).value != [] then
      TableNamesOf(cached.value).value
    else extracted
  }

  /** A table list written to the cache by `schema_tables_set` is the one the fan-out uses. */
  lemma FanOutUsesCachedList(names: seq<string>, extracted: seq<string>)
    requires names != []
    ensures FanOutNames(Some(JList(Strings(names))), extracted) == names
  {
    TableNamesRoundTrip(names);
  }

  /** A word of the prefix "SELECT * FROM " never reads as an "I". */
  lemma SelectPrefixHasNoI()
    ensures 'I' !in "SELECT * FROM " && 'i' !in "SELECT * FROM "
  {
  }

  /** The quoted fan-out target holds no "LIMIT" when the table name holds none, whatever its case. */
  lemma SelectHeadLacksLimit(name: string, databaseType: string)
    requires !Contains(Upper(name), "LIMIT")
    ensures !Contains(Upper("SELECT * FROM " + QuoteTable(name, databaseType)), "LIMIT")
  {
    var u := Upper("SELECT * FROM " + QuoteTable(name, databaseType));
    forall i | 0 <= i <= |u| - 5
      ensures !OccursAt(u, "LIMIT", i)
    {
      SelectHeadWindow(name, databaseType, i);
    }
  }

  /** A window that differs from the needle at one position is not an occurrence. */
  lemma MismatchAt(u: string, n: string, i: int, j: int)
    requires 0 <= i <= j < i + |n| <= |u| && u[j] != n[j - i]
    ensures !OccursAt(u, n, i)
  {
    assert u[i..i + |n|][j - i] == u[j];
  }

  /** No five-character window of the upper-cased fan-out target reads "LIMIT". */
  lemma SelectHeadWindow(name: string, databaseType: string, i: int)
    requires !Contains(Upper(name), "LIMIT")
    requires 0 <= i <= |name| + 11
    ensures !OccursAt(Upper("SELECT * FROM " + QuoteTable(name, databaseType)), "LIMIT", i)
  {
    var head := "SELECT * FROM ";
    var quoted := QuoteTable(name, databaseType);
    var p := head + quoted;
    var u := Upper(p);
    if i + 1 < |head| {
      SelectPrefixHasNoI();
      assert p[i + 1] == head[i + 1] && head[i + 1] in head;
      MismatchAt(u, "LIMIT", i, i + 1);
    } else if i + 1 == |head| {
      assert p[i + 1] == quoted[0];
      MismatchAt(u, "LIMIT", i, i + 1);
    } else if i == |head| {
      assert p[i] == quoted[0];
      MismatchAt(u, "LIMIT", i, i);
    } else {
      QuotedNameWindow(head, name, databaseType, i);
    }
  }

  /** A window that starts inside the quoted name lies in the name or reaches the closing quote. */
  lemma QuotedNameWindow(head: string, name: string, databaseType: string, i: int)
    requires !Contains(Upper(name), "LIMIT")
    requires |head| < i <= |head| + |name| + 2 - 5
    ensures !OccursAt(Upper(head + QuoteTable(name, databaseType)), "LIMIT", i)
  {
    if i + 5 <= |head| + 1 + |name| {
      WindowInsideName(head, name, databaseType, i);
    } else {
      WindowAtClosingQuote(head, name, databaseType, i);
    }
  }

  /** A window that lies inside the name reads what the name reads there. */
  lemma WindowInsideName(head: string, name: string, databaseType: string, i: int)
    requires !Contains(Upper(name), "LIMIT")
    requires |head| < i && i + 5 <= |head| + 1 + |name|
    ensures !OccursAt(Upper(head + QuoteTable(name, databaseType)), "LIMIT", i)
  {
    var q := QuoteTable(name, databaseType);
    var p := head + q;
    var k := i - |head| - 1;
    forall j | i <= j < i + 5
      ensures p[j] == name[j - |head| - 1]
    {
      assert p[j] == q[j - |head|];
      assert q[1..|q| - 1][j - |head| - 1] == q[j - |head|];
    }
    assert p[i..i + 5] == name[k..k + 5];
    UpperSlice(p, i, i + 5);
    UpperSlice(name, k, k + 5);
    assert !OccursAt(Upper(name), "LIMIT", k);
  }

  /** A window that reaches the closing quote cannot read "LIMIT". */
  lemma WindowAtClosingQuote(head: string, name: string, databaseType: string, i: int)
    requires |head| < i <= |head| + |name| + 2 - 5 && |head| + 1 + |name| < i + 5
    ensures !OccursAt(Upper(head + QuoteTable(name, databaseType)), "LIMIT", i)
  {
    var quoted := QuoteTable(name, databaseType);
    var p := head + quoted;
    var c := |p| - 1;
    assert p[c] == quoted[|quoted| - 1];
    MismatchAt(Upper(p), "LIMIT", i, c);
  }

  /**
   * Each fan-out statement with a positive limit carries exactly that limit
   * for the row-limit stage, as long as the table name does not itself hold
   * "LIMIT".
   */
  lemma FanOutStatementLimit(name: string, databaseType: string, limit: int)
    requires limit > 0 && !Contains(Upper(name), "LIMIT")
    ensures FirstLimit(SelectFor(name, databaseType, limit)) == Some(limit)
    ensures RowLimitVerdict(SelectFor(name, databaseType, limit), limit).ok
  {
    var p := "SELECT * FROM " + QuoteTable(name, databaseType);
    var d := NatToString(limit);
    SelectHeadLacksLimit(name, databaseType);
    assert SelectFor(name, databaseType, limit) == p + " LIMIT " + d + "";
    LimitReadAt(p, d, "");
    DigitsValueOfNatToString(limit);
  }

  // ---------------------------------------------------------------------
  // The pipeline object

  /** What `schema_tables_get` returns for `key` in the cache's current state. */
  function CachedTables(cache: CacheState, key: string): Option<Json>
    reads cache, cache.server
  {
    if cache.client.Some? && cache.server.up && SchemaTablesKey(key) in cache.server.entries
    then Some(cache.server.entries[SchemaTablesKey(key)])
    else None
  }

  class SQLGenerationPipeline {
    const conn: ConnectionConfig
    /** The connection's key, shared by the retriever's store and the table-list cache. */
    const key: string
    const settings: Settings
    const retriever: SchemaRetriever
    const validator: SQLValidator
    const cache: CacheState

    /**
     * The pipeline for the given connection (or the one built from the
     * settings): a retriever on that connection's store asking for ten
     * matches, and a validator that has not extracted the schema yet.
     */
    constructor (connection: Option<ConnectionConfig>, settings: Settings, registry: StoreRegistry,
                 cache: CacheState, sha256: string -> Sha256Hex)
      ensures conn == GetConnection(connection, settings) && key == ConnectionKey(conn, sha256)
      ensures this.settings == settings && this.cache == cache
      ensures retriever.store.registry == registry && retriever.store.key == StoreKey(Some(key)) && retriever.topK == 10
      ensures validator.readOnly == settings.readOnly && validator.maxRowsLimit == settings.maxRowsLimit
      ensures validator.schemaTables == None
    {
      conn := GetConnection(connection, settings);
      key := ConnectionKey(GetConnection(connection, settings), sha256);
      this.settings := settings;
      this.cache := cache;
      retriever := new SchemaRetriever(registry, Some(ConnectionKey(GetConnection(connection, settings), sha256)), 10);
      validator := new SQLValidator(settings);
    }

    /** The fan-out statements for the cache's current state. */
    function FanOut(extracted: seq<string>): seq<string>
      reads cache, cache.server
    {
      SelectsFor(FanOutNames(CachedTables(cache, key), extracted), conn.databaseType, FanOutLimit(settings.maxRowsLimit))
    }

    /** The table names of the fan-out: from the cache when it holds a non-empty list, else from a fresh extraction. */
    method FanOutTableNames(insp: Inspector, probe: string -> ProbeResult) returns (names: seq<string>)
      requires cache.Valid()
      modifies cache`client
      ensures cache.Valid() && cache.client == cache.NextClient(old(cache.client))
      ensures names == FanOutNames(CachedTables(cache, key), insp.tableNames)
    {
      var cached := cache.SchemaTablesGet(key);
      if cached.Some? && TableNamesOf(cached.value).Some? && TableNamesOf(cached.value).value != [] {
        names := TableNamesOf(cached.value).value;
      } else {
        var extractor := new SchemaExtractor(Some(conn), settings);
        var schema := extractor.Extract(insp, probe);
        names := TableNames(schema.tables);
        ExtractedNames(insp, probe, extractor.databaseType);
      }
    }

    /**
     * `_generate_separate_table_queries`: one SELECT per table name, capped
     * at the configured limit or 1000.
     */
    method SeparateTableQueries(insp: Inspector, probe: string -> ProbeResult) returns (out: seq<string>)
      requires cache.Valid()
      modifies cache`client
      ensures cache.Valid() && cache.client == cache.NextClient(old(cache.client))
      ensures out == FanOut(insp.tableNames)
    {
      var limit := if settings.maxRowsLimit != 0 then settings.maxRowsLimit else FallbackLimit;
      var names := FanOutTableNames(insp, probe);
      out := SelectPerTable(names, conn.databaseType, limit);
    }

    /**
     * What the single-statement path answers: an embedder that returns no
     * vector raises, a store query that raises is passed on, and otherwise
     * the statement generated for the retrieved context, with its LIMIT
     * enforced and the verdict for the tables `known` to the validator.
     */
    function SingleAnswer(userQuery: string, intent: QueryIntent, complete: CompletionRequest -> string,
                          embed: seq<string> -> seq<Vector>, search: (seq<Vector>, Vector, nat) -> seq<Hit>,
                          parse: string -> ParseOutcome, known: set<string>): (r: Outcome<RunResult>)
      reads retriever.store
      ensures r.Ok? ==> (r.value.valid <==> r.value.error == "") && |r.value.contextUsed| <= PreviewLimit + 3
      ensures r.Ok? ==> r.value.sqlList.None? && r.value.intent == ViewOf(intent)
    {
      var question := intent.summary + " " + userQuery;
      if |embed([question])| == 0 then Raised(IndexOutOfRange)
      else match retriever.store.Answer(embed([question])[0], retriever.topK, search)
        case Raised(e) => Raised(e)
        case Ok(ms) => Ok(Answered(userQuery, intent, ContextOf(Records(ms)), settings, complete, parse,
                                   validator.readOnly, validator.maxRowsLimit, known))
    }

    /**
     * The single-statement path of `run`: retrieve the context for the
     * intent summary and the question, generate, enforce the LIMIT and
     * validate. A retrieval that raises makes `run` raise.
     */
    method AnswerQuestion(userQuery: string, intent: QueryIntent, complete: CompletionRequest -> string,
                          embed: seq<string> -> seq<Vector>, search: (seq<Vector>, Vector, nat) -> seq<Hit>,
                          parse: string -> ParseOutcome, insp: Inspector)
      returns (r: Outcome<RunResult>)
      modifies validator`schemaTables, validator`extractions
      ensures r == SingleAnswer(userQuery, intent, complete, embed, search, parse, old(validator.TablesInUse(insp.tableNames)))
      ensures validator.MemoFrom(old(validator.schemaTables), old(validator.extractions), insp.tableNames)
    {
      var question := intent.summary + " " + userQuery;
      var context := retriever.ContextForPrompt(question, embed, search);
      if context.Raised? {
        return Raised(context.reason);
      }
      var ctx := context.value;
      var sql := Generate(userQuery, ctx, settings, complete);
      sql := EnforceLimit(sql, settings.maxRowsLimit);
      ghost var known := validator.TablesInUse(insp.tableNames);
      var valid, err := validator.Validate(sql, parse, insp.tableNames);
      r := Ok(RunResult(sql, valid, err, None, ViewOf(intent), Preview(ctx)));
      assert r.value == Answered(userQuery, intent, ctx, settings, complete, parse, validator.readOnly, validator.maxRowsLimit, known);
    }

    /**
     * What `run` answers for a question once its intent is known: the
     * fan-out, reported valid without validation and without context, when
     * the question asks for each table separately and the fan-out is not
     * empty; otherwise the single-statement answer for the tables `known` to
     * the validator.
     */
    predicate Answers(userQuery: string, intent: QueryIntent, fanOut: seq<string>, complete: CompletionRequest -> string,
                      embed: seq<string> -> seq<Vector>, search: (seq<Vector>, Vector, nat) -> seq<Hit>,
                      parse: string -> ParseOutcome, known: set<string>, r: Outcome<RunResult>)
      reads retriever.store
    {
      if WantsTablesSeparately(userQuery) && fanOut != [] then r == Ok(FanOutResult(fanOut, intent))
      else r == SingleAnswer(userQuery, intent, complete, embed, search, parse, known)
    }

    /**
     * Every answer of `run` reports `valid` exactly when its error is empty,
     * carries at most 503 characters of context, and lists statements only
     * when it is the fan-out.
     */
    lemma AnswerConsistent(userQuery: string, intent: QueryIntent, fanOut: seq<string>, complete: CompletionRequest -> string,
                           embed: seq<string> -> seq<Vector>, search: (seq<Vector>, Vector, nat) -> seq<Hit>,
                           parse: string -> ParseOutcome, known: set<string>, r: Outcome<RunResult>)
      requires Answers(userQuery, intent, fanOut, complete, embed, search, parse, known, r)
      ensures r.Ok? ==> (r.value.valid <==> r.value.error == "") && |r.value.contextUsed| <= PreviewLimit + 3
      ensures r.Ok? ==> r.value.intent == ViewOf(intent)
      ensures r.Ok? && r.value.sqlList.Some? ==> r.value.sqlList.value == fanOut && r.value.sql == Join(fanOut, ";\n\n")
    {
    }

    /**
     * The rest of `run` once the intent is known: a question that asks for
     * each table separately gets the fan-out when it is not empty, reported
     * valid without validation and without context; otherwise the
     * single-statement path answers.
     */
    method Respond(userQuery: string, intent: QueryIntent, complete: CompletionRequest -> string,
                   embed: seq<string> -> seq<Vector>, search: (seq<Vector>, Vector, nat) -> seq<Hit>,
                   parse: string -> ParseOutcome, insp: Inspector, probe: string -> ProbeResult)
      returns (r: Outcome<RunResult>)
      requires cache.Valid()
      modifies cache`client, validator`schemaTables, validator`extractions
      ensures cache.Valid()
      ensures cache.client == if WantsTablesSeparately(userQuery) then cache.NextClient(old(cache.client)) else old(cache.client)
      ensures Answers(userQuery, intent, FanOut(insp.tableNames), complete, embed, search, parse,
                      old(validator.TablesInUse(insp.tableNames)), r)
      ensures validator.MemoFrom(old(validator.schemaTables), old(validator.extractions), insp.tableNames)
      ensures WantsTablesSeparately(userQuery) && FanOut(insp.tableNames) != [] ==>
        validator.schemaTables == old(validator.schemaTables) && validator.extractions == old(validator.extractions)
    {
      var sqlList: seq<string> := [];
      if WantsTablesSeparately(userQuery) {
        sqlList := SeparateTableQueries(insp, probe);
      }
      if sqlList != [] {
        r := Ok(RunResult(Join(sqlList, ";\n\n"), true, "", Some(sqlList), ViewOf(intent), ""));
      } else {
        ghost var c0, e0, u0 := cache.client, cache.server.entries, cache.server.up;
        r := AnswerQuestion(userQuery, intent, complete, embed, search, parse, insp);
        assert cache.client == c0 && cache.server.entries == e0 && cache.server.up == u0;
      }
    }

    /**
     * `run`: the question's intent first, then the fan-out or the single
     * statement for it, as `Answers` describes; `AnswerConsistent` gives the
     * properties every such result has.
     */
    method Run(userQuery: string, complete: CompletionRequest -> string,
               embed: seq<string> -> seq<Vector>, search: (seq<Vector>, Vector, nat) -> seq<Hit>,
               parse: string -> ParseOutcome, insp: Inspector, probe: string -> ProbeResult)
      returns (r: Outcome<RunResult>)
      requires cache.Valid()
      modifies cache`client, validator`schemaTables, validator`extractions
      ensures cache.Valid()
      ensures cache.client == if WantsTablesSeparately(userQuery) then cache.NextClient(old(cache.client)) else old(cache.client)
      ensures Answers(userQuery, Understand(userQuery, settings, complete), FanOut(insp.tableNames), complete, embed, search, parse,
                      old(validator.TablesInUse(insp.tableNames)), r)
      ensures validator.MemoFrom(old(validator.schemaTables), old(validator.extractions), insp.tableNames)
      ensures WantsTablesSeparately(userQuery) && FanOut(insp.tableNames) != [] ==>
        validator.schemaTables == old(validator.schemaTables) && validator.extractions == old(validator.extractions)
    {
      var intent := Understand(userQuery, settings, complete);
      r := Respond(userQuery, intent, complete, embed, search, parse, insp, probe);
    }
  }

  /** The fan-out loop: one capped SELECT per name, in order. */
  method SelectPerTable(names: seq<string>, databaseType: string, limit: int) returns (out: seq<string>)
    ensures out == SelectsFor(names, databaseType, limit)
  {
    out := [];
    for k := 0 to |names|
      invariant out == SelectsFor(names[..k], databaseType, limit)
    {
      var s := SelectFor(names[k], databaseType, limit);
      SelectsForSnoc(names, databaseType, limit, k);
      out := out + [s];
    }
    assert names[..|names|] == names;
  }

  /** The LIMIT enforcement of `run`, step by step on the statement. */
  method EnforceLimit(sql: string, maxRows: int) returns (out: string)
    ensures out == WithLimit(sql, maxRows)
  {
    out := sql;
    if NeedsLimit(sql, maxRows) {
      var t := RStrip(sql);
      if !EndsWith(RStrip(t), ";") {
        out := t + LimitClause(maxRows);
      } else {
        out := RStrip(t[..|t| - 1]) + LimitClause(maxRows) + ";";
      }
    }
  }
}
