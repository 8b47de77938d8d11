/**
 * backend/execution/formatter.py: query rows become a table view (columns,
 * value rows, row count) with a one-sentence summary. The completion call
 * and Python's `str` of the column list and of the sample rows are
 * parameters; a completion that raises is an `Outcome.Raised`.
 */
module Formatter {
  import opened Base
  import opened TextUtil
  import opened Settings
  import opened Chat

  /** A result row: its column names and values, in the row's own key order. */
  type Row<V> = seq<(string, V)>

  datatype FormattedResult<V> = FormattedResult(columns: seq<string>, rows: seq<seq<V>>, rowCount: nat, summary: string)

  const NoRows: string := "No rows returned."
  const SampleLimit: nat := 20
  const PromptRowLimit: nat := 10

  /** "Returned <n> row(s)." */
  function RowCountText(n: int): (s: string)
    ensures EndsWith(s, ".") && '.' !in s[..|s| - 1]
  {
    var d := IntToString(n);
    var s := "Returned " + d + " row(s).";
    assert s[..|s| - 1] == "Returned " + d + " row(s)";
    s
  }

  function Keys<V>(row: Row<V>): (ks: seq<string>)
    ensures |ks| == |row| && forall k :: 0 <= k < |row| ==> ks[k] == row[k].0
  {
    seq(|row|, k requires 0 <= k < |row| => row[k].0)
  }

  function Values<V>(row: Row<V>): (vs: seq<V>)
    ensures |vs| == |row| && forall k :: 0 <= k < |row| ==> vs[k] == row[k].1
  {
    seq(|row|, k requires 0 <= k < |row| => row[k].1)
  }

  /** The text before the first "." of the stripped reply, itself stripped. */
  function FirstSentence(raw: string): (s: string)
    ensures '.' !in s && IsTrimmed(s)
    ensures '.' !in Strip(raw) ==> s == Strip(Strip(raw))
    ensures '.' in Strip(raw) ==> s == Strip(Strip(raw)[..IndexOf(Strip(raw), '.')])
  {
    var summary := Strip(raw);
    SplitFirst(summary, '.');
    var first := Split(summary, '.')[0];
    StripKeepsAbsent(first, '.');
    Strip(first)
  }

  /** The post-processing of a reply: its first sentence with a final ".", or the row-count text when that is empty. */
  function SummaryFromReply(raw: string, sampleSize: nat): (s: string)
    ensures FirstSentence(raw) != "" ==> s == FirstSentence(raw) + "."
    ensures FirstSentence(raw) == "" ==> s == RowCountText(sampleSize)
  {
    var first := FirstSentence(raw);
    if first != "" then (if EndsWith(first, ".") then first else first + ".") else RowCountText(sampleSize)
  }

  /** A summary ends with "." and holds no other ".". */
  lemma SummaryIsOneSentence(raw: string, sampleSize: nat)
    ensures EndsWith(SummaryFromReply(raw, sampleSize), ".")
    ensures var s := SummaryFromReply(raw, sampleSize); '.' !in s[..|s| - 1]
  {
    var first := FirstSentence(raw);
    if first != "" {
      var s := first + ".";
      assert s[..|s| - 1] == first;
    }
  }

  /** The instructions that close the summary prompt. */
  const SummaryInstructions: string :=
    "Reply with ONLY one short sentence. Do NOT list rows or repeat data. "
    + "Example: 'Returned 4 customers.' or 'Query returned 4 rows.'"

  /** The summary prompt: the question, the SQL, the columns and at most ten sample rows. */
  function SummaryPrompt(query: string, sql: string, columnsText: string, sampleText: string): string {
    "User asked: " + query + "\nSQL: " + sql + "\nColumns: " + columnsText + "\n"
    + "Sample rows (first 10 only): " + sampleText + "\n\n"
    + SummaryInstructions
  }

  /**
   * `_generate_summary`: the completion is asked with temperature 0.2 and at
   * most 80 tokens about the first ten sample rows; an exception gives the
   * row-count text for the sample.
   */
  function GenerateSummary<V>(
    query: string, sql: string, columns: seq<string>, sample: seq<seq<V>>, settings: Settings,
    complete: CompletionRequest -> Outcome<string>,
    namesText: seq<string> -> string, rowsText: seq<seq<V>> -> string): (s: string)
    ensures var req := CompletionRequest(
              [Message("user", SummaryPrompt(query, sql, namesText(columns), rowsText(Take(sample, PromptRowLimit))))],
              settings.llmModel, 0.2, Some(80));
            && (complete(req).Raised? ==> s == RowCountText(|sample|))
            && (complete(req).Ok? ==> s == SummaryFromReply(complete(req).value, |sample|))
    ensures EndsWith(s, ".") && '.' !in s[..|s| - 1]
  {
    var prompt := SummaryPrompt(query, sql, namesText(columns), rowsText(Take(sample, PromptRowLimit)));
    var req := CompletionRequest([Message("user", prompt)], settings.llmModel, 0.2, Some(80));
    SummaryIsOneSentence(if complete(req).Ok? then complete(req).value else "", |sample|);
    match complete(req)
    case Raised(_) => RowCountText(|sample|)
    case Ok(raw) => SummaryFromReply(raw, |sample|)
  }

  /** Python's `xs[:n]`. */
  function Take<T>(xs: seq<T>, n: nat): (r: seq<T>)
    ensures |r| == if |xs| <= n then |xs| else n
    ensures r == xs[..|r|]
  {
    if |xs| <= n then xs else xs[..n]
  }

  /**
   * `format`: no rows give the fixed empty result; otherwise the columns are
   * the first row's keys, every row becomes its values, and the summary is
   * generated from at most the first 20 rows when asked for, else it is the
   * row-count text.
   */
  function Format<V>(
    rows: seq<Row<V>>, sql: string, userQuery: string, includeSummary: bool, settings: Settings,
    complete: CompletionRequest -> Outcome<string>,
    namesText: seq<string> -> string, rowsText: seq<seq<V>> -> string): (r: FormattedResult<V>)
    ensures |rows| == 0 ==> r == FormattedResult([], [], 0, NoRows)
    ensures |rows| > 0 ==>
      && r.columns == Keys(rows[0])
      && r.rowCount == |rows| && |r.rows| == |rows|
      && (forall k :: 0 <= k < |rows| ==> r.rows[k] == Values(rows[k]))
      && (!includeSummary ==> r.summary == RowCountText(|rows|))
      && (includeSummary ==> r.summary == GenerateSummary(userQuery, sql, r.columns, Take(r.rows, SampleLimit), settings, complete, namesText, rowsText))
  {
    if |rows| == 0 then FormattedResult([], [], 0, NoRows)
    else
      var columns := Keys(rows[0]);
      var outRows := seq(|rows|, k requires 0 <= k < |rows| => Values(rows[k]));
      var summary := if includeSummary then GenerateSummary(userQuery, sql, columns, Take(outRows, SampleLimit), settings, complete, namesText, rowsText) else "";
      FormattedResult(columns, outRows, |rows|, if summary != "" then summary else RowCountText(|rows|))
  }

  /** Every non-empty result's summary is one sentence: it ends with "." and holds no other ".". */
  lemma FormatSummaryIsOneSentence<V>(
    rows: seq<Row<V>>, sql: string, userQuery: string, includeSummary: bool, settings: Settings,
    complete: CompletionRequest -> Outcome<string>,
    namesText: seq<string> -> string, rowsText: seq<seq<V>> -> string)
    requires |rows| > 0
    ensures var s := Format(rows, sql, userQuery, includeSummary, settings, complete, namesText, rowsText).summary;
      EndsWith(s, ".") && '.' !in s[..|s| - 1]
  {
    var r := Format(rows, sql, userQuery, includeSummary, settings, complete, namesText, rowsText);
    if includeSummary {
      var _ := GenerateSummary(userQuery, sql, r.columns, Take(r.rows, SampleLimit), settings, complete, namesText, rowsText);
    } else {
      var _ := RowCountText(|rows|);
    }
  }

  /** When the completion raises, the summary counts the sample, so it never reports more than 20 rows. */
  lemma FormatSummaryOnFailure<V>(
    rows: seq<Row<V>>, sql: string, userQuery: string, settings: Settings,
    complete: CompletionRequest -> Outcome<string>,
    namesText: seq<string> -> string, rowsText: seq<seq<V>> -> string)
    requires |rows| > 0 && forall req :: complete(req).Raised?
    ensures Format(rows, sql, userQuery, true, settings, complete, namesText, rowsText).summary
      == RowCountText(if |rows| <= SampleLimit then |rows| else SampleLimit)
  {
    var r := Format(rows, sql, userQuery, true, settings, complete, namesText, rowsText);
    SummaryOnFailure(userQuery, sql, r.columns, Take(r.rows, SampleLimit), settings, complete, namesText, rowsText);
  }

  /** A completion that always raises gives the row-count text of the sample. */
  lemma SummaryOnFailure<V>(
    query: string, sql: string, columns: seq<string>, sample: seq<seq<V>>, settings: Settings,
    complete: CompletionRequest -> Outcome<string>,
    namesText: seq<string> -> string, rowsText: seq<seq<V>> -> string)
    requires forall req :: complete(req).Raised?
    ensures GenerateSummary(query, sql, columns, sample, settings, complete, namesText, rowsText) == RowCountText(|sample|)
  {
    var req := CompletionRequest(
      [Message("user", SummaryPrompt(query, sql, namesText(columns), rowsText(Take(sample, PromptRowLimit))))],
      settings.llmModel, 0.2, Some(80));
    assert complete(req).Raised?;
  }
}
