/**
 * backend/query_understanding/intent.py: the structured reading of a question
 * the language model is asked for, and the tolerant line parser that turns
 * the model's reply into a `QueryIntent`, filling in defaults and never
 * failing.
 */
module Intent {
  import opened Base
  import opened TextUtil
  import opened Settings
  import opened Chat

  datatype QueryIntent = QueryIntent(
    intent: string,
    entities: seq<string>,
    conditions: seq<string>,
    summary: string)

  /** The intent assumed when the reply gives none. */
  const DefaultIntent: string := "SELECT"

  lemma DefaultIntentTrimmed()
    ensures DefaultIntent != "" && IsTrimmed(DefaultIntent)
  {
    assert DefaultIntent[0] == 'S' && DefaultIntent[|DefaultIntent| - 1] == 'T';
  }

  /** What the parser returns when no line of the reply is recognised. */
  function Defaults(question: string): QueryIntent {
    QueryIntent(DefaultIntent, [], [], question)
  }

  const IntentLabel: string := "INTENT:"
  const EntitiesLabel: string := "ENTITIES:"
  const ConditionsLabel: string := "CONDITIONS:"
  const SummaryLabel: string := "SUMMARY:"

  /** The stripped line starts, case-insensitively, with `label`. */
  predicate Labelled(line: string, key: string) {
    StartsWith(Upper(Strip(line)), key)
  }

  predicate Recognised(line: string) {
    Labelled(line, IntentLabel) || Labelled(line, EntitiesLabel)
    || Labelled(line, ConditionsLabel) || Labelled(line, SummaryLabel)
  }

  /** A label ends in its only colon. */
  predicate KeyShape(key: string) {
    |key| > 0 && key[|key| - 1] == ':' && ':' !in key[..|key| - 1]
  }

  lemma LabelsHaveKeyShape()
    ensures KeyShape(IntentLabel) && KeyShape(EntitiesLabel) && KeyShape(ConditionsLabel) && KeyShape(SummaryLabel)
  {
    assert IntentLabel[..6] == "INTENT";
    assert EntitiesLabel[..8] == "ENTITIES";
    assert ConditionsLabel[..10] == "CONDITIONS";
    assert SummaryLabel[..7] == "SUMMARY";
  }

  /** `line.split(":", 1)[1]`: the text after the first colon. */
  function AfterColon(line: string): string
    requires ':' in line
  {
    line[IndexOf(line, ':') + 1..]
  }

  /**
   * A line whose upper-cased form starts with a label ending in its only colon
   * holds a colon, and the text after its first colon is the text after the
   * label: the parser's `split(":", 1)[1]` never fails on a recognised line.
   */
  lemma ColonAfterLabel(line: string, key: string)
    requires KeyShape(key)
    requires StartsWith(Upper(line), key)
    ensures ':' in line && AfterColon(line) == line[|key|..]
  {
    var n := |key| - 1;
    assert Upper(line)[n] == ':';
    assert line[n] == ':';
    forall k | 0 <= k < n ensures line[k] != ':' {
      assert Upper(line)[k] == key[k];
      assert key[k] in key[..n];
    }
    var i := IndexOf(line, ':');
    assert i == n;
  }

  /** `x.strip()` of every comma-separated part, dropping the empty ones. */
  function Items(raw: string): (items: seq<string>)
    ensures |items| <= |Split(raw, ',')|
    ensures forall k :: 0 <= k < |items| ==> items[k] != "" && IsTrimmed(items[k]) && ',' !in items[k]
  {
    ItemsOf(Split(raw, ','))
  }

  /** Every part is free of commas, as the parts of a comma split are. */
  predicate CommaFree(parts: seq<string>) {
    forall k :: 0 <= k < |parts| ==> ',' !in parts[k]
  }

  /** Every item is non-empty, stripped and free of commas. */
  predicate CleanItems(items: seq<string>) {
    forall k :: 0 <= k < |items| ==> items[k] != "" && IsTrimmed(items[k]) && ',' !in items[k]
  }

  function ItemsOf(parts: seq<string>): (items: seq<string>)
    requires CommaFree(parts)
    ensures |items| <= |parts|
    ensures CleanItems(items)
    decreases |parts|
  {
    if |parts| == 0 then []
    else
      assert CommaFree(parts[..|parts| - 1]);
      KeepItem(ItemsOf(parts[..|parts| - 1]), parts[|parts| - 1])
  }

  /** One more part: stripped, and kept unless it is empty. */
  function KeepItem(items: seq<string>, part: string): (r: seq<string>)
    requires CleanItems(items) && ',' !in part
    ensures |r| <= |items| + 1
    ensures CleanItems(r)
  {
    var item := Strip(part);
    StripKeepsAbsent(part, ',');
    if item != "" then CleanSnoc(items, item); items + [item] else items
  }

  lemma CleanSnoc(items: seq<string>, item: string)
    requires CleanItems(items) && item != "" && IsTrimmed(item) && ',' !in item
    ensures CleanItems(items + [item])
  {
    forall k | 0 <= k < |items + [item]|
      ensures (items + [item])[k] != "" && IsTrimmed((items + [item])[k]) && ',' !in (items + [item])[k]
    {
      if k < |items| {
        assert (items + [item])[k] == items[k];
      }
    }
  }

  // ---------------------------------------------------------------------
  // The value each label sets

  /** The INTENT value, trimmed and upper-cased, or "SELECT" when empty. */
  function IntentOf(line: string): (v: string)
    requires Labelled(line, IntentLabel)
    ensures v != "" && IsTrimmed(v)
  {
    var l := Strip(line);
    LabelsHaveKeyShape();
    ColonAfterLabel(l, IntentLabel);
    var t := Strip(AfterColon(l));
    var v := Upper(t);
    UpperKeepsTrimmed(t);
    DefaultIntentTrimmed();
    if v == "" then DefaultIntent else v
  }

  lemma UpperKeepsTrimmed(t: string)
    requires IsTrimmed(t)
    ensures IsTrimmed(Upper(t))
  {
    if t != [] {
      UpperCharFixesNonLetters(t[0]);
      UpperCharFixesNonLetters(t[|t| - 1]);
    }
  }


  function EntitiesOf(line: string): (items: seq<string>)
    requires Labelled(line, EntitiesLabel)
    ensures forall k :: 0 <= k < |items| ==> items[k] != "" && IsTrimmed(items[k])
  {
    var l := Strip(line);
    LabelsHaveKeyShape();
    ColonAfterLabel(l, EntitiesLabel);
    Items(Strip(AfterColon(l)))
  }

  function ConditionsOf(line: string): (items: seq<string>)
    requires Labelled(line, ConditionsLabel)
    ensures forall k :: 0 <= k < |items| ==> items[k] != "" && IsTrimmed(items[k])
  {
    var l := Strip(line);
    LabelsHaveKeyShape();
    ColonAfterLabel(l, ConditionsLabel);
    Items(Strip(AfterColon(l)))
  }

  function SummaryOf(line: string, question: string): string
    requires Labelled(line, SummaryLabel)
  {
    var l := Strip(line);
    LabelsHaveKeyShape();
    ColonAfterLabel(l, SummaryLabel);
    var v := Strip(AfterColon(l));
    if v == "" then question else v
  }

  /** The effect of one reply line: the first label it carries sets its field; any other line changes nothing. */
  function ApplyLine(st: QueryIntent, line: string, question: string): QueryIntent {
    if Labelled(line, IntentLabel) then st.(intent := IntentOf(line))
    else if Labelled(line, EntitiesLabel) then st.(entities := EntitiesOf(line))
    else if Labelled(line, ConditionsLabel) then st.(conditions := ConditionsOf(line))
    else if Labelled(line, SummaryLabel) then st.(summary := SummaryOf(line, question))
    else st
  }

  /** The parser's result after the given lines, in order. */
  function ParseLines(lines: seq<string>, question: string): QueryIntent
    decreases |lines|
  {
    if |lines| == 0 then Defaults(question)
    else ApplyLine(ParseLines(lines[..|lines| - 1], question), lines[|lines| - 1], question)
  }

  /**
   * `_parse_response`: one pass over the reply's lines, updating the four
   * fields; the result is the fold of `ApplyLine`.
   */
  method ParseResponse(text: string, question: string) returns (r: QueryIntent)
    ensures r == ParseLines(Split(text, '\n'), question)
  {
    var lines := Split(text, '\n');
    var intent := DefaultIntent;
    var entities: seq<string> := [];
    var conditions: seq<string> := [];
    var summary := question;
    for i := 0 to |lines|
      invariant QueryIntent(intent, entities, conditions, summary) == ParseLines(lines[..i], question)
    {
      ghost var before := QueryIntent(intent, entities, conditions, summary);
      ParseLinesStep(lines, i, question);
      var line := Strip(lines[i]);
      var upper := Upper(line);
      if StartsWith(upper, IntentLabel) {
        intent := IntentOf(lines[i]);
      } else if StartsWith(upper, EntitiesLabel) {
        entities := EntitiesOf(lines[i]);
      } else if StartsWith(upper, ConditionsLabel) {
        conditions := ConditionsOf(lines[i]);
      } else if StartsWith(upper, SummaryLabel) {
        summary := SummaryOf(lines[i], question);
      }
      assert QueryIntent(intent, entities, conditions, summary) == ApplyLine(before, lines[i], question);
    }
    assert lines[..|lines|] == lines;
    return QueryIntent(intent, entities, conditions, summary);
  }

  lemma ParseLinesStep(lines: seq<string>, i: nat, question: string)
    requires i < |lines|
    ensures ParseLines(lines[..i + 1], question) == ApplyLine(ParseLines(lines[..i], question), lines[i], question)
  {
    assert lines[..i + 1][..i] == lines[..i];
  }

  /** The text of `understand`'s prompt before the question. */
  const UnderstandingHead: string :=
    "Analyze this natural language database question. Output a structured representation.\n\nUser question: "

  /** The text after the question: the four labelled lines asked for. */
  const UnderstandingFormat: string :=
    "\n\nRespond in this exact format (one line each):\n"
      + "INTENT: [one of: SELECT, aggregation, filter, join]\n"
      + "ENTITIES: [comma-separated likely table/column names or concepts, e.g. customers, orders, customer_name]\n"
      + "CONDITIONS: [comma-separated filter hints, e.g. status=active, date range]\n"
      + "SUMMARY: [one short sentence describing what the user wants, for semantic search]\n"

  /** `understand`'s prompt, with the question in the middle. */
  function UnderstandingPrompt(question: string): string {
    UnderstandingHead + question + UnderstandingFormat
  }

  /** The model's reply to the understanding prompt: one completion at temperature 0. */
  function UnderstandingReply(question: string, settings: Settings, complete: CompletionRequest -> string): string {
    complete(UserRequest(UnderstandingPrompt(question), settings.llmModel))
  }

  /**
   * `understand`: the reply is parsed with the question as fallback summary.
   * The intent is never empty, every entity and condition is a non-empty
   * trimmed item, and a reply with no recognised line gives the defaults.
   */
  function Understand(question: string, settings: Settings, complete: CompletionRequest -> string): (r: QueryIntent)
    ensures Clean(r)
    ensures (forall line :: line in Split(UnderstandingReply(question, settings, complete), '\n') ==> !Recognised(line))
      ==> r == Defaults(question)
  {
    var lines := Split(UnderstandingReply(question, settings, complete), '\n');
    ParsedFieldsClean(lines, question);
    if forall line :: line in lines ==> !Recognised(line) then
      NoLabelsGiveDefaults(lines, question);
      ParseLines(lines, question)
    else
      ParseLines(lines, question)
  }

  // ---------------------------------------------------------------------
  // Properties of the parser

  /** A reply with no recognised line gives the defaults, with the question as summary. */
  lemma {:induction false} NoLabelsGiveDefaults(lines: seq<string>, question: string)
    requires forall k :: 0 <= k < |lines| ==> !Recognised(lines[k])
    ensures ParseLines(lines, question) == Defaults(question)
    decreases |lines|
  {
    if |lines| > 0 {
      NoLabelsGiveDefaults(lines[..|lines| - 1], question);
    }
  }

  /**
   * When a label occurs on several lines the last one wins: each field is
   * the value of the last line carrying its label, whatever came before.
   */
  lemma {:induction false} LastOccurrenceWins(lines: seq<string>, i: nat, question: string)
    requires i < |lines|
    ensures Labelled(lines[i], IntentLabel) && (forall k :: i < k < |lines| ==> !Labelled(lines[k], IntentLabel))
      ==> ParseLines(lines, question).intent == IntentOf(lines[i])
    ensures Labelled(lines[i], EntitiesLabel) && (forall k :: i < k < |lines| ==> !Labelled(lines[k], EntitiesLabel))
      ==> ParseLines(lines, question).entities == EntitiesOf(lines[i])
    ensures Labelled(lines[i], ConditionsLabel) && (forall k :: i < k < |lines| ==> !Labelled(lines[k], ConditionsLabel))
      ==> ParseLines(lines, question).conditions == ConditionsOf(lines[i])
    ensures Labelled(lines[i], SummaryLabel) && (forall k :: i < k < |lines| ==> !Labelled(lines[k], SummaryLabel))
      ==> ParseLines(lines, question).summary == SummaryOf(lines[i], question)
    decreases |lines|
  {
    var init := lines[..|lines| - 1];
    var last := lines[|lines| - 1];
    LabelsExclusive(last);
    if i < |lines| - 1 {
      assert init[i] == lines[i];
      assert forall k :: i < k < |init| ==> init[k] == lines[k];
      LastOccurrenceWins(init, i, question);
    }
  }

  /** A line carries at most one of the four labels. */
  lemma LabelsExclusive(line: string)
    ensures Labelled(line, IntentLabel) ==> !Labelled(line, EntitiesLabel) && !Labelled(line, ConditionsLabel) && !Labelled(line, SummaryLabel)
    ensures Labelled(line, EntitiesLabel) ==> !Labelled(line, ConditionsLabel) && !Labelled(line, SummaryLabel)
    ensures Labelled(line, ConditionsLabel) ==> !Labelled(line, SummaryLabel)
  {
    var u := Upper(Strip(line));
    FirstCharOfKey(u, IntentLabel);
    FirstCharOfKey(u, EntitiesLabel);
    FirstCharOfKey(u, ConditionsLabel);
    FirstCharOfKey(u, SummaryLabel);
  }

  lemma FirstCharOfKey(u: string, key: string)
    requires |key| > 0
    ensures StartsWith(u, key) ==> u[0] == key[0]
  {
    if StartsWith(u, key) {
      assert u[..|key|][0] == u[0];
    }
  }

  /** No empty intent, and no empty or untrimmed entity or condition. */
  predicate Clean(st: QueryIntent) {
    && st.intent != ""
    && (forall k :: 0 <= k < |st.entities| ==> st.entities[k] != "" && IsTrimmed(st.entities[k]))
    && (forall k :: 0 <= k < |st.conditions| ==> st.conditions[k] != "" && IsTrimmed(st.conditions[k]))
  }

  lemma ApplyLineKeepsClean(st: QueryIntent, line: string, question: string)
    requires Clean(st)
    ensures Clean(ApplyLine(st, line, question))
  {
    if Labelled(line, IntentLabel) {
      assert IntentOf(line) != "";
    } else if Labelled(line, EntitiesLabel) {
      var e := EntitiesOf(line);
      assert ApplyLine(st, line, question) == st.(entities := e);
    } else if Labelled(line, ConditionsLabel) {
      var c := ConditionsOf(line);
      assert ApplyLine(st, line, question) == st.(conditions := c);
    } else if Labelled(line, SummaryLabel) {
      assert ApplyLine(st, line, question) == st.(summary := SummaryOf(line, question));
    }
  }

  /** The parsed intent is never empty, and every entity and condition is a non-empty trimmed item. */
  lemma {:induction false} ParsedFieldsClean(lines: seq<string>, question: string)
    ensures Clean(ParseLines(lines, question))
    decreases |lines|
  {
    if |lines| > 0 {
      ParsedFieldsClean(lines[..|lines| - 1], question);
      ApplyLineKeepsClean(ParseLines(lines[..|lines| - 1], question), lines[|lines| - 1], question);
    }
  }

  /** Without a SUMMARY line the summary is the question itself, whatever else the reply holds. */
  lemma {:induction false} SummaryFallsBack(lines: seq<string>, question: string)
    requires forall k :: 0 <= k < |lines| ==> !Labelled(lines[k], SummaryLabel)
    ensures ParseLines(lines, question).summary == question
    decreases |lines|
  {
    if |lines| > 0 {
      var init := lines[..|lines| - 1];
      assert forall k :: 0 <= k < |init| ==> init[k] == lines[k];
      SummaryFallsBack(init, question);
      ApplyLineFrame(ParseLines(init, question), lines[|lines| - 1], question);
    }
  }

  /** A line changes only the field its label names. */
  lemma ApplyLineFrame(st: QueryIntent, line: string, question: string)
    ensures !Labelled(line, IntentLabel) ==> ApplyLine(st, line, question).intent == st.intent
    ensures !Labelled(line, EntitiesLabel) ==> ApplyLine(st, line, question).entities == st.entities
    ensures !Labelled(line, ConditionsLabel) ==> ApplyLine(st, line, question).conditions == st.conditions
    ensures !Labelled(line, SummaryLabel) ==> ApplyLine(st, line, question).summary == st.summary
  {
  }

}
