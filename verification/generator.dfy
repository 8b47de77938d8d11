/**
 * backend/sql_generation/generator.py: the prompt sent to the language model
 * and the clean-up of its reply into a bare SQL statement. The model itself
 * is a parameter `complete` that maps a completion request to its reply text.
 */
module Generator {
  import opened Base
  import opened TextUtil
  import opened Settings
  import opened Chat

  /** The rules block of the prompt, verbatim. */
  const SqlRules: string :=
    "\n- Use explicit column names; avoid SELECT *.\n"
    + "- Use table aliases for clarity (e.g. c for customers, o for orders).\n"
    + "- Always add a reasonable LIMIT (e.g. LIMIT 100) unless the question asks for all/count.\n"
    + "- Use valid table and column names only from the schema context.\n"
    + "- For \"unique\", \"distinct\", or \"without duplicates\" on a column: use SELECT DISTINCT TRIM(column) AS column"
    + " (or LOWER(TRIM(column)) if case should not matter) so values that differ only by whitespace/case collapse to one row.\n"
    + "- Output only the SQL statement, no markdown or explanation.\n"

  const PromptHead: string :=
    "You are a SQL expert. Generate a single, executable SQL query.\n\nSchema context (use only these tables and columns):\n"

  const RulesHeading: string := "\n\nRules:\n"
  const QuestionHeading: string := "\n\nUser question: "
  const PromptTail: string := "\n\nOutput only the SQL query, nothing else."

  /** The prompt of `generate`: schema context, rules, then the question. */
  function Prompt(question: string, context: string): string {
    PromptHead + context + RulesHeading + SqlRules + QuestionHeading + question + PromptTail
  }

  /**
   * The single request `generate` makes: one user message holding the prompt,
   * the configured model, temperature 0 and no token cap.
   */
  function GenerationRequest(question: string, context: string, settings: Settings): (req: CompletionRequest)
    ensures |req.messages| == 1 && req.messages[0].role == "user"
    ensures req.model == settings.llmModel && req.temperature == 0.0 && req.maxTokens.None?
    ensures Contains(req.messages[0].content, context)
    ensures Contains(req.messages[0].content, SqlRules)
    ensures Contains(req.messages[0].content, question)
  {
    PromptHolds(question, context);
    UserRequest(Prompt(question, context), settings.llmModel)
  }

  lemma PromptHolds(question: string, context: string)
    ensures Contains(Prompt(question, context), context)
    ensures Contains(Prompt(question, context), SqlRules)
    ensures Contains(Prompt(question, context), question)
  {
    var p1 := PromptHead + context;
    var p2 := p1 + RulesHeading;
    var p3 := p2 + SqlRules;
    var p4 := p3 + QuestionHeading;
    var p5 := p4 + question;
    var tail := PromptTail;
    assert Prompt(question, context) == p5 + tail;
    ContainsSelf(context);
    ContainsInRight(PromptHead, context, context);
    ContainsInLeft(p1, RulesHeading, context);
    ContainsInLeft(p2, SqlRules, context);
    ContainsInLeft(p3, QuestionHeading, context);
    ContainsInLeft(p4, question, context);
    ContainsInLeft(p5, tail, context);
    ContainsSelf(SqlRules);
    ContainsInRight(p2, SqlRules, SqlRules);
    ContainsInLeft(p3, QuestionHeading, SqlRules);
    ContainsInLeft(p4, question, SqlRules);
    ContainsInLeft(p5, tail, SqlRules);
    ContainsSelf(question);
    ContainsInRight(p4, question, question);
    ContainsInLeft(p5, tail, question);
  }

  // ---------------------------------------------------------------------
  // Removing markdown fences

  const Fence: string := "```"

  /** The first line at or after i that is a bare fence once stripped; the number of lines if none. */
  function FenceEndFrom(lines: seq<string>, i: nat): (e: nat)
    requires i <= |lines|
    ensures i <= e <= |lines|
    ensures forall k :: i <= k < e ==> Strip(lines[k]) != Fence
    ensures e < |lines| ==> Strip(lines[e]) == Fence
    decreases |lines| - i
  {
    if i == |lines| then i
    else if Strip(lines[i]) == Fence then i
    else FenceEndFrom(lines, i + 1)
  }

  /**
   * `_extract_sql`: a reply that starts with "```" is split into lines; the
   * opening line is dropped only when it starts with "```sql", and the
   * closing fence is the first line, searched from the opening line on, that
   * strips to "```". The kept lines are joined back and stripped. Any other
   * reply is only stripped.
   */
  function ExtractSql(raw: string): (r: string)
    ensures IsTrimmed(r)
    ensures !StartsWith(raw, Fence) ==> r == Strip(raw)
  {
    if StartsWith(raw, Fence) then Strip(Join(FencedBody(Split(raw, '\n')), "\n")) else Strip(raw)
  }

  /** The lines kept from a fenced reply: from the line after a "```sql" opening line (else from the first) up to the closing fence. */
  function FencedBody(lines: seq<string>): seq<string>
    requires |lines| >= 1
  {
    var start := if StartsWith(lines[0], "```sql") then 1 else 0;
    var end := FenceEndFrom(lines, 0);
    if start <= end then lines[start..end] else []
  }

  /** A reply fenced with a tag line and a closing fence. */
  function Fenced(tag: string, body: string): string {
    (Fence + tag) + "\n" + (body + "\n" + Fence)
  }

  /** No line of `body` is a bare fence. */
  predicate NoFenceLine(body: string) {
    forall k :: 0 <= k < |Split(body, '\n')| ==> Strip(Split(body, '\n')[k]) != Fence
  }

  lemma StripFence()
    ensures Strip(Fence) == Fence
  {
    StripTrimmed(Fence);
  }

  lemma StartsWithFence(tag: string, rest: string)
    ensures StartsWith(Fence + tag + rest, Fence)
  {
    assert (Fence + tag + rest)[..3] == Fence;
  }

  /** The lines of a fenced reply: the tag line, the body's lines, the closing fence. */
  lemma FencedLines(tag: string, body: string)
    requires '\n' !in tag
    ensures StartsWith(Fenced(tag, body), Fence)
    ensures Split(Fenced(tag, body), '\n') == [Fence + tag] + Split(body, '\n') + [Fence]
  {
    StartsWithFence(tag, "\n" + (body + "\n" + Fence));
    assert Fenced(tag, body) == Fence + tag + ("\n" + (body + "\n" + Fence));
    SplitConcat(Fence + tag, body + "\n" + Fence, '\n');
    assert '\n' !in Fence;
    assert '\n' !in Fence + tag;
    assert Split(Fence + tag, '\n') == [Fence + tag];
    SplitConcat(body, Fence, '\n');
    assert Split(Fence, '\n') == [Fence];
  }

  /** The lines of a reply that opens a fence and never closes it. */
  lemma UnclosedLines(tag: string, body: string)
    requires '\n' !in tag
    ensures Split(Fence + tag + "\n" + body, '\n') == [Fence + tag] + Split(body, '\n')
  {
    assert Fence + tag + "\n" + body == (Fence + tag) + ['\n'] + body;
    SplitConcat(Fence + tag, body, '\n');
    assert '\n' !in Fence;
    assert '\n' !in Fence + tag;
    assert Split(Fence + tag, '\n') == [Fence + tag];
  }

  lemma LinesAfterHead(lines: seq<string>, parts: seq<string>)
    requires |lines| >= |parts| + 1 && lines[1..|parts| + 1] == parts
    ensures forall k :: 0 <= k < |parts| ==> lines[k + 1] == parts[k]
  {
    forall k | 0 <= k < |parts| ensures lines[k + 1] == parts[k] {
      assert lines[1..|parts| + 1][k] == parts[k];
    }
  }

  /** Where the fence search ends when only the line after `parts` (if any) is a bare fence. */
  lemma FenceEndAfter(lines: seq<string>, parts: seq<string>, i: nat)
    requires 1 <= i <= |parts| + 1 && |parts| + 1 <= |lines| <= |parts| + 2
    requires forall k :: 0 <= k < |parts| ==> lines[k + 1] == parts[k] && Strip(parts[k]) != Fence
    requires |lines| == |parts| + 2 ==> Strip(lines[|parts| + 1]) == Fence
    ensures FenceEndFrom(lines, i) == |parts| + 1
    decreases |parts| + 1 - i
  {
    if i <= |parts| {
      assert lines[i] == parts[i - 1];
      FenceEndAfter(lines, parts, i + 1);
    }
  }

  /** A line that starts with "```sql" is not a bare fence once stripped. */
  lemma SqlTagLineIsNotFence(line: string)
    requires StartsWith(line, "```sql")
    ensures Strip(line) != Fence
  {
    assert line[0] == '`' && line[3] == 's';
    assert LStrip(line) == line;
    var r := RStrip(line);
    assert r == line[..|r|];
  }

  lemma JoinLines(body: string)
    ensures Join(Split(body, '\n'), "\n") == body
  {
    assert "\n" == ['\n'];
    JoinSplit(body, '\n');
  }

  /** The fence search over an opening line, the body's lines and an optional closing fence ends after the body. */
  lemma FenceEndAfterBody(head: string, parts: seq<string>, tail: seq<string>)
    requires Strip(head) != Fence
    requires forall k :: 0 <= k < |parts| ==> Strip(parts[k]) != Fence
    requires tail == [] || tail == [Fence]
    ensures FenceEndFrom([head] + parts + tail, 0) == 1 + |parts|
  {
    var lines := [head] + parts + tail;
    StripFence();
    assert lines[1..|parts| + 1] == parts;
    LinesAfterHead(lines, parts);
    assert |lines| == |parts| + 2 ==> lines[|parts| + 1] == Fence;
    FenceEndAfter(lines, parts, 1);
    assert lines[0] == head;
  }

  /** After a "```sql" opening line, the kept lines are exactly the body's lines, closed or not. */
  lemma FencedBodyAfterTag(head: string, parts: seq<string>, tail: seq<string>)
    requires StartsWith(head, "```sql")
    requires forall k :: 0 <= k < |parts| ==> Strip(parts[k]) != Fence
    requires tail == [] || tail == [Fence]
    ensures FencedBody([head] + parts + tail) == parts
  {
    var lines := [head] + parts + tail;
    SqlTagLineIsNotFence(head);
    FenceEndAfterBody(head, parts, tail);
    assert lines[0] == head;
    assert lines[1..1 + |parts|] == parts;
  }

  /** After any other opening line that is not a bare fence, that line is kept too. */
  lemma FencedBodyOtherTag(head: string, parts: seq<string>, tail: seq<string>)
    requires !StartsWith(head, "```sql") && Strip(head) != Fence
    requires forall k :: 0 <= k < |parts| ==> Strip(parts[k]) != Fence
    requires tail == [] || tail == [Fence]
    ensures FencedBody([head] + parts + tail) == [head] + parts
  {
    var lines := [head] + parts + tail;
    FenceEndAfterBody(head, parts, tail);
    assert lines[0] == head;
    assert lines[0..1 + |parts|] == [head] + parts;
  }

  /**
   * A reply fenced as "```sql…" whose body has no bare fence line gives back
   * exactly the stripped body.
   */
  lemma ExtractSqlFenced(tag: string, body: string)
    requires '\n' !in tag && StartsWith(Fence + tag, "```sql") && NoFenceLine(body)
    ensures ExtractSql(Fenced(tag, body)) == Strip(body)
  {
    FencedLines(tag, body);
    FencedBodyAfterTag(Fence + tag, Split(body, '\n'), [Fence]);
    JoinLines(body);
  }

  /** Without a closing fence, everything after a "```sql…" opening line is kept. */
  lemma ExtractSqlUnclosed(tag: string, body: string)
    requires '\n' !in tag && StartsWith(Fence + tag, "```sql") && NoFenceLine(body)
    ensures ExtractSql(Fence + tag + "\n" + body) == Strip(body)
  {
    StartsWithFence(tag, "\n" + body);
    assert Fence + tag + "\n" + body == Fence + tag + ("\n" + body);
    UnclosedLines(tag, body);
    var parts := Split(body, '\n');
    assert [Fence + tag] + parts + [] == [Fence + tag] + parts;
    FencedBodyAfterTag(Fence + tag, parts, []);
    JoinLines(body);
  }

  /**
   * An opening line that starts with "```" but neither with "```sql" nor is a
   * bare fence is kept: the statement is that line, a line break and the
   * body, stripped.
   */
  lemma ExtractSqlKeepsOtherTag(tag: string, body: string)
    requires '\n' !in tag && !StartsWith(Fence + tag, "```sql") && Strip(Fence + tag) != Fence
    requires NoFenceLine(body)
    ensures ExtractSql(Fenced(tag, body)) == Strip(Fence + tag + "\n" + body)
  {
    FencedLines(tag, body);
    var parts := Split(body, '\n');
    FencedBodyOtherTag(Fence + tag, parts, [Fence]);
    JoinLines(body);
    assert Join([Fence + tag] + parts, "\n") == (Fence + tag) + "\n" + Join(parts, "\n") by {
      assert ([Fence + tag] + parts)[1..] == parts;
    }
  }

  /** A reply whose first line is a bare fence yields the empty statement, whatever follows. */
  lemma ExtractSqlBareFence(raw: string)
    requires StartsWith(raw, Fence + "\n")
    ensures ExtractSql(raw) == ""
  {
    var body := raw[4..];
    assert raw == Fence + ['\n'] + body;
    assert StartsWith(raw, Fence) by { assert raw[..3] == Fence; }
    SplitConcat(Fence, body, '\n');
    assert '\n' !in Fence;
    var lines := Split(raw, '\n');
    assert lines[0] == Fence;
    StripFence();
    assert FenceEndFrom(lines, 0) == 0;
    assert !StartsWith(lines[0], "```sql");
    assert FencedBody(lines) == [];
  }

  /** A reply that has no leading fence and no surrounding whitespace is returned unchanged. */
  lemma ExtractSqlPlain(raw: string)
    requires !StartsWith(raw, Fence) && IsTrimmed(raw)
    ensures ExtractSql(raw) == raw
  {
    StripTrimmed(raw);
  }

  /**
   * `generate`: one completion request, its reply stripped of fences. The
   * statement is trimmed, and when the model answers with a "```sql" fenced
   * body the statement is that body.
   */
  function Generate(question: string, context: string, settings: Settings, complete: CompletionRequest -> string): (sql: string)
    ensures IsTrimmed(sql)
    ensures forall tag, body ::
      ('\n' !in tag && StartsWith(Fence + tag, "```sql") && NoFenceLine(body) && complete(GenerationRequest(question, context, settings)) == Fenced(tag, body))
      ==> sql == Strip(body)
  {
    var reply := complete(GenerationRequest(question, context, settings));
    forall tag, body | '\n' !in tag && StartsWith(Fence + tag, "```sql") && NoFenceLine(body) && reply == Fenced(tag, body)
      ensures ExtractSql(reply) == Strip(body)
    {
      ExtractSqlFenced(tag, body);
    }
    ExtractSql(reply)
  }
}
