/**
 * The regular-expression scans of backend/sql_generation/validator.py,
 * written out over ASCII: whole-word keyword search (`\bKW\b`), the first
 * `\bLIMIT\s+(\d+)` match, and the identifiers captured after FROM and the
 * JOIN forms by `re.finditer` (leftmost, non-overlapping matches).
 */
module SqlScan {
  import opened Base
  import opened TextUtil

  // ---------------------------------------------------------------------
  // Runs of characters

  function SpaceRunEnd(s: string, i: nat): (j: nat)
    requires i <= |s|
    ensures i <= j <= |s|
    ensures forall k :: i <= k < j ==> IsSpace(s[k])
    ensures j == |s| || !IsSpace(s[j])
    decreases |s| - i
  {
    if i < |s| && IsSpace(s[i]) then SpaceRunEnd(s, i + 1) else i
  }

  function DigitRunEnd(s: string, i: nat): (j: nat)
    requires i <= |s|
    ensures i <= j <= |s|
    ensures forall k :: i <= k < j ==> IsDigit(s[k])
    ensures j == |s| || !IsDigit(s[j])
    decreases |s| - i
  {
    if i < |s| && IsDigit(s[i]) then DigitRunEnd(s, i + 1) else i
  }

  function WordRunEnd(s: string, i: nat): (j: nat)
    requires i <= |s|
    ensures i <= j <= |s|
    ensures forall k :: i <= k < j ==> IsWordChar(s[k])
    ensures j == |s| || !IsWordChar(s[j])
    decreases |s| - i
  {
    if i < |s| && IsWordChar(s[i]) then WordRunEnd(s, i + 1) else i
  }

  // ---------------------------------------------------------------------
  // Whole words

  /** `\b` at position i: a word character on exactly one side. */
  predicate BoundaryAt(s: string, i: int)
    requires 0 <= i <= |s|
  {
    (i > 0 && IsWordChar(s[i - 1])) != (i < |s| && IsWordChar(s[i]))
  }

  /** `\bW\b` matches at i. */
  predicate WordAt(s: string, w: string, i: int) {
    OccursAt(s, w, i) && BoundaryAt(s, i) && BoundaryAt(s, i + |w|)
  }

  /** `re.search(rf"\b{w}\b", s)` succeeds. */
  predicate ContainsWord(s: string, w: string) {
    exists i | 0 <= i <= |s| - |w| :: WordAt(s, w, i)
  }

  /**
   * A keyword written inside a longer identifier (UPDATE in UPDATED_AT or
   * LAST_UPDATE) is not a whole-word occurrence.
   */
  lemma KeywordInsideIdentifier(s: string, w: string, i: int)
    requires |w| > 0 && IsWordChar(w[0]) && IsWordChar(w[|w| - 1]) && OccursAt(s, w, i)
    requires (i > 0 && IsWordChar(s[i - 1])) || (i + |w| < |s| && IsWordChar(s[i + |w|]))
    ensures !WordAt(s, w, i)
  {
    assert s[i] == w[0] && s[i + |w| - 1] == w[|w| - 1];
  }

  /** The index of the first keyword of `kws`, in list order, found as a whole word in s. */
  function FirstWord(s: string, kws: seq<string>): (r: Option<nat>)
    ensures r.Some? ==> r.value < |kws| && ContainsWord(s, kws[r.value])
    ensures r.Some? ==> forall q :: 0 <= q < r.value ==> !ContainsWord(s, kws[q])
    ensures r.None? ==> forall q :: 0 <= q < |kws| ==> !ContainsWord(s, kws[q])
    decreases |kws|
  {
    if |kws| == 0 then None
    else if ContainsWord(s, kws[0]) then Some(0)
    else match FirstWord(s, kws[1..])
      case Some(j) => Some(j + 1)
      case None => None
  }

  /** Whatever index satisfies the "first found" description is the one FirstWord returns. */
  lemma FirstWordUnique(s: string, kws: seq<string>, j: nat)
    requires j < |kws| && ContainsWord(s, kws[j])
    requires forall q :: 0 <= q < j ==> !ContainsWord(s, kws[q])
    ensures FirstWord(s, kws) == Some(j)
  {
  }

  // ---------------------------------------------------------------------
  // `\bLIMIT\s+(\d+)` with re.IGNORECASE

  /** The number captured when the pattern matches at position i. */
  function LimitAt(s: string, i: nat): (r: Option<nat>)
    requires i <= |s|
  {
    if i + 5 <= |s| && BoundaryAt(s, i) && Upper(s[i..i + 5]) == "LIMIT" then
      var j := SpaceRunEnd(s, i + 5);
      var k := DigitRunEnd(s, j);
      if j > i + 5 && k > j then Some(DigitsValue(s[j..k])) else None
    else
      None
  }

  /** The position of the leftmost match at or after i, as `re.search` finds it. */
  function FirstLimitFrom(s: string, i: nat): (r: Option<nat>)
    requires i <= |s|
    ensures r.Some? ==> i <= r.value <= |s| && LimitAt(s, r.value).Some?
    ensures r.Some? ==> forall q :: i <= q < r.value ==> LimitAt(s, q).None?
    ensures r.None? ==> forall q :: i <= q <= |s| ==> LimitAt(s, q).None?
    decreases |s| - i
  {
    if LimitAt(s, i).Some? then Some(i)
    else if i == |s| then None
    else FirstLimitFrom(s, i + 1)
  }

  /** The value of the first `LIMIT <digits>` match, if any. */
  function FirstLimit(s: string): (r: Option<nat>)
    ensures r.Some? ==> exists p | 0 <= p <= |s| :: LimitAt(s, p) == r
    ensures r.None? ==> forall p :: 0 <= p <= |s| ==> LimitAt(s, p).None?
  {
    match FirstLimitFrom(s, 0)
    case Some(p) => LimitAt(s, p)
    case None => None
  }

  // ---------------------------------------------------------------------
  // `\b{KW}\s+([a-zA-Z_][a-zA-Z0-9_]*)` with re.IGNORECASE, KW a phrase
  // whose words are separated by `\s+`

  /** FROM, JOIN, LEFT JOIN, RIGHT JOIN, INNER JOIN, OUTER JOIN, in the order they are scanned. */
  const TableKeywords: seq<seq<string>> :=
    [["FROM"], ["JOIN"], ["LEFT", "JOIN"], ["RIGHT", "JOIN"], ["INNER", "JOIN"], ["OUTER", "JOIN"]]

  /** Where the keyword phrase ends when it starts at i. */
  function PhraseEnd(s: string, i: nat, words: seq<string>): (r: Option<nat>)
    requires i <= |s| && |words| > 0
    ensures r.Some? ==> i <= r.value <= |s|
    decreases |words|
  {
    var w := words[0];
    if i + |w| <= |s| && Upper(s[i..i + |w|]) == w then
      var e := i + |w|;
      if |words| == 1 then Some(e)
      else
        var j := SpaceRunEnd(s, e);
        if j > e then PhraseEnd(s, j, words[1..]) else None
    else
      None
  }

  /** The identifier the pattern captures: a letter or `_`, then word characters. */
  predicate IsIdentifier(n: string) {
    |n| > 0 && (IsAsciiLetter(n[0]) || n[0] == '_') && forall k :: 0 <= k < |n| ==> IsWordChar(n[k])
  }

  datatype TableRef = TableRef(name: string, end: nat)

  /** The lower-cased table name captured by a match at i, and where the match ends. */
  function RefAt(s: string, i: nat, words: seq<string>): (r: Option<TableRef>)
    requires i <= |s| && |words| > 0
    ensures r.Some? ==> i < r.value.end <= |s| && IsIdentifier(r.value.name)
  {
    if !BoundaryAt(s, i) then None
    else match PhraseEnd(s, i, words)
      case None => None
      case Some(e) =>
        var j := SpaceRunEnd(s, e);
        if j > e && j < |s| && (IsAsciiLetter(s[j]) || s[j] == '_') then
          var k := WordRunEnd(s, j + 1);
          var name := Lower(s[j..k]);
          assert forall q :: 0 <= q < |name| ==> name[q] == LowerChar(s[j + q]);
          Some(TableRef(name, k))
        else
          None
  }

  /** The names captured by `re.finditer` from position i on: after a match the scan resumes at its end. */
  function RefsFrom(s: string, words: seq<string>, i: nat): (names: seq<string>)
    requires i <= |s| + 1 && |words| > 0
    ensures forall q :: 0 <= q < |names| ==> IsIdentifier(names[q])
    decreases |s| + 1 - i
  {
    if i > |s| then []
    else match RefAt(s, i, words)
      case Some(t) => [t.name] + RefsFrom(s, words, t.end)
      case None => RefsFrom(s, words, i + 1)
  }

  /** The names captured for each keyword phrase of `kws`, concatenated in keyword order. */
  function RefsForKeywords(s: string, kws: seq<seq<string>>): (names: seq<string>)
    requires forall q :: 0 <= q < |kws| ==> |kws[q]| > 0
    ensures forall q :: 0 <= q < |names| ==> IsIdentifier(names[q])
    decreases |kws|
  {
    if |kws| == 0 then []
    else RefsForKeywords(s, kws[..|kws| - 1]) + RefsFrom(s, kws[|kws| - 1], 0)
  }

  /** Every table reference the validator checks, in the order it checks them. */
  function TableRefs(s: string): (names: seq<string>)
    ensures forall q :: 0 <= q < |names| ==> IsIdentifier(names[q])
  {
    RefsForKeywords(s, TableKeywords)
  }

  /** The references of the first k keyword phrases are a prefix of all references. */
  lemma {:induction false} RefsForKeywordsPrefix(s: string, kws: seq<seq<string>>, k: nat)
    requires k <= |kws| && forall q :: 0 <= q < |kws| ==> |kws[q]| > 0
    ensures RefsForKeywords(s, kws[..k]) <= RefsForKeywords(s, kws)
    decreases |kws|
  {
    if k < |kws| {
      var init := kws[..|kws| - 1];
      assert init[..k] == kws[..k];
      RefsForKeywordsPrefix(s, init, k);
    } else {
      assert kws[..k] == kws;
    }
  }

  /**
   * A reference whose first non-blank character after the keyword is a
   * backtick, a double quote or an opening parenthesis is not captured, so it
   * is never checked against the schema.
   */
  lemma QuotedReferenceNotCaptured(s: string, i: nat, words: seq<string>, e: nat)
    requires i <= |s| && |words| > 0 && PhraseEnd(s, i, words) == Some(e)
    requires SpaceRunEnd(s, e) < |s| && s[SpaceRunEnd(s, e)] in {'`', '"', '('}
    ensures RefAt(s, i, words).None?
  {
  }

  /** The position of the first name of `names` that is not in `known`. */
  function FirstMissing(names: seq<string>, known: set<string>): (r: Option<nat>)
    ensures r.Some? ==> r.value < |names| && names[r.value] !in known
    ensures r.Some? ==> forall q :: 0 <= q < r.value ==> names[q] in known
    ensures r.None? ==> forall q :: 0 <= q < |names| ==> names[q] in known
    decreases |names|
  {
    if |names| == 0 then None
    else if names[0] !in known then Some(0)
    else match FirstMissing(names[1..], known)
      case Some(j) => Some(j + 1)
      case None => None
  }

  lemma FirstMissingUnique(names: seq<string>, known: set<string>, p: nat)
    requires p < |names| && names[p] !in known
    requires forall q :: 0 <= q < p ==> names[q] in known
    ensures FirstMissing(names, known) == Some(p)
  {
  }
}
