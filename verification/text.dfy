/**
 * The Python string operations the backend relies on (`strip`, `upper`,
 * `lower`, `in`, `startswith`, `split`, `join`, `str(int)`), restricted to
 * ASCII: `isspace`, letters, digits and word characters are the ASCII ones.
 */
module TextUtil {

  // ---------------------------------------------------------------------
  // Character classes

  /** `str.isspace` on ASCII: space, \t \n \v \f \r and the separators 0x1C-0x1F. */
  predicate IsSpace(c: char) {
    var n := c as int;
    n == 32 || 9 <= n <= 13 || 28 <= n <= 31
  }

  predicate IsDigit(c: char) { '0' <= c <= '9' }

  predicate IsAsciiLetter(c: char) { 'a' <= c <= 'z' || 'A' <= c <= 'Z' }

  /** A character of the regular-expression class `\w` (ASCII). */
  predicate IsWordChar(c: char) { IsAsciiLetter(c) || IsDigit(c) || c == '_' }

  function UpperChar(c: char): char {
    if 'a' <= c <= 'z' then (c as int - 32) as char else c
  }

  function LowerChar(c: char): char {
    if 'A' <= c <= 'Z' then (c as int + 32) as char else c
  }

  /** Case conversion changes letters only; every other character is its own image. */
  lemma UpperCharFixesNonLetters(c: char)
    ensures !IsAsciiLetter(c) ==> UpperChar(c) == c
    ensures IsWordChar(UpperChar(c)) <==> IsWordChar(c)
    ensures IsSpace(UpperChar(c)) <==> IsSpace(c)
  {
  }

  // ---------------------------------------------------------------------
  // upper / lower

  function Upper(s: string): (r: string)
    ensures |r| == |s|
    ensures forall i :: 0 <= i < |s| ==> r[i] == UpperChar(s[i])
  {
    seq(|s|, i requires 0 <= i < |s| => UpperChar(s[i]))
  }

  function Lower(s: string): (r: string)
    ensures |r| == |s|
    ensures forall i :: 0 <= i < |s| ==> r[i] == LowerChar(s[i])
  {
    seq(|s|, i requires 0 <= i < |s| => LowerChar(s[i]))
  }

  lemma UpperAppend(a: string, b: string)
    ensures Upper(a + b) == Upper(a) + Upper(b)
  {
    assert Upper(a + b) == Upper(a) + Upper(b);
  }

  lemma UpperSlice(s: string, i: int, j: int)
    requires 0 <= i <= j <= |s|
    ensures Upper(s[i..j]) == Upper(s)[i..j]
  {
  }

  // ---------------------------------------------------------------------
  // strip / lstrip / rstrip

  function LStrip(s: string): (r: string)
    ensures |r| <= |s| && r == s[|s| - |r|..]
    ensures forall i :: 0 <= i < |s| - |r| ==> IsSpace(s[i])
    ensures r == [] || !IsSpace(r[0])
  {
    if |s| > 0 && IsSpace(s[0]) then LStrip(s[1..]) else s
  }

  function RStrip(s: string): (r: string)
    ensures |r| <= |s| && r == s[..|r|]
    ensures forall i :: |r| <= i < |s| ==> IsSpace(s[i])
    ensures r == [] || !IsSpace(r[|r| - 1])
  {
    if |s| > 0 && IsSpace(s[|s| - 1]) then RStrip(s[..|s| - 1]) else s
  }

  /** `str.strip()`: the result neither starts nor ends with whitespace. */
  function Strip(s: string): (r: string)
    ensures r == [] || (!IsSpace(r[0]) && !IsSpace(r[|r| - 1]))
  {
    RStrip(LStrip(s))
  }

  /** A stripped string has no surrounding whitespace. */
  predicate IsTrimmed(s: string) {
    s == [] || (!IsSpace(s[0]) && !IsSpace(s[|s| - 1]))
  }

  /** `strip` removes only whitespace, from both ends, and keeps the middle. */
  lemma StripSlice(s: string) returns (a: nat, b: nat)
    ensures a <= b <= |s| && Strip(s) == s[a..b]
    ensures forall i :: 0 <= i < a ==> IsSpace(s[i])
    ensures forall i :: b <= i < |s| ==> IsSpace(s[i])
  {
    var l := LStrip(s);
    a := |s| - |l|;
    b := a + |RStrip(l)|;
    forall i | b <= i < |s| ensures IsSpace(s[i]) {
      assert s[i] == l[i - a];
    }
  }

  /** `strip` never introduces a character: one absent before is absent after. */
  lemma StripKeepsAbsent(s: string, c: char)
    requires c !in s
    ensures c !in Strip(s)
  {
    var a, b := StripSlice(s);
    forall i | 0 <= i < |Strip(s)|
      ensures Strip(s)[i] != c
    {
      assert Strip(s)[i] == s[a + i];
    }
  }

  /** Stripping a trimmed string changes nothing. */
  lemma StripTrimmed(s: string)
    requires IsTrimmed(s)
    ensures Strip(s) == s
  {
  }

  lemma StripStartsWithNonSpace(s: string, t: string)
    requires |t| > 0 && !IsSpace(t[0])
    ensures Strip(t + s) == RStrip(t + s)
  {
  }

  // ---------------------------------------------------------------------
  // Substring search: Python's `needle in haystack`

  predicate OccursAt(s: string, n: string, i: int) {
    0 <= i && i + |n| <= |s| && s[i..i + |n|] == n
  }

  predicate Contains(s: string, n: string) {
    exists i | 0 <= i <= |s| - |n| :: OccursAt(s, n, i)
  }

  lemma ContainsAt(s: string, n: string, i: int)
    requires OccursAt(s, n, i)
    ensures Contains(s, n)
  {
  }

  /** A needle found inside a part is found in any string containing that part. */
  lemma ContainsMiddle(a: string, b: string, c: string, n: string)
    requires Contains(b, n)
    ensures Contains(a + b + c, n)
  {
    var i :| 0 <= i <= |b| - |n| && OccursAt(b, n, i);
    assert (a + b + c)[|a| + i..|a| + i + |n|] == b[i..i + |n|];
    ContainsAt(a + b + c, n, |a| + i);
  }

  lemma ContainsInLeft(a: string, b: string, n: string)
    requires Contains(a, n)
    ensures Contains(a + b, n)
  {
    var i :| 0 <= i <= |a| - |n| && OccursAt(a, n, i);
    assert (a + b)[i..i + |n|] == a[i..i + |n|];
    ContainsAt(a + b, n, i);
  }

  lemma ContainsInRight(a: string, b: string, n: string)
    requires Contains(b, n)
    ensures Contains(a + b, n)
  {
    var i :| 0 <= i <= |b| - |n| && OccursAt(b, n, i);
    assert (a + b)[|a| + i..|a| + i + |n|] == b[i..i + |n|];
    ContainsAt(a + b, n, |a| + i);
  }

  lemma ContainsSelf(n: string)
    ensures Contains(n, n)
  {
    assert OccursAt(n, n, 0);
  }

  /**
   * For a needle that neither starts nor ends with whitespace, searching the
   * stripped string is the same as searching the original.
   */
  lemma ContainsStrip(s: string, n: string)
    requires |n| > 0 && !IsSpace(n[0]) && !IsSpace(n[|n| - 1])
    ensures Contains(Strip(s), n) <==> Contains(s, n)
  {
    var a, b := StripSlice(s);
    ContainsInSliceIff(s, a, b, n);
  }

  /** Dropping whitespace at both ends keeps exactly the occurrences of a needle without whitespace at its ends. */
  lemma ContainsInSliceIff(s: string, a: nat, b: nat, n: string)
    requires a <= b <= |s|
    requires forall k :: 0 <= k < a ==> IsSpace(s[k])
    requires forall k :: b <= k < |s| ==> IsSpace(s[k])
    requires |n| > 0 && !IsSpace(n[0]) && !IsSpace(n[|n| - 1])
    ensures Contains(s[a..b], n) <==> Contains(s, n)
  {
    var t := s[a..b];
    if Contains(t, n) {
      var i :| 0 <= i <= |t| - |n| && OccursAt(t, n, i);
      OccursInSlice(s, a, b, n, i);
      ContainsAt(s, n, a + i);
    }
    if Contains(s, n) {
      var i :| 0 <= i <= |s| - |n| && OccursAt(s, n, i);
      OccursInsideSlice(s, a, b, n, i);
      ContainsAt(t, n, i - a);
    }
  }

  lemma OccursInSlice(s: string, a: nat, b: nat, n: string, i: int)
    requires a <= b <= |s| && OccursAt(s[a..b], n, i)
    ensures OccursAt(s, n, a + i)
  {
    var t := s[a..b];
    forall k | 0 <= k < |n| ensures s[a + i..a + i + |n|][k] == n[k] {
      assert t[i..i + |n|][k] == n[k];
      assert t[i + k] == s[a + i + k];
    }
    assert s[a + i..a + i + |n|] == n;
  }

  /** A needle that neither starts nor ends with whitespace, found in s, lies inside any slice that only drops whitespace. */
  lemma OccursInsideSlice(s: string, a: nat, b: nat, n: string, i: int)
    requires a <= b <= |s|
    requires forall k :: 0 <= k < a ==> IsSpace(s[k])
    requires forall k :: b <= k < |s| ==> IsSpace(s[k])
    requires |n| > 0 && !IsSpace(n[0]) && !IsSpace(n[|n| - 1])
    requires OccursAt(s, n, i)
    ensures OccursAt(s[a..b], n, i - a)
  {
    assert s[i] == n[0] by { assert s[i..i + |n|][0] == n[0]; }
    assert a <= i;
    assert s[i + |n| - 1] == n[|n| - 1] by { assert s[i..i + |n|][|n| - 1] == n[|n| - 1]; }
    assert i + |n| <= b;
    var t := s[a..b];
    forall k | 0 <= k < |n|
      ensures t[i - a..i - a + |n|][k] == n[k]
    {
      assert t[i - a + k] == s[i + k];
      assert s[i..i + |n|][k] == n[k];
    }
    assert t[i - a..i - a + |n|] == n;
  }

  predicate StartsWith(s: string, p: string) {
    |p| <= |s| && s[..|p|] == p
  }

  predicate EndsWith(s: string, p: string) {
    |p| <= |s| && s[|s| - |p|..] == p
  }

  // ---------------------------------------------------------------------
  // split / join

  function IndexOf(s: string, c: char): (i: nat)
    requires c in s
    ensures i < |s| && s[i] == c && c !in s[..i]
  {
    if s[0] == c then 0 else 1 + IndexOf(s[1..], c)
  }

  /** `s.split(c)` for a one-character separator: never empty, no part holds the separator. */
  function Split(s: string, c: char): (parts: seq<string>)
    ensures |parts| >= 1
    ensures forall k :: 0 <= k < |parts| ==> c !in parts[k]
    decreases |s|
  {
    if c in s then
      var i := IndexOf(s, c);
      [s[..i]] + Split(s[i + 1..], c)
    else
      [s]
  }

  /** The first part of a split is the text before the first separator. */
  lemma SplitFirst(s: string, c: char)
    ensures Split(s, c)[0] == if c in s then s[..IndexOf(s, c)] else s
  {
  }

  /** Splitting text that holds a separator at the joint splits each side separately. */
  lemma {:induction false} SplitConcat(a: string, b: string, c: char)
    ensures Split(a + [c] + b, c) == Split(a, c) + Split(b, c)
    decreases |a|
  {
    if c in a {
      var i := IndexOf(a, c);
      var rest := a[i + 1..];
      calc {
        Split(a + [c] + b, c);
        { SplitAtFirst(a, b, c); }
        [a[..i]] + Split(rest + [c] + b, c);
        { SplitConcat(rest, b, c); }
        [a[..i]] + (Split(rest, c) + Split(b, c));
        ([a[..i]] + Split(rest, c)) + Split(b, c);
        { SplitHead(a, c); }
        Split(a, c) + Split(b, c);
      }
    } else {
      SplitAtJoint(a, b, c);
    }
  }

  lemma {:induction false} SplitHead(a: string, c: char)
    requires c in a
    ensures Split(a, c) == [a[..IndexOf(a, c)]] + Split(a[IndexOf(a, c) + 1..], c)
  {
  }

  /** When the left side holds the separator, the first part is cut there. */
  lemma {:induction false} SplitAtFirst(a: string, b: string, c: char)
    requires c in a
    ensures Split(a + [c] + b, c) == [a[..IndexOf(a, c)]] + Split(a[IndexOf(a, c) + 1..] + [c] + b, c)
  {
    var s := a + [c] + b;
    var i := IndexOf(a, c);
    assert StartsWith(s, a) by { assert s[..|a|] == a; }
    IndexOfPrefix(s, a, c);
    SplitHead(s, c);
    assert s[..i] == a[..i];
    assert s[i + 1..] == a[i + 1..] + [c] + b;
  }

  /** When only the joint holds the separator, the left side is the first part. */
  lemma {:induction false} SplitAtJoint(a: string, b: string, c: char)
    requires c !in a
    ensures Split(a + [c] + b, c) == [a] + Split(b, c)
  {
    var s := a + [c] + b;
    assert StartsWith(s, a + [c]) by { assert s[..|a| + 1] == a + [c]; }
    IndexOfPrefix(s, a + [c], c);
    LastIndexOf(a, c);
    assert s[..|a|] == a && s[|a| + 1..] == b;
  }

  lemma LastIndexOf(a: string, c: char)
    requires c !in a
    ensures IndexOf(a + [c], c) == |a|
    decreases |a|
  {
    if |a| > 0 {
      assert (a + [c])[1..] == a[1..] + [c];
      LastIndexOf(a[1..], c);
    }
  }

  /** The first occurrence of c in a text is its first occurrence in any prefix that holds it. */
  lemma IndexOfPrefix(s: string, p: string, c: char)
    requires StartsWith(s, p) && c in p
    ensures c in s && IndexOf(s, c) == IndexOf(p, c)
    decreases |p|
  {
    assert s[0] == p[0];
    if s[0] != c {
      assert c in p[1..];
      assert StartsWith(s[1..], p[1..]) by { assert s[1..][..|p| - 1] == p[1..]; }
      IndexOfPrefix(s[1..], p[1..], c);
    }
  }

  /** `sep.join(parts)`. */
  function Join(parts: seq<string>, sep: string): string
    decreases |parts|
  {
    if |parts| == 0 then ""
    else if |parts| == 1 then parts[0]
    else parts[0] + sep + Join(parts[1..], sep)
  }

  /** Joining the parts of a split with the separator gives back the original text. */
  lemma {:induction false} JoinSplit(s: string, c: char)
    ensures Join(Split(s, c), [c]) == s
    decreases |s|
  {
    if c in s {
      var i := IndexOf(s, c);
      var rest := s[i + 1..];
      JoinSplit(rest, c);
      var parts := Split(s, c);
      assert parts == [s[..i]] + Split(rest, c);
      assert |parts| > 1 && parts[0] == s[..i] && parts[1..] == Split(rest, c);
      assert Join(parts, [c]) == s[..i] + [c] + rest;
      assert s == s[..i] + [c] + rest;
    }
  }

  lemma JoinAppend(parts: seq<string>, last: string, sep: string)
    requires |parts| > 0
    ensures Join(parts + [last], sep) == Join(parts, sep) + sep + last
    decreases |parts|
  {
    if |parts| == 1 {
      assert parts + [last] == [parts[0], last];
      assert [parts[0], last][1..] == [last];
    } else {
      assert (parts + [last])[1..] == parts[1..] + [last];
      JoinAppend(parts[1..], last, sep);
    }
  }

  /** Splitting a join on a separator that no part contains gives back the parts. */
  lemma {:induction false} SplitJoin(parts: seq<string>, c: char)
    requires |parts| > 0
    requires forall k :: 0 <= k < |parts| ==> c !in parts[k]
    ensures Split(Join(parts, [c]), c) == parts
    decreases |parts|
  {
    SplitNoSeparator(parts[0], c);
    if |parts| > 1 {
      var rest := Join(parts[1..], [c]);
      assert Join(parts, [c]) == parts[0] + [c] + rest;
      SplitJoin(parts[1..], c);
      SplitConcat(parts[0], rest, c);
      assert parts == [parts[0]] + parts[1..];
    }
  }

  lemma SplitNoSeparator(s: string, c: char)
    requires c !in s
    ensures Split(s, c) == [s]
  {
  }

  /** Right-stripping keeps a prefix that is followed somewhere by a non-space character. */
  lemma RStripKeepsPrefix(p: string, q: string, i: nat)
    requires i < |q| && !IsSpace(q[i])
    ensures StartsWith(RStrip(p + q), p)
  {
    var s := p + q;
    var r := RStrip(s);
    assert s[|p| + i] == q[i];
    assert |r| > |p| + i;
    assert r[..|p|] == s[..|p|] == p;
  }

  /** A joined text that is not empty starts with the first part when that part is not empty. */
  lemma JoinStartsWithFirst(parts: seq<string>, sep: string)
    requires |parts| > 0
    ensures StartsWith(Join(parts, sep), parts[0])
  {
  }

  lemma JoinNoChar(parts: seq<string>, sep: string, c: char)
    requires c !in sep
    requires forall k :: 0 <= k < |parts| ==> c !in parts[k]
    ensures c !in Join(parts, sep)
    decreases |parts|
  {
    if |parts| > 1 {
      JoinNoChar(parts[1..], sep, c);
    }
  }

  // ---------------------------------------------------------------------
  // Integers as decimal text

  function DigitChar(d: nat): (c: char)
    requires d < 10
    ensures IsDigit(c)
  {
    ('0' as int + d) as char
  }

  /** `str(n)` for a natural number. */
  function NatToString(n: nat): (s: string)
    ensures |s| >= 1
    ensures forall i :: 0 <= i < |s| ==> IsDigit(s[i])
  {
    if n < 10 then [DigitChar(n)] else NatToString(n / 10) + [DigitChar(n % 10)]
  }

  /** `str(n)` for any integer. */
  function IntToString(n: int): (s: string)
    ensures |s| >= 1 && '.' !in s && ':' !in s
  {
    if n < 0 then "-" + NatToString(-n) else NatToString(n)
  }

  predicate AllDigits(s: string) {
    forall i :: 0 <= i < |s| ==> IsDigit(s[i])
  }

  /** `int(s)` for a string of decimal digits (leading zeros allowed). */
  function DigitsValue(s: string): nat
    requires AllDigits(s)
  {
    if s == [] then 0 else DigitsValue(s[..|s| - 1]) * 10 + (s[|s| - 1] as int - '0' as int)
  }

  /** `int(str(n)) == n`. */
  lemma {:induction false} DigitsValueOfNatToString(n: nat)
    ensures DigitsValue(NatToString(n)) == n
  {
    var s := NatToString(n);
    if n >= 10 {
      DigitsValueOfNatToString(n / 10);
      assert s[..|s| - 1] == NatToString(n / 10);
    }
  }

  /** The first `n` characters, as Python's `s[:n]` for `n >= 0`. */
  function Prefix(s: string, n: nat): (r: string)
    ensures |r| == if |s| <= n then |s| else n
    ensures StartsWith(s, r)
  {
    if |s| <= n then s else s[..n]
  }
}
