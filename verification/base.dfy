/** Small value types shared by every component of the model. */
module Base {

  /** Python's `X | None`. */
  datatype Option<+T> = None | Some(value: T) {
    function GetOr(default: T): T {
      match this
      case Some(v) => v
      case None => default
    }
  }

  /** The value of a Python call that may raise instead of returning. */
  datatype Outcome<+T> = Ok(value: T) | Raised(reason: string)

  /** The message of the `IndexError` Python raises for a list index past the end. */
  const IndexOutOfRange: string := "list index out of range"

  /** A string of lower-case hexadecimal digits, as `hexdigest()` and `uuid4().hex` produce. */
  predicate IsLowerHexChar(c: char) {
    '0' <= c <= '9' || 'a' <= c <= 'f'
  }

  predicate IsLowerHex(s: string) {
    forall i :: 0 <= i < |s| ==> IsLowerHexChar(s[i])
  }

  /** `hashlib.sha256(...).hexdigest()`: 64 hex digits. */
  type Sha256Hex = s: string | |s| == 64 && IsLowerHex(s)
    witness seq(64, _ => '0')

  /** `uuid.uuid4().hex`: 32 hex digits. */
  type UuidHex = s: string | |s| == 32 && IsLowerHex(s)
    witness seq(32, _ => '0')

  /** The concatenation of `f(x)` over `xs`, in order: a loop that extends a list once per element. */
  /** `[f(x) for x in xs]`, built front to back. */
  function MapSeq<T, U>(xs: seq<T>, f: T -> U): seq<U>
    decreases |xs|
  {
    if |xs| == 0 then [] else MapSeq(xs[..|xs| - 1], f) + [f(xs[|xs| - 1])]
  }

  lemma {:induction false} MapSeqIndex<T, U>(xs: seq<T>, f: T -> U)
    ensures |MapSeq(xs, f)| == |xs|
    ensures forall i :: 0 <= i < |xs| ==> MapSeq(xs, f)[i] == f(xs[i])
    decreases |xs|
  {
    if |xs| > 0 {
      var init := xs[..|xs| - 1];
      MapSeqIndex(init, f);
      forall i | 0 <= i < |init|
        ensures xs[i] == init[i]
      {
      }
    }
  }

  function FlatMap<T, U>(xs: seq<T>, f: T -> seq<U>): seq<U>
    decreases |xs|
  {
    if |xs| == 0 then [] else FlatMap(xs[..|xs| - 1], f) + f(xs[|xs| - 1])
  }

  lemma FlatMapSnoc<T, U>(xs: seq<T>, x: T, f: T -> seq<U>)
    ensures FlatMap(xs + [x], f) == FlatMap(xs, f) + f(x)
  {
    assert (xs + [x])[..|xs|] == xs;
  }

  /** Concatenation distributes over appending the inputs. */
  lemma {:induction false} FlatMapAppend<T, U>(a: seq<T>, b: seq<T>, f: T -> seq<U>)
    ensures FlatMap(a + b, f) == FlatMap(a, f) + FlatMap(b, f)
    decreases |b|
  {
    if |b| == 0 {
      assert a + b == a;
    } else {
      var init, last := b[..|b| - 1], b[|b| - 1];
      assert b == init + [last];
      calc {
        FlatMap(a + b, f);
        { assert a + b == (a + init) + [last]; }
        FlatMap((a + init) + [last], f);
        { FlatMapSnoc(a + init, last, f); }
        FlatMap(a + init, f) + f(last);
        { FlatMapAppend(a, init, f); }
        FlatMap(a, f) + FlatMap(init, f) + f(last);
        { FlatMapSnoc(init, last, f); }
        FlatMap(a, f) + FlatMap(b, f);
      }
    }
  }

  /** Every element of the concatenation comes from the part of some input. */
  lemma {:induction false} FlatMapSource<T, U>(xs: seq<T>, f: T -> seq<U>, y: U) returns (x: T)
    requires y in FlatMap(xs, f)
    ensures x in xs && y in f(x)
    decreases |xs|
  {
    var init, last := xs[..|xs| - 1], xs[|xs| - 1];
    if y in FlatMap(init, f) {
      x := FlatMapSource(init, f, y);
    } else {
      x := last;
    }
  }

  /** The length of the concatenation is the sum of the parts' lengths. */
  lemma {:induction false} FlatMapLength<T, U>(xs: seq<T>, f: T -> seq<U>, n: T -> nat)
    requires forall x :: x in xs ==> |f(x)| == n(x)
    ensures |FlatMap(xs, f)| == SumOf(xs, n)
    decreases |xs|
  {
    if |xs| > 0 {
      FlatMapLength(xs[..|xs| - 1], f, n);
    }
  }

  function SumOf<T>(xs: seq<T>, n: T -> nat): nat
    decreases |xs|
  {
    if |xs| == 0 then 0 else SumOf(xs[..|xs| - 1], n) + n(xs[|xs| - 1])
  }
}
