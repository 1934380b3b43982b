/** Values shared by every part of the model: the Python-level types the
    pipeline passes around (optional values, raised exceptions, points,
    frames) and the integer conversions it performs on them. */
module Common {

  datatype Option<T> = None | Some(value: T)

  /** The exceptions the modelled code raises or lets propagate. */
  datatype Error =
    | ValueError(message: string)
    | RuntimeError(message: string)
    | IndexError          // a numpy boolean mask whose length does not match the array
    | ZeroDivisionError
    | ForeignError        // an exception raised inside OpenCV or another foreign call

  /** A value, or the exception that was raised instead of returning one. */
  datatype Result<T> = Ok(value: T) | Raise(error: Error)
  {
    /** The value, with any exception swallowed. */
    function ToOption(): Option<T>
    {
      if Ok? then Some(value) else None
    }
  }

  /** A point in image space (pixels) or pitch space (centimetres). */
  datatype Point = Point(x: real, y: real)

  /** A bounding box `xyxy` in image pixels (numpy floats). */
  datatype Box = Box(x1: real, y1: real, x2: real, y2: real)
  {
    /** supervision's `Position.BOTTOM_CENTER` anchor. */
    function BottomCenter(): Point { Point((x1 + x2) / 2.0, y2) }

    /** supervision's `Position.CENTER` anchor. */
    function Center(): Point { Point((x1 + x2) / 2.0, (y1 + y2) / 2.0) }
  }

  /** A decoded video frame; only its shape (rows, columns) is visible. */
  datatype Frame = Frame(id: nat, height: int, width: int)

  /** Python `int(r)` for a float `r`: truncation toward zero. */
  function Trunc(r: real): (t: int)
    ensures 0.0 <= r ==> 0 <= t && t as real <= r < t as real + 1.0
    ensures r < 0.0 ==> t <= 0 && t as real - 1.0 < r <= t as real
  {
    if r >= 0.0 then r.Floor else -((-r).Floor)
  }

  /** `np.clip(v, lo, hi)` on a scalar, that is `minimum(maximum(v, lo), hi)`. */
  function Clip(v: int, lo: int, hi: int): (c: int)
    ensures lo <= hi ==> lo <= c <= hi
    ensures lo <= v <= hi ==> c == v
    ensures v < lo <= hi ==> c == lo
    ensures lo <= hi < v ==> c == hi
  {
    Min(if v < lo then lo else v, hi)
  }

  /** `f(s[0]) + f(s[1]) + ...`: the concatenation of what `f` gives for each element, in order. */
  function ConcatMap<T, U>(s: seq<T>, f: T -> seq<U>): seq<U>
  {
    if s == [] then [] else ConcatMap(s[..|s| - 1], f) + f(s[|s| - 1])
  }

  lemma {:induction false} ConcatMapAppend<T, U>(a: seq<T>, b: seq<T>, f: T -> seq<U>)
    ensures ConcatMap(a + b, f) == ConcatMap(a, f) + ConcatMap(b, f)
    decreases |b|
  {
    if b != [] {
      var b' := b[..|b| - 1];
      assert (a + b)[..|a + b| - 1] == a + b';
      assert (a + b)[|a + b| - 1] == b[|b| - 1];
      ConcatMapAppend(a, b', f);
      calc {
        ConcatMap(a + b, f);
        ConcatMap(a + b', f) + f(b[|b| - 1]);
        (ConcatMap(a, f) + ConcatMap(b', f)) + f(b[|b| - 1]);
        ConcatMap(a, f) + (ConcatMap(b', f) + f(b[|b| - 1]));
        ConcatMap(a, f) + ConcatMap(b, f);
      }
    } else {
      assert a + b == a;
    }
  }

  /** Taking one more element of a sequence appends that element. */
  lemma TakeStep<T>(s: seq<T>, k: nat)
    requires k < |s|
    ensures s[..k + 1] == s[..k] + [s[k]]
  {
  }

  /** The elements of `s` that satisfy `p`, in their order in `s`. */
  function Filter<T>(s: seq<T>, p: T -> bool): (r: seq<T>)
    ensures |r| <= |s|
    ensures forall x :: x in r ==> x in s && p(x)
    ensures forall x :: x in s && p(x) ==> x in r
  {
    if s == [] then [] else Filter(s[..|s| - 1], p) + (if p(s[|s| - 1]) then [s[|s| - 1]] else [])
  }

  /** Filtering is done element by element, so it keeps the order of the input. */
  lemma {:induction false} FilterAppend<T>(a: seq<T>, b: seq<T>, p: T -> bool)
    ensures Filter(a + b, p) == Filter(a, p) + Filter(b, p)
    decreases |b|
  {
    if b == [] {
      assert a + b == a;
    } else {
      var b' := b[..|b| - 1];
      assert (a + b)[..|a + b| - 1] == a + b';
      assert (a + b)[|a + b| - 1] == b[|b| - 1];
      FilterAppend(a, b', p);
    }
  }

  lemma FilterAppendThree<T>(a: seq<T>, b: seq<T>, c: seq<T>, p: T -> bool)
    ensures Filter(a + b + c, p) == Filter(a, p) + Filter(b, p) + Filter(c, p)
  {
    FilterAppend(a + b, c, p);
    FilterAppend(a, b, p);
  }

  /** Appending a part of which nothing qualifies and then a part of which
      everything does adds exactly the latter to what is kept. */
  lemma FilterStep<T>(whole: seq<T>, prior: seq<T>, none: seq<T>, all: seq<T>, p: T -> bool)
    requires whole == prior + none + all
    requires Filter(none, p) == [] && Filter(all, p) == all
    ensures Filter(whole, p) == Filter(prior, p) + all
  {
    FilterAppendThree(prior, none, all, p);
    assert Filter(prior, p) + [] == Filter(prior, p);
  }

  /** Filtering keeps nothing when no element qualifies. */
  lemma {:induction false} FilterNone<T>(s: seq<T>, p: T -> bool)
    requires forall x :: x in s ==> !p(x)
    ensures Filter(s, p) == []
    decreases |s|
  {
    if s != [] {
      assert s[|s| - 1] in s;
      assert forall x :: x in s[..|s| - 1] ==> x in s;
      FilterNone(s[..|s| - 1], p);
    }
  }

  /** A single element is kept exactly when it qualifies. */
  lemma FilterOne<T>(x: T, p: T -> bool)
    ensures Filter([x], p) == if p(x) then [x] else []
  {
    assert [x][..0] == [];
  }

  function Min(a: int, b: int): int { if a <= b then a else b }

  function Abs(a: int): nat { if a < 0 then -a else a }

  // ---------------------------------------------------------------------
  // Decimal rendering, as done by f-strings: f"{n}" and f"{n:05d}".
  // ---------------------------------------------------------------------

  predicate IsDigit(ch: char) { '0' <= ch <= '9' }

  predicate IsDigits(s: string) { forall i :: 0 <= i < |s| ==> IsDigit(s[i]) }

  function DigitChar(d: nat): (ch: char)
    requires d < 10
    ensures IsDigit(ch) && (ch as int) - ('0' as int) == d
  {
    (('0' as int) + d) as char
  }

  /** The decimal digits of `n`, most significant first, without leading zeros. */
  function NatToString(n: nat): (s: string)
    ensures 1 <= |s| && IsDigits(s)
    ensures n < 10 <==> |s| == 1
    decreases n
  {
    if n < 10 then [DigitChar(n)] else NatToString(n / 10) + [DigitChar(n % 10)]
  }

  /** The number a digit string denotes (leading zeros allowed). */
  function DigitsValue(s: string): nat
    requires IsDigits(s)
  {
    if s == [] then 0
    else DigitsValue(s[..|s| - 1]) * 10 + ((s[|s| - 1] as int) - ('0' as int))
  }

  lemma {:induction false} NatToStringRoundTrip(n: nat)
    ensures DigitsValue(NatToString(n)) == n
    decreases n
  {
    if n >= 10 {
      var s := NatToString(n);
      assert s[..|s| - 1] == NatToString(n / 10);
      NatToStringRoundTrip(n / 10);
    }
  }

  lemma NatToStringInjective(a: nat, b: nat)
    ensures NatToString(a) == NatToString(b) ==> a == b
  {
    NatToStringRoundTrip(a);
    NatToStringRoundTrip(b);
  }

  /** f"{i}" for a Python int: a minus sign before the digits of a negative value. */
  function IntToString(i: int): (s: string)
    ensures 1 <= |s|
    ensures 2 <= |s| && s[0] == '-' && IsDigits(s[1..]) <==> i < 0
    ensures i >= 0 ==> IsDigits(s)
  {
    if i < 0 then "-" + NatToString(-i) else NatToString(i)
  }

  lemma IntToStringInjective(a: int, b: int)
    ensures IntToString(a) == IntToString(b) ==> a == b
  {
    if IntToString(a) == IntToString(b) {
      if a < 0 && b < 0 {
        assert IntToString(a)[1..] == NatToString(-a);
        assert IntToString(b)[1..] == NatToString(-b);
        NatToStringInjective(-a, -b);
      } else if a >= 0 && b >= 0 {
        NatToStringInjective(a, b);
      }
    }
  }

  /** `width` minus the length of `s`, or zero: how many zeros f"{n:0{width}d}" adds. */
  function PadCount(s: string, width: nat): nat { if |s| < width then width - |s| else 0 }

  function Zeros(k: nat): (z: string)
    ensures |z| == k && forall i :: 0 <= i < k ==> z[i] == '0'
  {
    if k == 0 then "" else Zeros(k - 1) + "0"
  }

  /** f"{n:05d}" for `n >= 0` (with width 5): the digits of `n`, left-padded with zeros. */
  function PaddedNat(n: nat, width: nat): (s: string)
    ensures |s| == if |NatToString(n)| < width then width else |NatToString(n)|
    ensures IsDigits(s)
    ensures s[|s| - |NatToString(n)|..] == NatToString(n)
  {
    var digits := NatToString(n);
    var z := Zeros(PadCount(digits, width));
    z + digits
  }

  lemma {:induction false} LeadingZeroValue(z: string, s: string)
    requires IsDigits(s)
    requires forall i :: 0 <= i < |z| ==> z[i] == '0'
    ensures IsDigits(z + s) && DigitsValue(z + s) == DigitsValue(s)
    decreases |s|
  {
    if s == [] {
      assert z + s == z;
      ZerosValue(z);
    } else {
      var zs := z + s;
      assert zs[..|zs| - 1] == z + s[..|s| - 1];
      LeadingZeroValue(z, s[..|s| - 1]);
    }
  }

  lemma {:induction false} ZerosValue(z: string)
    requires forall i :: 0 <= i < |z| ==> z[i] == '0'
    ensures IsDigits(z) && DigitsValue(z) == 0
    decreases |z|
  {
    if z != [] {
      ZerosValue(z[..|z| - 1]);
    }
  }

  lemma PaddedNatRoundTrip(n: nat, width: nat)
    ensures DigitsValue(PaddedNat(n, width)) == n
  {
    var digits := NatToString(n);
    LeadingZeroValue(Zeros(PadCount(digits, width)), digits);
    NatToStringRoundTrip(n);
  }

  /** Distinct frame numbers give distinct zero-padded names. */
  lemma PaddedNatInjective(a: nat, b: nat, width: nat)
    ensures PaddedNat(a, width) == PaddedNat(b, width) ==> a == b
  {
    PaddedNatRoundTrip(a, width);
    PaddedNatRoundTrip(b, width);
  }
}
