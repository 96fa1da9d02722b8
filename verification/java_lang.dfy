/**
 The pieces of Java semantics the controllers and services depend on:
 nullable references, calls that return or throw, 32-bit `int` arithmetic
 (wrap-around addition and division that rounds toward zero) and
 `String.trim`.
 */
module JavaLang {

  /** A Java reference that may be `null`. */
  datatype Option<+T> = None | Some(value: T)

  /** How a Java call ended: with the value it returned, or with the message
      of the exception it threw. */
  datatype Outcome<+T> = Returned(value: T) | Threw(message: string)

  const IntMin: int := -0x8000_0000
  const IntMax: int := 0x7fff_ffff
  const IntModulus: int := 0x1_0000_0000

  /** Values of Java's `int`. */
  type Int32 = x: int | -0x8000_0000 <= x <= 0x7fff_ffff

  predicate InIntRange(x: int) {
    IntMin <= x <= IntMax
  }

  function Min(a: int, b: int): int {
    if a <= b then a else b
  }

  function Max(a: int, b: int): int {
    if a >= b then a else b
  }

  /** The `int` a Java addition or multiplication produces for the
      mathematical value `x`: the one value in range congruent to it
      modulo 2^32. */
  function Wrap32(x: int): (r: Int32)
    ensures (r - x) % IntModulus == 0
    ensures InIntRange(x) ==> r == x
  {
    var k := (x - IntMin) / IntModulus;
    var r := x - IntMin - k * IntModulus + IntMin;
    assert r - x == -k * IntModulus;
    r
  }

  /** `r` is `x / 2` rounded toward zero: the remainder `x - 2 * r` has the
      sign of `x`. */
  predicate IsHalfTowardZero(x: int, r: int) {
    if x >= 0 then 0 <= x - 2 * r <= 1 else -1 <= x - 2 * r <= 0
  }

  /** Java's `x / 2` on an `int`. Dafny's `/` is Euclidean and rounds
      negative odd values down, Java's rounds them toward zero. */
  function JavaDiv2(x: Int32): (r: Int32)
    ensures IsHalfTowardZero(x, r)
  {
    if x >= 0 then x / 2 else -((-(x as int)) / 2)
  }

  /** Java's `(a + b) / 2` on two `int`s: the sum wraps around, then the
      division rounds toward zero. */
  function IntAverage(a: Int32, b: Int32): (r: Int32)
    ensures IsHalfTowardZero(Wrap32(a + b), r)
    ensures InIntRange(a + b) ==> Min(a, b) <= r <= Max(a, b)
  {
    JavaDiv2(Wrap32(a + b))
  }

  /** The two ways of halving part company on negative odd values. */
  lemma TruncationDiffersFromFloor()
    ensures JavaDiv2(-3) == -1
    ensures -3 / 2 == -2
  {
  }

  /** Averaging does not depend on the order of its arguments. */
  lemma IntAverageSymmetric(a: Int32, b: Int32)
    ensures IntAverage(a, b) == IntAverage(b, a)
  {
  }

  /** When the sum overflows, two positive `int`s average to a negative one. */
  lemma IntAverageOverflow()
    ensures IntAverage(0x4000_0000, 0x4000_0000) == -0x4000_0000
  {
  }

  // ---------------------------------------------------------------------
  // String.trim: drops every leading and trailing char whose code is at
  // most U+0020 (space and all control characters).

  predicate IsTrimmed(c: char) {
    c <= ' '
  }

  /** The number of chars `trim` drops from the front of `s`. */
  function LeadingTrimmed(s: string): (k: nat)
    ensures k <= |s|
    ensures forall i :: 0 <= i < k ==> IsTrimmed(s[i])
    ensures k < |s| ==> !IsTrimmed(s[k])
  {
    if |s| == 0 || !IsTrimmed(s[0]) then 0 else 1 + LeadingTrimmed(s[1..])
  }

  /** The number of chars `trim` drops from the back of `s`. */
  function TrailingTrimmed(s: string): (k: nat)
    ensures k <= |s|
    ensures forall i :: |s| - k <= i < |s| ==> IsTrimmed(s[i])
    ensures k < |s| ==> !IsTrimmed(s[|s| - 1 - k])
  {
    if |s| == 0 || !IsTrimmed(s[|s| - 1]) then 0 else 1 + TrailingTrimmed(s[..|s| - 1])
  }

  /** The slice `[lo, hi)` of `s` that `trim` keeps: everything outside it
      is trimmable, and a non-empty slice starts and ends with a char that
      is not. */
  function TrimBounds(s: string): (b: (nat, nat))
    ensures b.0 <= b.1 <= |s|
    ensures forall i :: 0 <= i < b.0 ==> IsTrimmed(s[i])
    ensures forall i :: b.1 <= i < |s| ==> IsTrimmed(s[i])
    ensures b.0 < b.1 ==> !IsTrimmed(s[b.0]) && !IsTrimmed(s[b.1 - 1])
  {
    var lo := LeadingTrimmed(s);
    var back := TrailingTrimmed(s[lo..]);
    (lo, |s| - back)
  }

  /** `r` is `s` with chars at most U+0020 dropped from both ends: the
      slice of `s` at `lo`, with only trimmable chars around it and none at
      its own ends. */
  predicate TrimsTo(s: string, lo: nat, r: string) {
    && lo + |r| <= |s|
    && r == s[lo..lo + |r|]
    && (forall i :: 0 <= i < lo ==> IsTrimmed(s[i]))
    && (forall i :: lo + |r| <= i < |s| ==> IsTrimmed(s[i]))
    && (|r| > 0 ==> !IsTrimmed(r[0]) && !IsTrimmed(r[|r| - 1]))
  }

  /** Java's `s.trim()`. */
  function Trim(s: string): (r: string)
    ensures exists lo :: TrimsTo(s, lo, r)
    ensures |r| == 0 <==> forall i :: 0 <= i < |s| ==> IsTrimmed(s[i])
  {
    var b := TrimBounds(s);
    var r := s[b.0..b.1];
    assert TrimsTo(s, b.0, r);
    r
  }

  /** At most one string is a trim of `s`, so `Trim` is the only function
      meeting its contract. */
  lemma TrimUnique(s: string, lo: nat, r: string)
    requires TrimsTo(s, lo, r)
    ensures r == Trim(s)
  {
  }

  /** Trimming a trimmed string changes nothing. */
  lemma TrimIdempotent(s: string)
    ensures Trim(Trim(s)) == Trim(s)
  {
  }
}
