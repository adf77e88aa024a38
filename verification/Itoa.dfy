/** The hand-written decimal formatting of a 64-bit integer. */
module Itoa {
  import opened Options

  type byte = x: int | 0 <= x < 256

  const Min64: int := -0x8000_0000_0000_0000
  const Max64: int := 0x7FFF_FFFF_FFFF_FFFF
  const Zero: byte := 48
  const Minus: byte := 45

  predicate IsInt64(n: int) { Min64 <= n <= Max64 }

  /** Two's complement negation: the minimum is its own negative. */
  function Negate(n: int): (m: int)
    requires IsInt64(n)
    ensures IsInt64(m) && (m == -n <==> n != Min64)
  {
    if n == Min64 then Min64 else -n
  }

  function Pow10(k: nat): nat { if k == 0 then 1 else 10 * Pow10(k - 1) }

  predicate IsDigit(b: byte) { Zero <= b <= Zero + 9 }

  predicate AllDigits(s: seq<byte>) { forall i :: 0 <= i < |s| ==> IsDigit(s[i]) }

  /** The number that a sequence of digits denotes, read from the left. */
  function Value(s: seq<byte>): nat
    requires AllDigits(s)
  {
    if s == [] then 0 else 10 * Value(s[..|s| - 1]) + (s[|s| - 1] - Zero)
  }

  /** Reading a decimal number: an optional minus, then at least one digit. */
  function Parse(s: seq<byte>): Option<int> {
    if s != [] && s[0] == Minus then
      if s[1..] != [] && AllDigits(s[1..]) then Some(0 - Value(s[1..]) as int) else None
    else if s != [] && AllDigits(s) then Some(Value(s))
    else None
  }

  /** No zero in front, but for the number zero itself, which has no sign. */
  predicate Canonical(s: seq<byte>) {
    s == [Zero] || (s != [] && s[0] != Zero && (s[0] == Minus ==> |s| > 1 && s[1] != Zero))
  }

  /** A digit in front counts as many times as its place says. */
  lemma {:induction false} ValueWithFront(d: byte, s: seq<byte>)
    requires IsDigit(d) && AllDigits(s)
    ensures AllDigits([d] + s) && Value([d] + s) == (d - Zero) * Pow10(|s|) + Value(s)
  {
    if s == [] {
      assert [d] + s == [d] && [d][..0] == [];
    } else {
      ValueWithFront(d, s[..|s| - 1]);
      assert ([d] + s)[..|s|] == [d] + s[..|s| - 1];
    }
  }

  lemma SameQuotientAndDigit(a: nat, x: nat, b: nat, y: nat)
    requires x < 10 && y < 10 && 10 * a + x == 10 * b + y
    ensures a == b && x == y
  {
  }

  lemma {:induction false} Positive(s: seq<byte>)
    requires AllDigits(s) && s != [] && s[0] != Zero
    ensures Value(s) > 0
  {
    if |s| > 1 { Positive(s[..|s| - 1]); }
  }

  /** A number has only one representation without a zero in front. */
  lemma {:induction false} OneRepresentation(s: seq<byte>, t: seq<byte>)
    requires AllDigits(s) && AllDigits(t) && Value(s) == Value(t)
    requires (s != [] ==> s[0] != Zero) && (t != [] ==> t[0] != Zero)
    ensures s == t
  {
    if s == [] || t == [] {
      if s != [] { Positive(s); }
      if t != [] { Positive(t); }
    } else {
      var (m, n) := (|s| - 1, |t| - 1);
      SameQuotientAndDigit(Value(s[..m]), s[m] - Zero, Value(t[..n]), t[n] - Zero);
      OneRepresentation(s[..m], t[..n]);
      assert s == s[..m] + [s[m]] && t == t[..n] + [t[n]];
    }
  }

  /** Moving the last digit of n to the digits already written. */
  lemma DigitMoves(n: nat, k: nat)
    ensures n * Pow10(k) == n / 10 * Pow10(k + 1) + n % 10 * Pow10(k)
  {
    var (q, r) := (n / 10, n % 10);
    assert n == 10 * q + r;
    calc {
      n * Pow10(k);
      (10 * q + r) * Pow10(k);
      10 * q * Pow10(k) + r * Pow10(k);
      q * (10 * Pow10(k)) + r * Pow10(k);
    }
  }

  lemma PowersFit()
    ensures Max64 < Pow10(19) && Pow10(0) == 1
  {
    assert Pow10(5) == 100_000;
    assert Pow10(10) == 100_000 * Pow10(5);
    assert Pow10(15) == 100_000 * Pow10(10);
    assert Pow10(19) == 10_000 * Pow10(15);
  }

  /** The digits written so far and the number still to be written, for a positive number and 20 places. */
  ghost predicate Halfway(number: int, n: int, tail: seq<byte>) {
    && |tail| <= 19 && AllDigits(tail)
    && if number <= 0 then n == number && tail == []
       else
         && 0 <= n < Pow10(19 - |tail|) && n * Pow10(|tail|) + Value(tail) == number
         && (n == 0 ==> tail != [] && tail[0] != Zero)
  }

  lemma OneMoreDigit(number: int, n: int, tail: seq<byte>)
    requires Halfway(number, n, tail) && n > 0
    ensures Halfway(number, n / 10, [n % 10 + Zero] + tail)
  {
    var d: byte := n % 10 + Zero;
    assert number > 0;
    assert |tail| < 19;
    DigitMoves(n, |tail|);
    ValueWithFront(d, tail);
    assert Pow10(19 - |tail|) == 10 * Pow10(18 - |tail|);
  }

  /** The loop: the digits of a positive number end up at the end of the array, and leave room for a sign. */
  method WriteDigits(number: int, buf: array<byte>) returns (pos: nat)
    requires number <= Max64 && buf.Length == 20
    modifies buf
    ensures 1 <= pos <= 20 && AllDigits(buf[pos..])
    ensures number > 0 ==> pos < 20 && Value(buf[pos..]) == number && buf[pos] != Zero
    ensures number <= 0 ==> pos == 20
  {
    var n := number;
    pos := buf.Length;
    PowersFit();
    while n > 0
      invariant 1 <= pos <= 20 && Halfway(number, n, buf[pos..])
    {
      OneMoreDigit(number, n, buf[pos..]);
      ghost var tail := buf[pos..];
      pos := pos - 1;
      buf[pos] := n % 10 + Zero;
      assert buf[pos..] == [n % 10 + Zero] + tail;
      n := n / 10;
    }
  }

  /**
   * Every access to the 20 bytes is inside them. The result reads back as the number, in its one canonical form, for
   * every number but the smallest, which comes out as a lonely minus.
   */
  method Itoa(number: int) returns (s: seq<byte>)
    requires IsInt64(number)
    ensures Parse(s) == Some(number) <==> number != Min64
    ensures number != Min64 ==> Canonical(s) && |s| <= 20
    ensures number == Min64 ==> s == [Minus]
  {
    if number == 0 {
      assert Value([Zero]) == 0 by { assert [Zero][..0] == []; }
      return [Zero];
    }
    var n := number;
    var neg := n < 0;
    if neg {
      n := Negate(n);
    }
    var buf := new byte[20](_ => 0);
    var pos := WriteDigits(n, buf);
    ghost var digits := buf[pos..];
    if neg {
      pos := pos - 1;
      buf[pos] := Minus;
      assert buf[pos..] == [Minus] + digits;
      assert buf[pos..][1..] == digits;
    }
    return buf[pos..];
  }
}
