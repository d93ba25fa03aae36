/**
 * The pieces of the .NET string and integer library that the converters rely on:
 * `int.Parse` on decimal digit strings, `string.Split` on one separator character,
 * zero-padded decimal formatting (the inverse used to state round trips), and the
 * wrap-around of unchecked 32-bit `int` arithmetic.
 */
module Strings {

  const Int32Min: int := -0x8000_0000
  const Int32Max: int := 0x7fff_ffff
  const Int32Span: int := 0x1_0000_0000

  predicate IsDigit(c: char)
  {
    '0' <= c <= '9'
  }

  predicate AllDigits(s: string)
  {
    forall i :: 0 <= i < |s| ==> IsDigit(s[i])
  }

  function Pow10(n: nat): (r: nat)
    ensures r >= 1
  {
    if n == 0 then 1 else 10 * Pow10(n - 1)
  }

  function DigitValue(c: char): (d: nat)
    requires IsDigit(c)
    ensures d < 10
  {
    (c as int) - ('0' as int)
  }

  function DigitChar(d: nat): (c: char)
    requires d < 10
    ensures IsDigit(c) && DigitValue(c) == d
  {
    (('0' as int) + d) as char
  }

  /** The decimal value of a digit string, most significant digit first; "" stands for 0. */
  function DigitsValue(s: string): nat
    requires AllDigits(s)
  {
    if s == [] then 0 else DigitsValue(s[..|s| - 1]) * 10 + DigitValue(s[|s| - 1])
  }

  /** A string of n digits denotes a number below 10^n. */
  lemma {:induction false} DigitsValueBound(s: string)
    requires AllDigits(s)
    ensures DigitsValue(s) < Pow10(|s|)
  {
    if s != [] {
      var init := s[..|s| - 1];
      DigitsValueBound(init);
      assert DigitsValue(init) + 1 <= Pow10(|init|);
      assert DigitsValue(s) < (DigitsValue(init) + 1) * 10;
    }
  }

  /** Reading a concatenation shifts the first part left by the length of the second. */
  lemma {:induction false} DigitsValueAppend(a: string, b: string)
    requires AllDigits(a) && AllDigits(b)
    ensures AllDigits(a + b)
    ensures DigitsValue(a + b) == DigitsValue(a) * Pow10(|b|) + DigitsValue(b)
  {
    if b != [] {
      var b' := b[..|b| - 1];
      assert (a + b)[..|a + b| - 1] == a + b';
      assert (a + b)[|a + b| - 1] == b[|b| - 1];
      DigitsValueAppend(a, b');
      ShiftDigit(DigitsValue(a), Pow10(|b'|), DigitsValue(b'), DigitValue(b[|b| - 1]));
    } else {
      assert a + b == a;
    }
  }

  lemma ShiftDigit(x: int, p: int, y: int, d: int)
    ensures (x * p + y) * 10 + d == x * (10 * p) + (y * 10 + d)
  {
  }

  /** `int.Parse(s)` succeeds: a non-empty digit string whose value fits a signed 32-bit int. */
  predicate ParsesAsInt(s: string)
  {
    |s| > 0 && AllDigits(s) && DigitsValue(s) <= Int32Max
  }

  /** `int.Parse(s)` on the strings it accepts. */
  function ParseInt(s: string): int
    requires ParsesAsInt(s)
  {
    DigitsValue(s)
  }

  /** Up to nine digits always fit in an int, so int.Parse accepts them. */
  lemma ShortDigitsParse(s: string)
    requires 0 < |s| <= 9 && AllDigits(s)
    ensures ParsesAsInt(s)
  {
    DigitsValueBound(s);
    Pow10Monotone(|s|, 9);
  }

  lemma {:induction false} Pow10Monotone(m: nat, n: nat)
    requires m <= n
    ensures Pow10(m) <= Pow10(n)
  {
    if m < n {
      Pow10Monotone(m, n - 1);
    }
  }

  /** The last w decimal digits of n, zero-padded to width w (the "D2" format for w = 2). */
  function Pad(n: nat, w: nat): (s: string)
    ensures |s| == w && AllDigits(s)
    decreases w
  {
    if w == 0 then [] else Pad(n / 10, w - 1) + [DigitChar(n % 10)]
  }

  /** Reading back a padded number gives the number, when it fits the width. */
  lemma {:induction false} PadValue(n: nat, w: nat)
    requires n < Pow10(w)
    ensures DigitsValue(Pad(n, w)) == n
  {
    if w > 0 {
      var s := Pad(n, w);
      assert s[..|s| - 1] == Pad(n / 10, w - 1);
      assert s[|s| - 1] == DigitChar(n % 10);
      PadValue(n / 10, w - 1);
    }
  }

  /** `s.Split(sep)`: the maximal separator-free pieces, empty pieces kept. */
  function Split(s: string, sep: char): (parts: seq<string>)
    ensures |parts| >= 1
  {
    if s == [] then [[]]
    else
      var rest := Split(s[1..], sep);
      if s[0] == sep then [[]] + rest else [[s[0]] + rest[0]] + rest[1..]
  }

  /** The pieces put back together with the separator between them (`string.Join`). */
  function Join(parts: seq<string>, sep: char): string
    requires |parts| >= 1
  {
    if |parts| == 1 then parts[0] else parts[0] + [sep] + Join(parts[1..], sep)
  }

  /** Splitting a join of separator-free pieces gives back the pieces. */
  lemma {:induction false} SplitOfJoin(parts: seq<string>, sep: char)
    requires |parts| >= 1
    requires forall i :: 0 <= i < |parts| ==> sep !in parts[i]
    ensures Split(Join(parts, sep), sep) == parts
  {
    if |parts| == 1 {
      SplitFree(parts[0], sep);
    } else {
      SplitOfJoin(parts[1..], sep);
      SplitAfterPiece(parts[0], sep, Join(parts[1..], sep));
      assert [parts[0]] + parts[1..] == parts;
    }
  }

  lemma {:induction false} SplitFree(a: string, sep: char)
    requires sep !in a
    ensures Split(a, sep) == [a]
  {
    if a != [] {
      SplitFree(a[1..], sep);
      assert [a[0]] + a[1..] == a;
    }
  }

  lemma {:induction false} SplitAfterPiece(a: string, sep: char, rest: string)
    requires sep !in a
    ensures Split(a + [sep] + rest, sep) == [a] + Split(rest, sep)
  {
    var s := a + [sep] + rest;
    if a == [] {
      assert s[1..] == rest;
    } else {
      assert s[1..] == a[1..] + [sep] + rest;
      SplitAfterPiece(a[1..], sep, rest);
      assert [a[0]] + a[1..] == a;
    }
  }

  /** The result of unchecked 32-bit two's-complement arithmetic on the exact value x. */
  function Wrap32(x: int): (r: int)
    ensures Int32Min <= r <= Int32Max
    ensures (x - r) % Int32Span == 0
    ensures Int32Min <= x <= Int32Max ==> r == x
  {
    (x - Int32Min) % Int32Span + Int32Min
  }
}
