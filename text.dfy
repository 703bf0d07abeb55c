// Decimal text as the store prints and reads it: Python's f"{n}" for a
// non-negative int, str.isdigit() and int() on ASCII digit strings, and the
// two-digit zero padding of strftime's %d, %m, %H and %M.

module Text {

  predicate IsDigit(c: char) {
    '0' <= c <= '9'
  }

  /** Python's s.isdigit() on ASCII text: non-empty and digits only. */
  predicate IsDigits(s: string) {
    |s| > 0 && AllDigits(s)
  }

  predicate AllDigits(s: string) {
    forall i :: 0 <= i < |s| ==> IsDigit(s[i])
  }

  function DigitChar(d: nat): (c: char)
    requires d < 10
    ensures IsDigit(c) && DigitValue(c) == d
  {
    ('0' as int + d) as char
  }

  function DigitValue(c: char): (d: nat)
    requires IsDigit(c)
    ensures d < 10
  {
    c as int - '0' as int
  }

  /** The decimal rendering of n, most significant digit first, no leading zero. */
  function Digits(n: nat): (s: string)
    ensures IsDigits(s)
    ensures s[0] == '0' ==> n == 0 && |s| == 1
    decreases n
  {
    if n < 10 then [DigitChar(n)] else Digits(n / 10) + [DigitChar(n % 10)]
  }

  /** int(s) for a string of ASCII digits (leading zeros allowed, as in int("08")). */
  function Value(s: string): nat
    requires AllDigits(s)
    decreases |s|
  {
    if s == [] then 0 else Value(s[..|s| - 1]) * 10 + DigitValue(s[|s| - 1])
  }

  /** Reading back what Digits printed gives the number again. */
  lemma {:induction false} ValueOfDigits(n: nat)
    ensures Value(Digits(n)) == n
    decreases n
  {
    if n >= 10 {
      var s := Digits(n);
      assert s[..|s| - 1] == Digits(n / 10);
      ValueOfDigits(n / 10);
    }
  }

  lemma DigitsInjective(m: nat, n: nat)
    requires Digits(m) == Digits(n)
    ensures m == n
  {
    ValueOfDigits(m);
    ValueOfDigits(n);
  }

  /** strftime's two-digit field (%d, %m, %H, %M): zero-padded to width two. */
  function Pad2(n: nat): (s: string)
    requires n < 100
    ensures |s| == 2 && IsDigits(s)
  {
    [DigitChar(n / 10), DigitChar(n % 10)]
  }

  lemma Pad2RoundTrip(n: nat)
    requires n < 100
    ensures Value(Pad2(n)) == n
  {
    var s := Pad2(n);
    assert s[..|s| - 1] == [DigitChar(n / 10)];
    assert Value([DigitChar(n / 10)]) == n / 10 by {
      assert [DigitChar(n / 10)][..0] == [];
    }
  }

  lemma Pad2Injective(m: nat, n: nat)
    requires m < 100 && n < 100
    requires Pad2(m) == Pad2(n)
    ensures m == n
  {
    Pad2RoundTrip(m);
    Pad2RoundTrip(n);
  }

  /** The number of leading digits of s. */
  function DigitPrefixLength(s: string): (k: nat)
    ensures k <= |s|
  {
    if s == [] || !IsDigit(s[0]) then 0 else 1 + DigitPrefixLength(s[1..])
  }

  lemma {:induction false} DigitPrefixOfRun(a: string, sep: char, x: string)
    requires AllDigits(a) && !IsDigit(sep)
    ensures DigitPrefixLength(a + [sep] + x) == |a|
  {
    if a != [] {
      assert (a + [sep] + x)[1..] == a[1..] + [sep] + x;
      DigitPrefixOfRun(a[1..], sep, x);
    }
  }

  /** Two digit runs each followed by the same non-digit separator split a
      string at the same place: the first digit run is determined by the text. */
  lemma DigitRunSplit(a: string, x: string, b: string, y: string, sep: char)
    requires AllDigits(a) && AllDigits(b) && !IsDigit(sep)
    requires a + [sep] + x == b + [sep] + y
    ensures a == b && x == y
  {
    var whole := a + [sep] + x;
    DigitPrefixOfRun(a, sep, x);
    DigitPrefixOfRun(b, sep, y);
    assert a == whole[..|a|] == b;
    assert x == whole[|a| + 1..] == y;
  }
}
