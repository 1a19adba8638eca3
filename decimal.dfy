/**
 * Decimal text of unsigned integers as Rust's `format!` writes them with `{}`
 * and with a zero-padded width such as `{:02}`, together with a reader that
 * recovers the number from its digits, so that the rendering is shown to lose
 * nothing.
 */
module Decimal {

  predicate IsDigit(c: char) {
    '0' <= c <= '9'
  }

  predicate AllDigits(s: string) {
    forall i :: 0 <= i < |s| ==> IsDigit(s[i])
  }

  function DigitValue(c: char): (d: nat)
    requires IsDigit(c)
    ensures d < 10
  {
    (c as int) - ('0' as int)
  }

  function DigitChar(d: nat): (c: char)
    requires d < 10
    ensures IsDigit(c) && DigitValue(c) == d
  {
    (('0' as int) + d) as char
  }

  /** `format!("{}", n)`: the shortest decimal text of `n`, with no leading zero. */
  function Show(n: nat): (s: string)
    ensures |s| >= 1 && AllDigits(s)
    ensures s[0] == '0' ==> n == 0
    decreases n
  {
    if n < 10 then [DigitChar(n)] else Show(n / 10) + [DigitChar(n % 10)]
  }

  /** The number a string of decimal digits denotes (the empty string denotes 0). */
  function Value(s: string): nat
    requires AllDigits(s)
  {
    if s == [] then 0 else Value(s[..|s| - 1]) * 10 + DigitValue(s[|s| - 1])
  }

  /** `format!("{:0w}", n)`: the text of `n` with zeros put in front up to `width` characters. */
  function ShowPadded(n: nat, width: nat): (s: string)
    ensures AllDigits(s)
    ensures |s| == if |Show(n)| < width then width else |Show(n)|
  {
    var digits := Show(n);
    if |digits| < width then Zeros(width - |digits|) + digits else digits
  }

  function Zeros(k: nat): (z: string)
    ensures |z| == k && forall i :: 0 <= i < k ==> z[i] == '0'
  {
    if k == 0 then [] else ['0'] + Zeros(k - 1)
  }

  /** The longest prefix of `s` made of digits. */
  function LeadingDigits(s: string): (d: string)
    ensures AllDigits(d) && d <= s
    ensures |d| < |s| ==> !IsDigit(s[|d|])
  {
    if s == [] || !IsDigit(s[0]) then [] else [s[0]] + LeadingDigits(s[1..])
  }

  /** Reading back the text of `n` gives `n`. */
  lemma {:induction false} ValueOfShow(n: nat)
    ensures Value(Show(n)) == n
    decreases n
  {
    if n >= 10 {
      ValueOfShow(n / 10);
      var s := Show(n);
      assert s[..|s| - 1] == Show(n / 10);
    }
  }

  /** Different numbers have different texts. */
  lemma ShowInjective(m: nat, n: nat)
    requires Show(m) == Show(n)
    ensures m == n
  {
    ValueOfShow(m);
    ValueOfShow(n);
  }

  /** The text of `n` is one character long exactly for one-digit numbers and
      two characters long exactly for two-digit numbers. */
  lemma {:induction false} ShowLength(n: nat)
    ensures |Show(n)| == 1 <==> n < 10
    ensures |Show(n)| == 2 <==> 10 <= n < 100
    decreases n
  {
    if n >= 10 {
      ShowLength(n / 10);
    }
  }

  /** Zeros put in front of digits do not change the number they denote. */
  lemma {:induction false} ValueOfZerosPrefix(k: nat, s: string)
    requires AllDigits(s)
    ensures AllDigits(Zeros(k) + s) && Value(Zeros(k) + s) == Value(s)
    decreases |s|
  {
    var t := Zeros(k) + s;
    if s == [] {
      assert t == Zeros(k);
      ValueOfZeros(k);
    } else {
      assert t[..|t| - 1] == Zeros(k) + s[..|s| - 1];
      ValueOfZerosPrefix(k, s[..|s| - 1]);
    }
  }

  lemma {:induction false} ValueOfZeros(k: nat)
    ensures Value(Zeros(k)) == 0
  {
    if k > 0 {
      var z := Zeros(k);
      assert z[..k - 1] == Zeros(k - 1);
      ValueOfZeros(k - 1);
    }
  }

  /** Reading back the zero-padded text of `n` gives `n`. */
  lemma ValueOfShowPadded(n: nat, width: nat)
    ensures Value(ShowPadded(n, width)) == n
  {
    ValueOfShow(n);
    var digits := Show(n);
    if |digits| < width {
      assert ShowPadded(n, width) == Zeros(width - |digits|) + digits;
      ValueOfZerosPrefix(width - |digits|, digits);
    }
  }

  /** The digits of a number followed by text that does not start with a digit
      are read back as exactly those digits. */
  lemma {:induction false} LeadingDigitsOfConcat(d: string, rest: string)
    requires AllDigits(d)
    requires rest == [] || !IsDigit(rest[0])
    ensures LeadingDigits(d + rest) == d
    decreases |d|
  {
    if d != [] {
      assert (d + rest)[1..] == d[1..] + rest;
      LeadingDigitsOfConcat(d[1..], rest);
    }
  }
}
