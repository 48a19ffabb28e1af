/**
 * The parts of the C standard library that the validator relies on:
 * the <ctype.h> classifiers in the "C" locale (ASCII only), and atoi/atof
 * restricted to plain decimal text (optional leading white space, an optional
 * sign, digits and, for atof, an optional fraction). A C string is a sequence
 * of characters without NUL; its terminator is implicit.
 */
module CLib {

  predicate IsUpper(c: char) { 'A' <= c <= 'Z' }
  predicate IsLower(c: char) { 'a' <= c <= 'z' }
  predicate IsDigit(c: char) { '0' <= c <= '9' }

  /** isalpha in the "C" locale */
  predicate IsAlpha(c: char) { IsUpper(c) || IsLower(c) }

  /** isalnum in the "C" locale */
  predicate IsAlnum(c: char) { IsAlpha(c) || IsDigit(c) }

  /** isspace in the "C" locale: space, \t, \n, \v, \f, \r */
  predicate IsSpace(c: char) {
    c == ' ' || c == '\t' || c == '\n' || c == '\U{B}' || c == '\U{C}' || c == '\r'
  }

  /** What `strlen` and a `buff[i]` loop guard see: no NUL before the end. */
  predicate NoNul(s: string) { forall i :: 0 <= i < |s| ==> s[i] != '\0' }

  predicate AllDigits(s: string) { forall i :: 0 <= i < |s| ==> IsDigit(s[i]) }

  function DigitValue(c: char): (d: nat)
    requires IsDigit(c)
    ensures d < 10
  {
    (c as int) - ('0' as int)
  }

  function DigitChar(d: nat): (c: char)
    requires d < 10
    ensures IsDigit(c) && DigitValue(c) == d
  {
    (('0' as int) + d) as char
  }

  function Pow10(k: nat): (p: nat)
    ensures p >= 1
  {
    if k == 0 then 1 else 10 * Pow10(k - 1)
  }

  /** The suffix left after leading white space, as strtol/strtod skip it. */
  function SkipSpace(s: string): (r: string)
    ensures |r| <= |s| && r == s[|s| - |r|..]
    ensures r == [] || !IsSpace(r[0])
  {
    if |s| > 0 && IsSpace(s[0]) then SkipSpace(s[1..]) else s
  }

  /** Length of the run of digits that starts the string. */
  function DigitRun(s: string): (k: nat)
    ensures k <= |s| && AllDigits(s[..k])
    ensures k == |s| || !IsDigit(s[k])
  {
    if |s| > 0 && IsDigit(s[0]) then
      var k := DigitRun(s[1..]);
      assert s[..1 + k] == [s[0]] + s[1..][..k];
      1 + k
    else 0
  }

  /** The number a string of decimal digits denotes (most significant first). */
  function DigitsValue(s: string): (n: nat)
    requires AllDigits(s)
    ensures n < Pow10(|s|)
  {
    if s == [] then 0
    else
      assert AllDigits(s[..|s| - 1]);
      DigitsValue(s[..|s| - 1]) * 10 + DigitValue(s[|s| - 1])
  }

  /** Whether the text after white space starts with '-'. */
  predicate Negative(s: string) {
    var t := SkipSpace(s);
    |t| > 0 && t[0] == '-'
  }

  /** The text after white space and an optional '-' or '+'. */
  function Unsigned(s: string): (u: string)
    ensures |u| <= |s|
  {
    var t := SkipSpace(s);
    if |t| > 0 && (t[0] == '-' || t[0] == '+') then t[1..] else t
  }

  /** The value of the digits that start u: 0 when u does not start with a digit. */
  function Whole(u: string): (n: nat)
    ensures DigitRun(u) == 0 ==> n == 0
  {
    DigitsValue(u[..DigitRun(u)])
  }

  /**
   * atoi: white space, an optional sign, then the longest run of digits;
   * no digits gives 0.
   */
  function Atoi(s: string): (n: int)
    ensures n < 0 ==> Negative(s)
    ensures |s| > 0 && AllDigits(s) ==> n == DigitsValue(s)
  {
    PlainDigits(s);
    var w: int := Whole(Unsigned(s));
    if Negative(s) then -w else w
  }

  lemma QuotientBelowOne(v: real, p: real)
    requires 0.0 <= v < p
    ensures 0.0 <= v / p < 1.0
  {
    var q := v / p;
    assert q * p == v;
  }

  /** The value of ".ddd": the leading digits of f read as a fraction. */
  function Fraction(f: string): (r: real)
    ensures 0.0 <= r < 1.0
  {
    var k := DigitRun(f);
    var v, p := DigitsValue(f[..k]) as real, Pow10(k) as real;
    QuotientBelowOne(v, p);
    v / p
  }

  /** The fractional part atof reads after the whole digits of u: ".ddd", else 0. */
  function FractionPart(u: string): (r: real)
    ensures 0.0 <= r < 1.0
  {
    var rest := u[DigitRun(u)..];
    if |rest| > 0 && rest[0] == '.' then Fraction(rest[1..]) else 0.0
  }

  /**
   * atof: white space, an optional sign, the longest run of digits, then an
   * optional '.' followed by more digits; no digits gives 0.
   */
  function Atof(s: string): (r: real)
    ensures r < 0.0 ==> Negative(s)
    ensures |s| > 0 && AllDigits(s) ==> r == DigitsValue(s) as real
  {
    PlainDigits(s);
    var u := Unsigned(s);
    var magnitude := Whole(u) as real + FractionPart(u);
    if Negative(s) then -magnitude else magnitude
  }

  /** Decimal rendering of a natural number, as printf's %d writes it. */
  function NatToString(n: nat): (s: string)
    ensures |s| >= 1 && AllDigits(s)
  {
    if n < 10 then [DigitChar(n)]
    else
      var s := NatToString(n / 10) + [DigitChar(n % 10)];
      assert forall i :: 0 <= i < |s| - 1 ==> s[i] == NatToString(n / 10)[i];
      s
  }

  /** Decimal rendering of an integer, as printf's %d writes it. */
  function IntToString(n: int): (s: string)
    ensures |s| >= 1
  {
    if n < 0 then "-" + NatToString(-n) else NatToString(n)
  }

  lemma {:induction false} DigitRunOfDigits(s: string)
    requires AllDigits(s)
    ensures DigitRun(s) == |s|
  {
    if |s| > 0 {
      assert AllDigits(s[1..]);
      DigitRunOfDigits(s[1..]);
    }
  }

  /** Reading back the digits %d writes gives the number written. */
  lemma {:induction false} DigitsValueOfNatToString(n: nat)
    ensures DigitsValue(NatToString(n)) == n
  {
    var s := NatToString(n);
    if n >= 10 {
      assert s[..|s| - 1] == NatToString(n / 10);
      DigitsValueOfNatToString(n / 10);
    }
  }

  /** A run of digits alone: its whole value, no fraction. */
  lemma DigitsAlone(u: string)
    requires |u| > 0 && AllDigits(u)
    ensures Whole(u) == DigitsValue(u) && FractionPart(u) == 0.0
  {
    DigitRunOfDigits(u);
    assert u[..|u|] == u;
  }

  lemma SkipSpaceNone(s: string)
    requires |s| > 0 && !IsSpace(s[0])
    ensures SkipSpace(s) == s
  {
  }

  /** A plain run of digits has no sign and is read whole. */
  lemma PlainDigits(s: string)
    ensures |s| > 0 && AllDigits(s) ==>
      !Negative(s) && Unsigned(s) == s && Whole(s) == DigitsValue(s) && FractionPart(s) == 0.0
  {
    if |s| > 0 && AllDigits(s) {
      assert IsDigit(s[0]);
      SkipSpaceNone(s);
      DigitsAlone(s);
    }
  }

  lemma SignAndDigitsOfNegative(m: nat)
    requires m > 0
    ensures Negative("-" + NatToString(m)) && Unsigned("-" + NatToString(m)) == NatToString(m)
  {
    var s := "-" + NatToString(m);
    assert s[0] == '-' && s[1..] == NatToString(m);
    SkipSpaceNone(s);
  }

  lemma SignAndDigitsOfNatural(m: nat)
    ensures !Negative(NatToString(m)) && Unsigned(NatToString(m)) == NatToString(m)
  {
    var s := NatToString(m);
    assert IsDigit(s[0]);
    SkipSpaceNone(s);
  }

  /** What the parsers see of %d text: its sign and then its digits. */
  lemma SignAndDigitsOfIntToString(n: int)
    ensures Negative(IntToString(n)) == (n < 0)
    ensures Unsigned(IntToString(n)) == NatToString(if n < 0 then -n else n)
  {
    if n < 0 {
      SignAndDigitsOfNegative(-n);
    } else {
      SignAndDigitsOfNatural(n);
    }
  }

  /** atoi inverts %d: parsing the decimal rendering of n gives n back. */
  lemma AtoiOfIntToString(n: int)
    ensures Atoi(IntToString(n)) == n
  {
    var m: nat := if n < 0 then -n else n;
    SignAndDigitsOfIntToString(n);
    DigitsAlone(NatToString(m));
    DigitsValueOfNatToString(m);
  }

  /** atof reads the decimal rendering of n as the real number n. */
  lemma AtofOfIntToString(n: int)
    ensures Atof(IntToString(n)) == n as real
  {
    var m: nat := if n < 0 then -n else n;
    SignAndDigitsOfIntToString(n);
    DigitsAlone(NatToString(m));
    DigitsValueOfNatToString(m);
  }
}
