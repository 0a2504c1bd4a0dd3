/** The C library's `strtol` on a 64-bit `long`, for the option values the
    source converts with it: leading white space is skipped, one optional sign
    is read, then the longest run of digits valid in the base; anything after
    is ignored; no digits give 0; a value out of range saturates at LONG_MIN or
    LONG_MAX. The `0x` prefix of base 16 and base 0 is not modelled: the source
    only uses bases 10 and 25. */
module Strtol {
  import MachineInt

  const LongMax: int := MachineInt.TwoTo63 - 1
  const LongMin: int := -MachineInt.TwoTo63

  predicate IsSpace(c: char) {
    c == ' ' || c == '\t' || c == '\n' || c as int == 11 || c as int == 12 || c == '\r'
  }

  /** The value of `c` as a digit of any base up to 36, or 36 if it is none. */
  function DigitValue(c: char): (d: nat)
    ensures d <= 36
  {
    if '0' <= c <= '9' then c as int - '0' as int
    else if 'a' <= c <= 'z' then c as int - 'a' as int + 10
    else if 'A' <= c <= 'Z' then c as int - 'A' as int + 10
    else 36
  }

  predicate IsDigitIn(c: char, base: nat) { DigitValue(c) < base }

  /** Length of the longest prefix of `s` made of digits of `base`. */
  function DigitRun(s: string, base: nat): (n: nat)
    ensures n <= |s|
    ensures forall i :: 0 <= i < n ==> IsDigitIn(s[i], base)
    ensures n < |s| ==> !IsDigitIn(s[n], base)
  {
    if |s| == 0 || !IsDigitIn(s[0], base) then 0 else 1 + DigitRun(s[1..], base)
  }

  /** Positional value of a string of digits, most significant first. */
  function DigitsValue(s: string, base: nat): nat
  {
    if |s| == 0 then 0 else DigitsValue(s[..|s| - 1], base) * base + DigitValue(s[|s| - 1])
  }

  function SkipSpace(s: string): (t: string)
    ensures |t| <= |s| && t == s[|s| - |t|..]
    ensures |t| > 0 ==> !IsSpace(t[0])
  {
    if |s| > 0 && IsSpace(s[0]) then SkipSpace(s[1..]) else s
  }

  function Saturate(x: int): (r: int)
    ensures LongMin <= r <= LongMax
    ensures LongMin <= x <= LongMax ==> r == x
    ensures x > LongMax ==> r == LongMax
    ensures x < LongMin ==> r == LongMin
  {
    if x > LongMax then LongMax else if x < LongMin then LongMin else x
  }

  /** The value of the longest run of digits at the start of `u`. */
  function Magnitude(u: string, base: nat): nat {
    DigitsValue(u[..DigitRun(u, base)], base)
  }

  function Parse(s: string, base: nat): (r: int)
    requires 2 <= base <= 36
    ensures LongMin <= r <= LongMax
  {
    var t := SkipSpace(s);
    if |t| > 0 && t[0] == '-' then Saturate(0 - Magnitude(t[1..], base))
    else if |t| > 0 && t[0] == '+' then Saturate(Magnitude(t[1..], base))
    else Saturate(Magnitude(t, base))
  }

  /** In base 25 the three characters "100" read as 625. */
  lemma HundredInBase25()
    ensures Parse("100", 25) == 625
  {
    HundredMagnitude();
    NoSignNoSpace("100", 25);
  }

  lemma HundredMagnitude()
    ensures Magnitude("100", 25) == 625
  {
    var s := "100";
    HundredDigits();
    HundredValue();
    assert s[..3] == s;
  }

  lemma HundredDigits()
    ensures DigitRun("100", 25) == 3
  {
    var s := "100";
    assert s[1..][1..][1..] == [];
  }

  lemma HundredValue()
    ensures DigitsValue("100", 25) == 625
  {
    var s := "100";
    assert s[..2] == "10" && s[..2][..1] == "1" && s[..2][..1][..0] == [];
    assert DigitsValue("1", 25) == 1;
    assert DigitsValue("10", 25) == 25;
  }

  // --- decimal text, the inverse of `Parse` in base 10 ------------------------

  function DigitChar(d: nat): (c: char)
    requires d < 10
    ensures '0' <= c <= '9' && DigitValue(c) == d
  {
    ('0' as int + d) as char
  }

  /** The decimal digits of `n`, most significant first, without leading
      zeros. */
  function DecimalDigits(n: nat): (s: string)
    ensures 1 <= |s|
    ensures forall i :: 0 <= i < |s| ==> '0' <= s[i] <= '9'
  {
    if n < 10 then [DigitChar(n)] else DecimalDigits(n / 10) + [DigitChar(n % 10)]
  }

  lemma {:induction false} DecimalDigitsValue(n: nat)
    ensures DigitsValue(DecimalDigits(n), 10) == n
  {
    var s := DecimalDigits(n);
    if n >= 10 {
      assert s[..|s| - 1] == DecimalDigits(n / 10);
      DecimalDigitsValue(n / 10);
    }
  }

  lemma {:induction false} DigitRunAll(s: string, base: nat)
    requires forall i :: 0 <= i < |s| ==> IsDigitIn(s[i], base)
    ensures DigitRun(s, base) == |s|
  {
    if |s| > 0 {
      DigitRunAll(s[1..], base);
    }
  }

  lemma DecimalMagnitude(n: nat)
    ensures Magnitude(DecimalDigits(n), 10) == n
  {
    var d := DecimalDigits(n);
    DecimalDigitsValue(n);
    DigitRunAll(d, 10);
    assert d[..|d|] == d;
  }

  /** `strtol` reads back the decimal text of any number, saturating above
      LONG_MAX. */
  lemma DecimalRoundTrip(n: nat)
    ensures Parse(DecimalDigits(n), 10) == Saturate(n)
  {
    var d := DecimalDigits(n);
    DecimalMagnitude(n);
    NoSignNoSpace(d, 10);
  }

  /** Text that starts with a digit is read from its first character. */
  lemma NoSignNoSpace(d: string, base: nat)
    requires 0 < |d| && '0' <= d[0] <= '9' && 2 <= base <= 36
    ensures Parse(d, base) == Saturate(Magnitude(d, base))
  {
    assert SkipSpace(d) == d;
  }

  /** ... and of any negative number, saturating below LONG_MIN. */
  lemma NegativeDecimalRoundTrip(n: nat)
    ensures Parse("-" + DecimalDigits(n), 10) == Saturate(-(n as int))
  {
    var d := DecimalDigits(n);
    DecimalMagnitude(n);
    var m := "-" + d;
    assert !IsSpace(m[0]) && SkipSpace(m) == m;
    assert m[1..] == d;
  }
}
