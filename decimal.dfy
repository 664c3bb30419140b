/** Decimal rendering and parsing of integers, as `fmt`'s `%d` prints them
    and as `strconv.Atoi` reads them. Version identifiers, shard subjects and
    the `type` header all go through these. */
module Decimal {
  import opened Wrappers

  const MinInt64: int := -0x8000_0000_0000_0000
  const MaxInt64: int := 0x7FFF_FFFF_FFFF_FFFF

  predicate IsDigit(c: char) { '0' <= c <= '9' }

  predicate AllDigits(s: string) { forall i :: 0 <= i < |s| ==> IsDigit(s[i]) }

  function DigitChar(d: nat): (c: char)
    requires d < 10
    ensures IsDigit(c)
  {
    ('0' as int + d) as char
  }

  function DigitValue(c: char): (d: nat)
    requires IsDigit(c)
    ensures d < 10 && DigitChar(d) == c
  {
    c as int - '0' as int
  }

  /** `%d` of a non-negative number: no sign, no leading zeros. */
  function NatToString(n: nat): (s: string)
    ensures |s| > 0 && AllDigits(s)
    ensures n < 10 <==> |s| == 1
    decreases n
  {
    if n < 10 then [DigitChar(n)] else NatToString(n / 10) + [DigitChar(n % 10)]
  }

  /** `%d` of any integer: a leading '-' for negative values. */
  function IntToString(i: int): (s: string)
    ensures |s| > 0
    ensures (s[0] == '-') <==> i < 0
  {
    if i < 0 then "-" + NatToString(-i) else NatToString(i)
  }

  /** The value of a string of decimal digits, most significant first. */
  function DigitsValue(s: string): nat
    requires AllDigits(s)
    decreases |s|
  {
    if s == [] then 0 else DigitsValue(s[..|s| - 1]) * 10 + DigitValue(s[|s| - 1])
  }

  /** Unsigned decimal parsing: a non-empty run of digits (leading zeros allowed). */
  function ParseNat(s: string): (r: Option<nat>)
    ensures r.Some? <==> |s| > 0 && AllDigits(s)
  {
    if |s| > 0 && AllDigits(s) then Some(DigitsValue(s)) else None
  }

  /** 1 when `s` starts with a sign `strconv.Atoi` accepts, otherwise 0. */
  function SignLength(s: string): (k: nat)
    ensures k <= 1 && k <= |s|
    ensures k == 1 <==> s != "" && (s[0] == '+' || s[0] == '-')
  {
    if s != "" && (s[0] == '+' || s[0] == '-') then 1 else 0
  }

  /** `strconv.Atoi`: an optional '+' or '-', then a non-empty run of decimal
      digits, with a value that fits a 64-bit `int`; anything else is an error. */
  function Atoi(s: string): (r: Option<int>)
    ensures r.Some? ==> MinInt64 <= r.value <= MaxInt64
    ensures s == "" ==> r == None
    ensures r.Some? ==> SignLength(s) < |s| && AllDigits(s[SignLength(s)..])
    ensures r.Some? && r.value < 0 ==> s[0] == '-'
  {
    if s == [] then None
    else
      var signed := s[0] == '+' || s[0] == '-';
      var digits := if signed then s[1..] else s;
      match ParseNat(digits)
      case None => None
      case Some(n) =>
        var v: int := if s[0] == '-' then -(n as int) else n;
        if MinInt64 <= v <= MaxInt64 then Some(v) else None
  }

  lemma {:induction false} ParseNatToString(n: nat)
    ensures ParseNat(NatToString(n)) == Some(n)
    decreases n
  {
    var s := NatToString(n);
    var d := n % 10;
    assert DigitValue(DigitChar(d)) == d;
    if n < 10 {
      assert s[..|s| - 1] == [];
    } else {
      ParseNatToString(n / 10);
      assert s[..|s| - 1] == NatToString(n / 10);
    }
    assert DigitsValue(s) == DigitsValue(s[..|s| - 1]) * 10 + d;
  }

  /** Distinct numbers print differently. */
  lemma NatToStringInjective(m: nat, n: nat)
    requires NatToString(m) == NatToString(n)
    ensures m == n
  {
    ParseNatToString(m);
    ParseNatToString(n);
  }

  /** `strconv.Atoi` reads back what `%d` prints, for every 64-bit value. */
  lemma AtoiIntToString(i: int)
    requires MinInt64 <= i <= MaxInt64
    ensures Atoi(IntToString(i)) == Some(i)
  {
    var s := IntToString(i);
    if i < 0 {
      assert s[1..] == NatToString(-i);
      ParseNatToString(-i);
    } else {
      ParseNatToString(i);
      assert s[0] != '+';
    }
  }

  /** Digits without a sign read as their value, leading zeros included,
      exactly when that value fits a 64-bit `int`. */
  lemma AtoiUnsigned(s: string)
    requires s != "" && AllDigits(s)
    ensures Atoi(s) == if DigitsValue(s) <= MaxInt64 then Some(DigitsValue(s)) else None
  {
  }

  /** A '+' in front changes nothing about the value. */
  lemma AtoiPlus(s: string)
    requires s != "" && AllDigits(s)
    ensures Atoi("+" + s) == Atoi(s)
  {
    assert ("+" + s)[1..] == s;
    AtoiUnsigned(s);
  }

  /** A '-' in front negates the value, down to the least 64-bit `int`. */
  lemma AtoiMinus(s: string)
    requires s != "" && AllDigits(s)
    ensures Atoi("-" + s) == if DigitsValue(s) <= -MinInt64 then Some(-(DigitsValue(s) as int)) else None
  {
    assert ("-" + s)[1..] == s;
  }

  /** A character that is not a digit anywhere after the optional sign makes
      the whole string unreadable; so does a lone sign. */
  lemma AtoiRejectsNonDigit(s: string, i: nat)
    requires SignLength(s) <= i < |s| && !IsDigit(s[i])
    ensures Atoi(s) == None
  {
    var k := SignLength(s);
    assert s[k..][i - k] == s[i];
  }

  /** A lone sign is not a number. */
  lemma AtoiRejectsLoneSign(s: string)
    requires SignLength(s) == |s|
    ensures Atoi(s) == None
  {
  }

  /** Leading zeros do not change the value of a run of digits. */
  lemma {:induction false} LeadingZerosValue(z: string, t: string)
    requires forall k :: 0 <= k < |z| ==> z[k] == '0'
    requires AllDigits(t)
    ensures AllDigits(z + t) && DigitsValue(z + t) == DigitsValue(t)
    decreases |t|
  {
    var u := z + t;
    if t == [] {
      assert u == z;
      ZerosValue(z);
    } else {
      var t' := t[..|t| - 1];
      assert u[..|u| - 1] == z + t';
      assert u[|u| - 1] == t[|t| - 1];
      LeadingZerosValue(z, t');
    }
  }

  /** A run of zeros is worth 0. */
  lemma {:induction false} ZerosValue(z: string)
    requires forall k :: 0 <= k < |z| ==> z[k] == '0'
    ensures AllDigits(z) && DigitsValue(z) == 0
    decreases |z|
  {
    if z != [] {
      ZerosValue(z[..|z| - 1]);
    }
  }

  /** `strconv.Atoi` reads zero-padded decimal forms as the number itself. */
  lemma AtoiLeadingZeros(z: string, n: nat)
    requires forall k :: 0 <= k < |z| ==> z[k] == '0'
    requires n <= MaxInt64
    ensures Atoi(z + NatToString(n)) == Some(n)
  {
    ParseNatToString(n);
    LeadingZerosValue(z, NatToString(n));
    AtoiUnsigned(z + NatToString(n));
  }
}
