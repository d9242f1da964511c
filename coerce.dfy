/**
 * `get_as_integer`: best-effort conversion of an optional string to an
 * optional integer. Malformed or absent input yields no value; nothing fails.
 */
module Coerce {
  import opened Base

  predicate IsDigit(c: char) { '0' <= c <= '9' }

  function DigitValue(c: char): (d: nat)
    requires IsDigit(c)
    ensures d < 10
  {
    (c as int) - ('0' as int)
  }

  function DigitChar(d: nat): (c: char)
    requires d < 10
    ensures IsDigit(c) && DigitValue(c) == d
  {
    ('0' as int + d) as char
  }

  predicate AllDigits(s: string) {
    forall i :: 0 <= i < |s| ==> IsDigit(s[i])
  }

  /** A base-10 numeral: an optional sign followed by at least one digit. */
  predicate IsNumeral(s: string) {
    (|s| > 0 && AllDigits(s))
    || (|s| > 1 && (s[0] == '-' || s[0] == '+') && AllDigits(s[1..]))
  }

  /** The value of a run of digits, most significant first. */
  function DigitsValue(s: string): nat
    requires AllDigits(s)
  {
    if s == [] then 0 else DigitsValue(s[..|s| - 1]) * 10 + DigitValue(s[|s| - 1])
  }

  function NumeralValue(s: string): int
    requires IsNumeral(s)
  {
    if s[0] == '-' then -(DigitsValue(s[1..]) as int)
    else if s[0] == '+' then DigitsValue(s[1..])
    else DigitsValue(s)
  }

  /** The model of `get_as_integer`. */
  function GetAsInteger(value: Option<string>): (r: Option<int>)
    ensures r.Some? <==> value.Some? && IsNumeral(value.value)
  {
    match value
    case None => None
    case Some(s) => if IsNumeral(s) then Some(NumeralValue(s)) else None
  }

  /** The decimal rendering of a natural number, without leading zeros. */
  function ShowNat(n: nat): (s: string)
    ensures |s| > 0 && AllDigits(s)
    decreases n
  {
    if n < 10 then [DigitChar(n)] else ShowNat(n / 10) + [DigitChar(n % 10)]
  }

  /** The decimal rendering of an integer, as Python's `str` writes it. */
  function Show(n: int): (s: string)
    ensures IsNumeral(s)
  {
    if n < 0 then "-" + ShowNat(-n) else ShowNat(n)
  }

  /** A numeral with no sign and no redundant leading zero: the form `Show` produces for n >= 0. */
  predicate IsCanonicalDigits(s: string) {
    |s| > 0 && AllDigits(s) && (s[0] != '0' || |s| == 1)
  }

  lemma {:induction false} DigitsValueShowNat(n: nat)
    ensures DigitsValue(ShowNat(n)) == n
    decreases n
  {
    var s := ShowNat(n);
    if n >= 10 {
      DigitsValueShowNat(n / 10);
      assert s[..|s| - 1] == ShowNat(n / 10);
    }
  }

  /** Coercing the rendering of any integer gives that integer back. */
  lemma GetAsIntegerOfShow(n: int)
    ensures GetAsInteger(Some(Show(n))) == Some(n)
  {
    if n < 0 {
      assert Show(n)[1..] == ShowNat(-n);
      DigitsValueShowNat(-n);
    } else {
      DigitsValueShowNat(n);
    }
  }

  lemma {:induction false} DigitsValuePositive(s: string)
    requires |s| > 0 && AllDigits(s) && s[0] != '0'
    ensures DigitsValue(s) >= 1
    decreases |s|
  {
    if |s| > 1 {
      var p := s[..|s| - 1];
      assert p[0] == s[0];
      DigitsValuePositive(p);
    }
  }

  lemma {:induction false} ShowNatOfDigitsValue(s: string)
    requires IsCanonicalDigits(s)
    ensures ShowNat(DigitsValue(s)) == s
    decreases |s|
  {
    if |s| > 1 {
      var p := s[..|s| - 1];
      assert p[0] == s[0];
      ShowNatOfDigitsValue(p);
      DigitsValuePositive(p);
      var v := DigitsValue(s);
      assert v / 10 == DigitsValue(p) && v % 10 == DigitValue(s[|s| - 1]);
      assert DigitChar(v % 10) == s[|s| - 1];
      assert s == p + [s[|s| - 1]];
    } else {
      assert DigitChar(DigitValue(s[0])) == s[0];
    }
  }

  /** Conversely, a canonical unsigned numeral is exactly the rendering of its value. */
  lemma ShowOfGetAsInteger(s: string)
    requires IsCanonicalDigits(s)
    ensures GetAsInteger(Some(s)).Some?
    ensures Show(GetAsInteger(Some(s)).value) == s
  {
    ShowNatOfDigitsValue(s);
  }

  lemma {:induction false} DigitsValueLeadingZero(s: string)
    requires AllDigits(s)
    ensures DigitsValue("0" + s) == DigitsValue(s)
    decreases |s|
  {
    if s != [] {
      var p := s[..|s| - 1];
      DigitsValueLeadingZero(p);
      assert ("0" + s)[..|s|] == "0" + p;
    }
  }

  /** A redundant leading zero does not change the value read. */
  lemma GetAsIntegerLeadingZero(s: string)
    requires |s| > 0 && AllDigits(s)
    ensures GetAsInteger(Some("0" + s)) == GetAsInteger(Some(s))
  {
    DigitsValueLeadingZero(s);
  }

  /** An explicit plus sign reads the same value as the bare digits. */
  lemma GetAsIntegerPlusSign(s: string)
    requires |s| > 0 && AllDigits(s)
    ensures GetAsInteger(Some("+" + s)) == GetAsInteger(Some(s))
  {
  }

  /** A minus sign negates the value of the bare digits. */
  lemma GetAsIntegerMinusSign(s: string)
    requires |s| > 0 && AllDigits(s)
    ensures GetAsInteger(Some("-" + s)) == Some(-GetAsInteger(Some(s)).value)
  {
  }

  /** The four cases the server tests pin down. */
  lemma GetAsIntegerExamples()
    ensures GetAsInteger(Some("1")) == Some(1)
    ensures GetAsInteger(Some("a")) == None
    ensures GetAsInteger(Some("")) == None
    ensures GetAsInteger(None) == None
  {
    assert DigitsValue("1") == DigitsValue("") * 10 + 1;
    assert !IsDigit('a');
  }
}
