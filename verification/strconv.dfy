/** The slice of Go's `strconv` the configuration loader relies on: `Atoi`
    on a 64-bit platform, and `Itoa`, the decimal rendering it inverts. */
module Strconv {
  import opened Wrappers
  import opened GoInt

  predicate IsDigit(c: char) {
    '0' <= c <= '9'
  }

  function DigitValue(c: char): (d: nat)
    requires IsDigit(c)
    ensures d < 10
  {
    (c as int) - ('0' as int)
  }

  function DigitChar(d: nat): (c: char)
    requires d < 10
    ensures IsDigit(c) && DigitValue(c) == d
  {
    (('0' as int) + d) as char
  }

  predicate AllDigits(s: string) {
    forall i | 0 <= i < |s| :: IsDigit(s[i])
  }

  /** Value of a run of decimal digits, most significant digit first. */
  function DigitsValue(s: string): nat
    requires AllDigits(s)
  {
    if s == [] then 0 else 10 * DigitsValue(s[..|s| - 1]) + DigitValue(s[|s| - 1])
  }

  /** The string with one leading `+` or `-` removed, if it has one. */
  function Unsigned(s: string): string {
    if |s| > 0 && (s[0] == '+' || s[0] == '-') then s[1..] else s
  }

  /** The syntax `strconv.ParseInt(s, 10, 64)` accepts: an optional sign
      followed by one or more ASCII digits (no underscores in base 10). */
  predicate IsDecimal(s: string) {
    Unsigned(s) != [] && AllDigits(Unsigned(s))
  }

  /** `strconv.Atoi`: the signed value of a well-formed decimal string that fits
      in a 64-bit `int`; `None` stands for the syntax and range errors alike. */
  function Atoi(s: string): (r: Option<int>)
    ensures r.Some? ==> IsInt64(r.value) && IsDecimal(s)
    ensures r.Some? && |s| > 0 && s[0] == '-' ==> r.value <= 0
    ensures r.Some? && !(|s| > 0 && s[0] == '-') ==> r.value >= 0
  {
    if !IsDecimal(s) then None
    else
      var magnitude: int := DigitsValue(Unsigned(s));
      var n := if s[0] == '-' then -magnitude else magnitude;
      if IsInt64(n) then Some(n) else None
  }

  /** Decimal digits of a natural number, without leading zeros. */
  function NatToDecimal(n: nat): (s: string)
    ensures s != [] && AllDigits(s)
  {
    if n < 10 then [DigitChar(n)] else NatToDecimal(n / 10) + [DigitChar(n % 10)]
  }

  /** `strconv.Itoa`: a `-` for negative numbers, then the magnitude's digits. */
  function Itoa(n: int): string {
    if n < 0 then "-" + NatToDecimal(-n) else NatToDecimal(n)
  }

  /** Digits as `Itoa` writes them: no superfluous leading zero. */
  predicate CanonicalDigits(ds: string) {
    ds != [] && AllDigits(ds) && (ds[0] == '0' ==> |ds| == 1)
  }

  /** The strings `Itoa` can produce: no `+`, no leading zeros, no `-0`. */
  predicate IsCanonical(s: string) {
    || CanonicalDigits(s)
    || (|s| >= 2 && s[0] == '-' && CanonicalDigits(s[1..]) && s[1] != '0')
  }

  lemma {:induction false} DigitsValueOfNatToDecimal(n: nat)
    ensures DigitsValue(NatToDecimal(n)) == n
  {
    var s := NatToDecimal(n);
    if n >= 10 {
      DigitsValueOfNatToDecimal(n / 10);
      assert s[..|s| - 1] == NatToDecimal(n / 10);
    }
  }

  lemma {:induction false} NatToDecimalIsCanonical(n: nat)
    ensures CanonicalDigits(NatToDecimal(n))
    ensures n > 0 ==> NatToDecimal(n)[0] != '0'
  {
    if n >= 10 {
      NatToDecimalIsCanonical(n / 10);
    }
  }

  /** Digits whose first digit is not `0` denote a positive number. */
  lemma {:induction false} LeadingNonZeroIsPositive(ds: string)
    requires ds != [] && AllDigits(ds) && ds[0] != '0'
    ensures DigitsValue(ds) > 0
  {
    if |ds| > 1 {
      LeadingNonZeroIsPositive(ds[..|ds| - 1]);
    }
  }

  lemma {:induction false} NatToDecimalOfDigitsValue(ds: string)
    requires CanonicalDigits(ds)
    ensures NatToDecimal(DigitsValue(ds)) == ds
  {
    if |ds| == 1 {
      assert DigitsValue(ds) == DigitValue(ds[0]);
    } else {
      var prefix := ds[..|ds| - 1];
      LeadingNonZeroIsPositive(prefix);
      NatToDecimalOfDigitsValue(prefix);
      var v := DigitsValue(ds);
      assert v / 10 == DigitsValue(prefix) && v % 10 == DigitValue(ds[|ds| - 1]);
      assert ds == prefix + [ds[|ds| - 1]];
    }
  }

  /** Round trip one way: parsing what `Itoa` printed gives back every 64-bit
      integer, negative ones included. */
  lemma AtoiOfItoa(n: int)
    requires IsInt64(n)
    ensures Atoi(Itoa(n)) == Some(n)
  {
    if n < 0 {
      DigitsValueOfNatToDecimal(-n);
      assert Unsigned(Itoa(n)) == NatToDecimal(-n);
    } else {
      DigitsValueOfNatToDecimal(n);
      NatToDecimalIsCanonical(n);
      assert Unsigned(Itoa(n)) == NatToDecimal(n);
    }
  }

  /** Round trip the other way: a canonical decimal string that parses is
      exactly what `Itoa` prints for its value. */
  lemma ItoaOfAtoi(s: string)
    requires IsCanonical(s) && Atoi(s).Some?
    ensures Itoa(Atoi(s).value) == s
  {
    if s[0] == '-' {
      LeadingNonZeroIsPositive(s[1..]);
      NatToDecimalOfDigitsValue(s[1..]);
    } else {
      NatToDecimalOfDigitsValue(s);
    }
  }

  /** `Itoa` only ever prints canonical strings. */
  lemma ItoaIsCanonical(n: int)
    ensures IsCanonical(Itoa(n))
  {
    if n < 0 {
      NatToDecimalIsCanonical(-n);
      assert Itoa(n)[1..] == NatToDecimal(-n);
    } else {
      NatToDecimalIsCanonical(n);
    }
  }

  /** Leading zeros, after a sign or not, and an explicit `+` do not change
      the parsed value: "+5", "05" and "5" all give 5, "-05" gives -5, and
      "-0" (hence "-00…0") gives 0. */
  lemma AtoiIgnoresPlusAndLeadingZero(ds: string)
    requires ds != [] && AllDigits(ds)
    ensures Atoi("+" + ds) == Atoi(ds)
    ensures Atoi("0" + ds) == Atoi(ds)
    ensures Atoi("-0" + ds) == Atoi("-" + ds)
    ensures Atoi("-0") == Some(0)
  {
    ZeroPrefixValue(ds);
    assert Unsigned("+" + ds) == ds;
    MinusZeroPrefix(ds);
    assert Unsigned("-0") == "0";
  }

  lemma MinusZeroPrefix(ds: string)
    requires ds != [] && AllDigits(ds)
    ensures Atoi("-0" + ds) == Atoi("-" + ds)
  {
    ZeroPrefixValue(ds);
    var z := "0" + ds;
    assert AllDigits(z);
    assert Unsigned("-0" + ds) == z;
    assert Unsigned("-" + ds) == ds;
    assert IsDecimal("-0" + ds) && IsDecimal("-" + ds);
  }

  lemma {:induction false} ZeroPrefixValue(ds: string)
    requires AllDigits(ds)
    ensures DigitsValue("0" + ds) == DigitsValue(ds)
  {
    if ds != [] {
      var z := "0" + ds;
      assert z[..|z| - 1] == "0" + ds[..|ds| - 1];
      ZeroPrefixValue(ds[..|ds| - 1]);
    }
  }
}
