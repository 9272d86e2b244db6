/**
 * `parseQueryInt`: `strconv.Atoi` on a query parameter, that is an optional
 * sign followed by one or more decimal digits whose value fits a 64-bit `int`.
 */
module Decimal {
  import opened Wrappers
  import opened Calendar

  const MinInt := -0x8000_0000_0000_0000
  const MaxInt := 0x7fff_ffff_ffff_ffff

  predicate AllDigits(s: string)
  {
    forall i :: 0 <= i < |s| ==> IsDigit(s[i])
  }

  /** The number a run of decimal digits denotes. */
  function DigitsValue(s: string): nat
    requires AllDigits(s)
  {
    if s == [] then 0 else DigitsValue(s[..|s| - 1]) * 10 + DigitValue(s[|s| - 1])
  }

  /** The shortest decimal digits of `n`. */
  function Digits(n: nat): (s: string)
    ensures |s| >= 1 && AllDigits(s)
  {
    if n < 10 then
      DigitCharValue(n);
      [DigitChar(n)]
    else
      DigitCharValue(n % 10);
      Digits(n / 10) + [DigitChar(n % 10)]
  }

  lemma {:induction false} DigitsRoundTrip(n: nat)
    ensures DigitsValue(Digits(n)) == n
  {
    var s := Digits(n);
    if n < 10 {
      DigitCharValue(n);
      assert s[..0] == [];
    } else {
      DigitCharValue(n % 10);
      assert s[..|s| - 1] == Digits(n / 10);
      DigitsRoundTrip(n / 10);
    }
  }

  /** The digits after an optional leading sign. */
  function Unsigned(s: string): string
  {
    if |s| > 0 && (s[0] == '-' || s[0] == '+') then s[1..] else s
  }

  function ParseQueryInt(s: string): (r: Option<int>)
    ensures r.Some? ==> MinInt <= r.value <= MaxInt
    ensures r.Some? ==> |Unsigned(s)| >= 1 && AllDigits(Unsigned(s))
    ensures r.Some? ==> r.value == if s[0] == '-' then -(DigitsValue(Unsigned(s)) as int) else DigitsValue(Unsigned(s))
    ensures |Unsigned(s)| >= 1 && AllDigits(Unsigned(s))
            && MinInt <= (if s[0] == '-' then -(DigitsValue(Unsigned(s)) as int) else DigitsValue(Unsigned(s))) <= MaxInt
            ==> r.Some?
  {
    var digits := Unsigned(s);
    if digits == [] || !AllDigits(digits) then None
    else
      var v := if s[0] == '-' then -(DigitsValue(digits) as int) else DigitsValue(digits);
      if MinInt <= v <= MaxInt then Some(v) else None
  }

  /** `strconv.Itoa`. */
  function FormatInt(n: int): string
  {
    if n < 0 then "-" + Digits(-n) else Digits(n)
  }

  /** Every 64-bit value survives printing and parsing. */
  lemma FormatThenParseInt(n: int)
    requires MinInt <= n <= MaxInt
    ensures ParseQueryInt(FormatInt(n)) == Some(n)
  {
    var s := FormatInt(n);
    if n < 0 {
      DigitsRoundTrip(-n);
      assert Unsigned(s) == Digits(-n);
    } else {
      DigitsRoundTrip(n);
      assert s[0] != '-' && s[0] != '+';
      assert Unsigned(s) == Digits(n);
    }
  }

  lemma ParseQueryIntExamples()
    ensures ParseQueryInt("20") == Some(20)
    ensures ParseQueryInt("0") == Some(0)
    ensures ParseQueryInt("-1") == Some(-1)
    ensures ParseQueryInt("+7") == Some(7)
    ensures ParseQueryInt("007") == Some(7)
    ensures ParseQueryInt("-0") == Some(0)
    ensures ParseQueryInt("") == None
    ensures ParseQueryInt("-") == None
    ensures ParseQueryInt("abc") == None
    ensures ParseQueryInt("1.5") == None
  {
    assert "20"[..1] == "2" && "2"[..0] == [];
    assert DigitsValue("2") == 2;
    assert DigitsValue("20") == 20;
    assert Unsigned("-1") == "1";
    assert Unsigned("+7") == "7";
    assert "007"[..2] == "00" && "00"[..1] == "0" && "0"[..0] == [];
    assert DigitsValue("007") == 7;
    assert Unsigned("-0") == "0";
    assert !IsDigit("1.5"[1]);
  }
}
