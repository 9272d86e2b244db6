/**
 * Month-granular dates and the `MM-YYYY` text form the service accepts
 * (`time.Parse("01-2006", s)` in both the service and the handler).
 */
module Calendar {
  import opened Wrappers

  datatype YearMonth = YearMonth(year: int, month: int)

  /**
   * A date as the service stores and compares it. Every date comes from the
   * `MM-YYYY` parser, which yields the first instant of a month, so the day and
   * the time of day carry no information and the month is always 1..12.
   */
  type Date = d: YearMonth | 1 <= d.month <= 12 witness YearMonth(1970, 1)

  /** The month number the cost query computes: `EXTRACT(YEAR) * 12 + EXTRACT(MONTH)`. */
  function Index(d: Date): int
  {
    d.year * 12 + d.month
  }

  /** Timestamp order `a <= b` between two first-of-month instants. */
  predicate NotAfter(a: Date, b: Date)
  {
    a.year < b.year || (a.year == b.year && a.month <= b.month)
  }

  /** Comparing the timestamps is the same as comparing the month numbers. */
  lemma NotAfterIsIndexOrder(a: Date, b: Date)
    ensures NotAfter(a, b) <==> Index(a) <= Index(b)
    ensures Index(a) == Index(b) <==> a == b
  {
  }

  /** SQL `LEAST(a, b)` on timestamps. */
  function Least(a: Date, b: Date): (r: Date)
    ensures r == a || r == b
    ensures Index(r) <= Index(a) && Index(r) <= Index(b)
  {
    NotAfterIsIndexOrder(a, b);
    if NotAfter(a, b) then a else b
  }

  /** SQL `GREATEST(a, b)` on timestamps. */
  function Greatest(a: Date, b: Date): (r: Date)
    ensures r == a || r == b
    ensures Index(a) <= Index(r) && Index(b) <= Index(r)
  {
    NotAfterIsIndexOrder(a, b);
    if NotAfter(a, b) then b else a
  }

  predicate IsDigit(c: char)
  {
    '0' <= c <= '9'
  }

  function DigitValue(c: char): int
    requires IsDigit(c)
  {
    c as int - '0' as int
  }

  function DigitChar(n: int): char
    requires 0 <= n <= 9
  {
    ('0' as int + n) as char
  }

  lemma DigitCharValue(n: int)
    requires 0 <= n <= 9
    ensures IsDigit(DigitChar(n)) && DigitValue(DigitChar(n)) == n
  {
  }

  lemma DigitValueChar(c: char)
    requires IsDigit(c)
    ensures DigitChar(DigitValue(c)) == c
  {
  }

  /** Splitting a two-digit number into its digits and back. */
  lemma TwoDigits(m: int, a: int, b: int)
    requires 0 <= a <= 9 && 0 <= b <= 9
    ensures m == a * 10 + b <==> m / 10 == a && m % 10 == b && 0 <= m <= 99
  {
  }

  /** Splitting a four-digit number into its digits and back. */
  lemma FourDigits(y: int, a: int, b: int, c: int, d: int)
    requires 0 <= a <= 9 && 0 <= b <= 9 && 0 <= c <= 9 && 0 <= d <= 9
    ensures y == a * 1000 + b * 100 + c * 10 + d
            <==> 0 <= y <= 9999 && y / 1000 == a && y / 100 % 10 == b && y / 10 % 10 == c && y % 10 == d
  {
    var hi := a * 10 + b;
    var lo := c * 10 + d;
    TwoDigits(hi, a, b);
    TwoDigits(lo, c, d);
    if y == a * 1000 + b * 100 + c * 10 + d {
      assert y == hi * 100 + lo;
      assert y / 100 == hi && y % 100 == lo;
      assert y / 10 == hi * 10 + c;
    }
    if 0 <= y <= 9999 && y / 1000 == a && y / 100 % 10 == b && y / 10 % 10 == c && y % 10 == d {
      assert y / 100 == hi;
      assert y / 10 == hi * 10 + c;
    }
  }

  /**
   * `time.Parse("01-2006", s)`: exactly two month digits naming a month 01..12,
   * a literal '-', exactly four year digits, and no further text. The parsed
   * value prints back to the very same string.
   */
  function ParseMonthYear(s: string): (r: Option<Date>)
    ensures r.Some? ==> 0 <= r.value.year <= 9999 && FormatMonthYear(r.value) == s
  {
    if |s| == 7 && IsDigit(s[0]) && IsDigit(s[1]) && s[2] == '-'
       && IsDigit(s[3]) && IsDigit(s[4]) && IsDigit(s[5]) && IsDigit(s[6])
    then
      var month := DigitValue(s[0]) * 10 + DigitValue(s[1]);
      var year := DigitValue(s[3]) * 1000 + DigitValue(s[4]) * 100 + DigitValue(s[5]) * 10 + DigitValue(s[6]);
      if 1 <= month <= 12 then
        TwoDigits(month, DigitValue(s[0]), DigitValue(s[1]));
        FourDigits(year, DigitValue(s[3]), DigitValue(s[4]), DigitValue(s[5]), DigitValue(s[6]));
        DigitValueChar(s[0]); DigitValueChar(s[1]);
        DigitValueChar(s[3]); DigitValueChar(s[4]); DigitValueChar(s[5]); DigitValueChar(s[6]);
        Some(YearMonth(year, month))
      else
        None
    else
      None
  }

  /** `t.Format("01-2006")` for a year Go prints with four digits. */
  function FormatMonthYear(d: Date): (s: string)
    requires 0 <= d.year <= 9999
    ensures |s| == 7 && s[2] == '-'
  {
    [DigitChar(d.month / 10), DigitChar(d.month % 10), '-',
     DigitChar(d.year / 1000), DigitChar(d.year / 100 % 10),
     DigitChar(d.year / 10 % 10), DigitChar(d.year % 10)]
  }

  /** Every date with a four-digit year survives formatting and parsing again. */
  lemma FormatThenParse(d: Date)
    requires 0 <= d.year <= 9999
    ensures ParseMonthYear(FormatMonthYear(d)) == Some(d)
  {
    var s := FormatMonthYear(d);
    var m1, m0 := d.month / 10, d.month % 10;
    var y3, y2, y1, y0 := d.year / 1000, d.year / 100 % 10, d.year / 10 % 10, d.year % 10;
    DigitCharValue(m1); DigitCharValue(m0);
    DigitCharValue(y3); DigitCharValue(y2); DigitCharValue(y1); DigitCharValue(y0);
    TwoDigits(d.month, m1, m0);
    FourDigits(d.year, y3, y2, y1, y0);
  }

  /** The cases the service tests pin: "01-2025" is January 2025, "2025-01" is refused. */
  lemma ParseMonthYearExamples()
    ensures ParseMonthYear("01-2025") == Some(YearMonth(2025, 1))
    ensures ParseMonthYear("12-2025") == Some(YearMonth(2025, 12))
    ensures ParseMonthYear("2025-01") == None
    ensures ParseMonthYear("13-2025") == None
    ensures ParseMonthYear("invalid") == None
  {
  }
}
