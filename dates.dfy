/**
 * Calendar dates as the store keeps them: `YYYY-MM-DD` strings. The views compare them as
 * strings and read their month (0 to 11, as `Date.getMonth` numbers them) and full year.
 */
module Dates {
  import opened Options

  /** A calendar month: `month` is 0 for January through 11 for December. */
  datatype YearMonth = YearMonth(year: int, month: int)

  predicate IsDigit(c: char) {
    '0' <= c <= '9'
  }

  function DigitValue(c: char): (d: int)
    requires IsDigit(c)
    ensures 0 <= d <= 9
  {
    c as int - '0' as int
  }

  function DigitChar(d: int): (c: char)
    requires 0 <= d <= 9
    ensures IsDigit(c) && DigitValue(c) == d
  {
    ('0' as int + d) as char
  }

  /** The string has the `YYYY-MM-DD` shape: digits with dashes at positions 4 and 7. */
  predicate WellShaped(date: string) {
    && |date| == 10 && date[4] == '-' && date[7] == '-'
    && IsDigit(date[0]) && IsDigit(date[1]) && IsDigit(date[2]) && IsDigit(date[3])
    && IsDigit(date[5]) && IsDigit(date[6]) && IsDigit(date[8]) && IsDigit(date[9])
  }

  /**
   * The year and month that `new Date(date)` reports, or `None` when the string is not a
   * valid date (an invalid `Date` has no month that equals any number).
   */
  function ParseYearMonth(date: string): (r: Option<YearMonth>)
    ensures r.Some? ==> 0 <= r.value.month < 12 && 0 <= r.value.year <= 9999
    ensures r.Some? ==> WellShaped(date)
  {
    if !WellShaped(date) then None
    else
      var year := 1000 * DigitValue(date[0]) + 100 * DigitValue(date[1])
                  + 10 * DigitValue(date[2]) + DigitValue(date[3]);
      var month := 10 * DigitValue(date[5]) + DigitValue(date[6]);
      var day := 10 * DigitValue(date[8]) + DigitValue(date[9]);
      if 1 <= month <= 12 && 1 <= day <= 31 then Some(YearMonth(year, month - 1)) else None
  }

  /**
   * The `YYYY-MM-DD` text of a date; `month` counts from 0. Nothing in the code builds date
   * texts this way: the function is here only to state `ParseFormat`.
   */
  function FormatDate(year: int, month: int, day: int): (s: string)
    requires 0 <= year <= 9999 && 0 <= month < 12 && 1 <= day <= 31
    ensures |s| == 10
  {
    [DigitChar(year / 1000), DigitChar(year / 100 % 10), DigitChar(year / 10 % 10), DigitChar(year % 10),
     '-', DigitChar((month + 1) / 10), DigitChar((month + 1) % 10),
     '-', DigitChar(day / 10), DigitChar(day % 10)]
  }

  lemma FourDigits(n: int)
    requires 0 <= n <= 9999
    ensures 1000 * (n / 1000) + 100 * (n / 100 % 10) + 10 * (n / 10 % 10) + n % 10 == n
  {
    var q := n / 10;
    assert n == 10 * q + n % 10;
    assert n / 100 == q / 10 && q == 10 * (q / 10) + q % 10;
    assert n / 1000 == q / 100 && q / 10 == 10 * (q / 100) + q / 10 % 10;
  }

  /** Reading the month and year of a formatted date gives them back. */
  lemma ParseFormat(year: int, month: int, day: int)
    requires 0 <= year <= 9999 && 0 <= month < 12 && 1 <= day <= 31
    ensures ParseYearMonth(FormatDate(year, month, day)) == Some(YearMonth(year, month))
  {
    FourDigits(year);
  }
}
