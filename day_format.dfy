/**
 * Calendar days as the backend stores budget and expense dates: day
 * granularity, exchanged as `yyyy-MM-dd` text (the `@JsonFormat` pattern of
 * the budget's start and end dates).
 */
module DayFormat {
  import opened Wrappers

  datatype CalendarDay = CalendarDay(year: int, month: int, day: int)

  predicate IsLeapYear(y: int) {
    (y % 4 == 0 && y % 100 != 0) || y % 400 == 0
  }

  function DaysInMonth(y: int, m: int): int {
    if m == 2 then (if IsLeapYear(y) then 29 else 28)
    else if m == 4 || m == 6 || m == 9 || m == 11 then 30
    else 31
  }

  /** A day of the proleptic Gregorian calendar that the four-digit pattern can write. */
  predicate ValidDay(d: CalendarDay) {
    0 <= d.year <= 9999 && 1 <= d.month <= 12 && 1 <= d.day <= DaysInMonth(d.year, d.month)
  }

  /** A date as a stored `java.util.Date` holds it: always a real day. */
  type Day = d: CalendarDay | ValidDay(d) witness CalendarDay(1970, 1, 1)

  predicate IsDigit(c: char) {
    '0' <= c <= '9'
  }

  function DigitChar(n: int): (c: char)
    requires 0 <= n <= 9
    ensures IsDigit(c)
  {
    ('0' as int + n) as char
  }

  function DigitValue(c: char): (n: int)
    requires IsDigit(c)
    ensures 0 <= n <= 9 && DigitChar(n) == c
  {
    c as int - '0' as int
  }

  /** `n` written with exactly two digits. */
  function TwoDigits(n: int): (s: string)
    requires 0 <= n <= 99
    ensures |s| == 2 && IsDigit(s[0]) && IsDigit(s[1])
    ensures 10 * DigitValue(s[0]) + DigitValue(s[1]) == n
  {
    [DigitChar(n / 10), DigitChar(n % 10)]
  }

  /** `n` written with exactly four digits. */
  function FourDigits(n: int): (s: string)
    requires 0 <= n <= 9999
    ensures |s| == 4 && forall i :: 0 <= i < 4 ==> IsDigit(s[i])
    ensures 100 * (10 * DigitValue(s[0]) + DigitValue(s[1])) + 10 * DigitValue(s[2]) + DigitValue(s[3]) == n
  {
    TwoDigits(n / 100) + TwoDigits(n % 100)
  }

  /** The `yyyy-MM-dd` rendering of a day. */
  function Format(d: CalendarDay): (s: string)
    requires ValidDay(d)
    ensures |s| == 10 && s[4] == '-' && s[7] == '-'
    ensures forall i :: 0 <= i < 10 && i != 4 && i != 7 ==> IsDigit(s[i])
  {
    FourDigits(d.year) + "-" + TwoDigits(d.month) + "-" + TwoDigits(d.day)
  }

  /** Text shaped like `dddd-dd-dd`. */
  predicate WellShaped(s: string) {
    |s| == 10 && s[4] == '-' && s[7] == '-'
    && forall i :: 0 <= i < 10 && i != 4 && i != 7 ==> IsDigit(s[i])
  }

  /** Reads a strict `yyyy-MM-dd` day; anything else is rejected. */
  function Parse(s: string): (r: Option<CalendarDay>)
    ensures r.Some? ==> ValidDay(r.value) && WellShaped(s)
  {
    if !WellShaped(s) then None
    else
      var y := 1000 * DigitValue(s[0]) + 100 * DigitValue(s[1]) + 10 * DigitValue(s[2]) + DigitValue(s[3]);
      var m := 10 * DigitValue(s[5]) + DigitValue(s[6]);
      var d := 10 * DigitValue(s[8]) + DigitValue(s[9]);
      if ValidDay(CalendarDay(y, m, d)) then Some(CalendarDay(y, m, d)) else None
  }

  /** Every day survives the trip through its `yyyy-MM-dd` text. */
  lemma ParseFormat(d: CalendarDay)
    requires ValidDay(d)
    ensures Parse(Format(d)) == Some(d)
  {
    var s := Format(d);
    var y4 := FourDigits(d.year);
    var m2 := TwoDigits(d.month);
    var d2 := TwoDigits(d.day);
    assert s == y4 + "-" + m2 + "-" + d2;
    assert s[..4] == y4 && s[5..7] == m2 && s[8..] == d2;
    assert WellShaped(s);
  }

  lemma TwoDigitsOfValue(a: char, b: char)
    requires IsDigit(a) && IsDigit(b)
    ensures TwoDigits(10 * DigitValue(a) + DigitValue(b)) == [a, b]
  {
  }

  lemma FourDigitsOfValue(a: char, b: char, c: char, d: char)
    requires IsDigit(a) && IsDigit(b) && IsDigit(c) && IsDigit(d)
    ensures FourDigits(100 * (10 * DigitValue(a) + DigitValue(b)) + 10 * DigitValue(c) + DigitValue(d)) == [a, b, c, d]
  {
    var hi := 10 * DigitValue(a) + DigitValue(b);
    var lo := 10 * DigitValue(c) + DigitValue(d);
    var n := 100 * hi + lo;
    assert n / 100 == hi && n % 100 == lo;
    TwoDigitsOfValue(a, b);
    TwoDigitsOfValue(c, d);
    assert FourDigits(n) == [a, b] + [c, d];
  }

  /** Every text the parser accepts is exactly the rendering of the day it reads. */
  lemma FormatParse(s: string)
    requires Parse(s).Some?
    ensures Format(Parse(s).value) == s
  {
    var d := Parse(s).value;
    FourDigitsOfValue(s[0], s[1], s[2], s[3]);
    TwoDigitsOfValue(s[5], s[6]);
    TwoDigitsOfValue(s[8], s[9]);
    assert FourDigits(d.year) == s[..4];
    assert TwoDigits(d.month) == s[5..7];
    assert TwoDigits(d.day) == s[8..];
    assert s == s[..4] + "-" + s[5..7] + "-" + s[8..];
  }
}
