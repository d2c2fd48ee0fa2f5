/**
 * Calendar dates as the log service uses them: the ISO 8601 basic calendar-date
 * form YYYYMMDD (the `yyyyMMdd` pattern), `LocalDate.isBefore`, `plusDays(1)`, and
 * `LocalDate.parse` with a pattern-built formatter, whose default "smart" resolver
 * accepts a day-of-month from 1 to 31 and then clamps it to the length of the month.
 */
module Dates {
  import opened Results

  /** A date of the proleptic Gregorian calendar. */
  datatype Date = Date(year: int, month: int, day: int)

  predicate IsLeapYear(year: int) {
    year % 4 == 0 && (year % 100 != 0 || year % 400 == 0)
  }

  function DaysInMonth(year: int, month: int): (n: int)
    ensures 28 <= n <= 31
    ensures month == 2 ==> (n == 29 <==> IsLeapYear(year)) && n <= 29
    ensures (month == 4 || month == 6 || month == 9 || month == 11) ==> n == 30
  {
    if month == 2 then (if IsLeapYear(year) then 29 else 28)
    else if month == 4 || month == 6 || month == 9 || month == 11 then 30
    else 31
  }

  /** A date a `LocalDate` can hold (restricted to the common era). */
  predicate IsValid(d: Date) {
    1 <= d.year && 1 <= d.month <= 12 && 1 <= d.day <= DaysInMonth(d.year, d.month)
  }

  /** `a.isBefore(b)`: strictly earlier in the calendar. */
  predicate IsBefore(a: Date, b: Date) {
    a.year < b.year ||
    (a.year == b.year && (a.month < b.month || (a.month == b.month && a.day < b.day)))
  }

  /** `isBefore` is a strict total order on dates. */
  lemma IsBeforeStrictTotalOrder(a: Date, b: Date, c: Date)
    ensures !IsBefore(a, a)
    ensures IsBefore(a, b) ==> !IsBefore(b, a)
    ensures IsBefore(a, b) && IsBefore(b, c) ==> IsBefore(a, c)
    ensures a != b ==> IsBefore(a, b) || IsBefore(b, a)
  {
  }

  /** `d.plusDays(1)`. */
  function NextDay(d: Date): (r: Date)
    requires IsValid(d)
    ensures IsValid(r) && IsBefore(d, r)
  {
    if d.day < DaysInMonth(d.year, d.month) then Date(d.year, d.month, d.day + 1)
    else if d.month < 12 then Date(d.year, d.month + 1, 1)
    else Date(d.year + 1, 1, 1)
  }

  /** No valid date lies strictly between a date and the next day. */
  lemma NextDayIsSuccessor(d: Date, x: Date)
    requires IsValid(d) && IsValid(x)
    ensures IsBefore(x, NextDay(d)) <==> !IsBefore(d, x)
  {
  }

  // ---------------------------------------------------------------------------
  // Rendering and parsing the eight-digit form

  function Pow10(n: nat): (p: nat)
    ensures p >= 1
  {
    if n == 0 then 1 else 10 * Pow10(n - 1)
  }

  predicate IsDigit(c: char) {
    '0' <= c <= '9'
  }

  predicate AllDigits(s: string) {
    forall i | 0 <= i < |s| :: IsDigit(s[i])
  }

  function DigitChar(k: int): (c: char)
    requires 0 <= k < 10
    ensures IsDigit(c) && c as int - '0' as int == k
  {
    ('0' as int + k) as char
  }

  /** The last `width` decimal digits of `n`, zero-padded on the left. */
  function Digits(n: nat, width: nat): (s: string)
    ensures |s| == width && AllDigits(s)
  {
    if width == 0 then [] else Digits(n / 10, width - 1) + [DigitChar(n % 10)]
  }

  /** The number a string of decimal digits denotes. */
  function Value(s: string): nat
    requires AllDigits(s)
  {
    if s == [] then 0 else Value(s[..|s| - 1]) * 10 + (s[|s| - 1] as int - '0' as int)
  }

  /** Reading back `width` digits of a number that fits in them gives the number. */
  lemma {:induction false} ValueOfDigits(n: nat, width: nat)
    requires n < Pow10(width)
    ensures Value(Digits(n, width)) == n
  {
    if width > 0 {
      var s := Digits(n, width);
      assert s[..|s| - 1] == Digits(n / 10, width - 1);
      ValueOfDigits(n / 10, width - 1);
    }
  }

  /** The dates `Format` can render with four year digits. */
  predicate IsFormattable(d: Date) {
    IsValid(d) && d.year <= 9999
  }

  /** `d.format(ofPattern("yyyyMMdd"))`. */
  function Format(d: Date): (s: string)
    requires IsFormattable(d)
    ensures |s| == 8 && AllDigits(s)
  {
    Digits(d.year, 4) + Digits(d.month, 2) + Digits(d.day, 2)
  }

  function Min(a: int, b: int): int {
    if a <= b then a else b
  }

  /**
   * `LocalDate.parse(s, ofPattern("yyyyMMdd"))`, `None` where it throws: exactly
   * eight ASCII digits, a year-of-era of at least 1, a month from 1 to 12 and a
   * day from 1 to 31, the day then clamped to the length of the month.
   */
  function Parse(s: string): (r: Option<Date>)
    ensures r.Some? ==> IsValid(r.value)
    ensures r.Some? ==> |s| == 8 && AllDigits(s)
  {
    if |s| != 8 || !AllDigits(s) then None
    else
      var y, m, d := Value(s[..4]), Value(s[4..6]), Value(s[6..]);
      if y < 1 || m < 1 || 12 < m || d < 1 || 31 < d then None
      else Some(Date(y, m, Min(d, DaysInMonth(y, m))))
  }

  /** Every rendered date parses back to itself. */
  lemma ParseFormat(d: Date)
    requires IsFormattable(d)
    ensures Parse(Format(d)) == Some(d)
  {
    var s := Format(d);
    assert s[..4] == Digits(d.year, 4);
    assert s[4..6] == Digits(d.month, 2);
    assert s[6..] == Digits(d.day, 2);
    assert Pow10(4) == 10000 && Pow10(2) == 100;
    ValueOfDigits(d.year, 4);
    ValueOfDigits(d.month, 2);
    ValueOfDigits(d.day, 2);
  }

  /** The smart resolver turns 31 February into the last day of February. */
  lemma ParseClampsDay()
    ensures Parse("20230231") == Some(Date(2023, 2, 28))
  {
    var s := "20230231";
    assert s[..4] == "2023" && s[4..6] == "02" && s[6..] == "31";
    assert Value("2023") == 2023 by {
      assert "2023"[..3] == "202" && "202"[..2] == "20" && "20"[..1] == "2" && "2"[..0] == "";
    }
    assert Value("02") == 2 by {
      assert "02"[..1] == "0" && "0"[..0] == "";
    }
    assert Value("31") == 31 by {
      assert "31"[..1] == "3" && "3"[..0] == "";
    }
  }
}
