/**
 * Calendar dates as the expense tracker validates them: the text a user types
 * is read with the format `%Y-%m-%d` (Python's `datetime.strptime`), which both
 * checks the shape of the text and that the date exists in the calendar.
 */
module Calendar {
  import opened Wrappers

  /** A date with no time component. */
  datatype Date = Date(year: int, month: int, day: int)

  /** The smallest and largest years a `datetime` can hold. */
  const MinYear: int := 1
  const MaxYear: int := 9999

  /** Gregorian leap years: every fourth year, except centuries not divisible by 400. */
  predicate IsLeapYear(y: int) {
    y % 4 == 0 && (y % 100 != 0 || y % 400 == 0)
  }

  function DaysInMonth(y: int, m: int): (n: int)
    requires 1 <= m <= 12
    ensures 28 <= n <= 31
    ensures m == 2 ==> (n == 29 <==> IsLeapYear(y))
    ensures m != 2 ==> (n == 30 <==> m in {4, 6, 9, 11})
    ensures m == 2 && !IsLeapYear(y) ==> n == 28
    ensures m !in {2, 4, 6, 9, 11} ==> n == 31
  {
    if m == 2 then (if IsLeapYear(y) then 29 else 28)
    else if m in {4, 6, 9, 11} then 30
    else 31
  }

  /** A date that exists in the calendar and that `datetime` can represent. */
  predicate ValidDate(d: Date) {
    && MinYear <= d.year <= MaxYear
    && 1 <= d.month <= 12
    && 1 <= d.day <= DaysInMonth(d.year, d.month)
  }

  /** Chronological order on dates. */
  predicate DateBefore(a: Date, b: Date) {
    || a.year < b.year
    || (a.year == b.year && a.month < b.month)
    || (a.year == b.year && a.month == b.month && a.day < b.day)
  }

  predicate IsDigit(c: char) {
    '0' <= c <= '9'
  }

  function DigitValue(c: char): (v: int)
    requires IsDigit(c)
    ensures 0 <= v <= 9
  {
    c as int - '0' as int
  }

  /** The characters s[from..to] are all digits. */
  predicate AllDigitsAt(s: string, from: nat, to: nat) {
    from <= to <= |s| && forall i :: from <= i < to ==> IsDigit(s[i])
  }

  /** The number the digits s[from..to] write. */
  function FieldValue(s: string, from: nat, to: nat): (n: nat)
    requires AllDigitsAt(s, from, to)
  {
    if from == to then 0 else 10 * FieldValue(s, from, to - 1) + DigitValue(s[to - 1])
  }

  /** The value of a digit field depends only on the characters in it. */
  lemma {:induction false} FieldValueAgrees(s: string, t: string, from: nat, to: nat)
    requires AllDigitsAt(s, from, to) && AllDigitsAt(t, from, to)
    requires forall i :: from <= i < to ==> s[i] == t[i]
    ensures FieldValue(s, from, to) == FieldValue(t, from, to)
  {
    if from < to {
      FieldValueAgrees(s, t, from, to - 1);
    }
  }

  /**
   * The `%m` directive: the alternatives `1[0-2]`, `0[1-9]` and `[1-9]`,
   * tried in that order at position i; gives the month and the number of
   * characters read.
   */
  function MonthField(s: string, i: nat): Option<(int, nat)> {
    if i + 1 < |s| && s[i] == '1' && '0' <= s[i + 1] <= '2' then
      Some((10 + DigitValue(s[i + 1]), 2))
    else if i + 1 < |s| && s[i] == '0' && '1' <= s[i + 1] <= '9' then
      Some((DigitValue(s[i + 1]), 2))
    else if i < |s| && '1' <= s[i] <= '9' then
      Some((DigitValue(s[i]), 1))
    else
      None
  }

  /**
   * The `%d` directive: the alternatives `3[01]`, `[12][0-9]`, `0[1-9]`,
   * `[1-9]` and ` [1-9]` (a space-padded day), tried in that order at
   * position i. The first alternative that matches is taken, even when
   * characters are left after it.
   */
  function DayField(s: string, i: nat): Option<(int, nat)> {
    if i + 1 < |s| && s[i] == '3' && (s[i + 1] == '0' || s[i + 1] == '1') then
      Some((30 + DigitValue(s[i + 1]), 2))
    else if i + 1 < |s| && (s[i] == '1' || s[i] == '2') && IsDigit(s[i + 1]) then
      Some((10 * DigitValue(s[i]) + DigitValue(s[i + 1]), 2))
    else if i + 1 < |s| && s[i] == '0' && '1' <= s[i + 1] <= '9' then
      Some((DigitValue(s[i + 1]), 2))
    else if i < |s| && '1' <= s[i] <= '9' then
      Some((DigitValue(s[i]), 1))
    else if i + 1 < |s| && s[i] == ' ' && '1' <= s[i + 1] <= '9' then
      Some((DigitValue(s[i + 1]), 2))
    else
      None
  }

  /**
   * Reading a text with the format `%Y-%m-%d`: four digits of year, a dash,
   * the month field, a dash, the day field, and nothing after it ("unconverted
   * data remains" otherwise). The fields read must then name an existing date
   * in years 1 to 9999, or the conversion fails as well.
   */
  function ParseDate(s: string): (r: Option<Date>)
    ensures r.Some? ==> ValidDate(r.value)
    ensures r.Some? ==> 8 <= |s| <= 10 && s[4] == '-'
    ensures r.Some? ==> AllDigitsAt(s, 0, 4) && r.value.year == FieldValue(s, 0, 4)
  {
    if |s| < 5 || !(IsDigit(s[0]) && IsDigit(s[1]) && IsDigit(s[2]) && IsDigit(s[3])) || s[4] != '-' then
      None
    else
      var year := FieldValue(s, 0, 4);
      match MonthField(s, 5)
      case None => None
      case Some((month, ml)) =>
        if 5 + ml >= |s| || s[5 + ml] != '-' then None
        else
          match DayField(s, 6 + ml)
          case None => None
          case Some((day, dl)) =>
            if 6 + ml + dl != |s| then None
            else if ValidDate(Date(year, month, day)) then Some(Date(year, month, day))
            else None
  }

  /** Two digits, zero-padded. */
  function TwoDigits(n: int): (r: string)
    requires 0 <= n <= 99
    ensures |r| == 2 && IsDigit(r[0]) && IsDigit(r[1])
    ensures 10 * DigitValue(r[0]) + DigitValue(r[1]) == n
  {
    [('0' as int + n / 10) as char, ('0' as int + n % 10) as char]
  }

  /** The text `strftime('%Y-%m-%d')` writes for a date of years 1 to 9999. */
  function FormatDate(d: Date): (r: string)
    requires ValidDate(d)
    ensures |r| == 10 && r[4] == '-' && r[7] == '-'
    ensures CanonicalShape(r) && CanonicalFields(r) == d
  {
    var hi, lo, m, dd := TwoDigits(d.year / 100), TwoDigits(d.year % 100), TwoDigits(d.month), TwoDigits(d.day);
    var s := hi + lo + "-" + m + "-" + dd;
    assert s[0] == hi[0] && s[1] == hi[1] && s[2] == lo[0] && s[3] == lo[1];
    assert s[5] == m[0] && s[6] == m[1] && s[8] == dd[0] && s[9] == dd[1];
    assert FieldValue(s, 0, 4) == d.year by {
      assert FieldValue(s, 0, 1) == DigitValue(s[0]);
      assert FieldValue(s, 0, 2) == 10 * DigitValue(s[0]) + DigitValue(s[1]);
      assert FieldValue(s, 0, 3) == 100 * DigitValue(s[0]) + 10 * DigitValue(s[1]) + DigitValue(s[2]);
    }
    assert FieldValue(s, 5, 7) == d.month by {
      assert FieldValue(s, 5, 6) == DigitValue(s[5]);
    }
    assert FieldValue(s, 8, 10) == d.day by {
      assert FieldValue(s, 8, 9) == DigitValue(s[8]);
    }
    s
  }

  /** A text of the exact shape `YYYY-MM-DD`: ten characters, digits around two dashes. */
  predicate CanonicalShape(s: string) {
    && |s| == 10 && s[4] == '-' && s[7] == '-'
    && AllDigitsAt(s, 0, 4) && AllDigitsAt(s, 5, 7) && AllDigitsAt(s, 8, 10)
  }

  /** The year, month and day a `YYYY-MM-DD` text writes, whether or not they form a date. */
  function CanonicalFields(s: string): Date
    requires CanonicalShape(s)
  {
    Date(FieldValue(s, 0, 4), FieldValue(s, 5, 7), FieldValue(s, 8, 10))
  }

  /**
   * On every text of the shape `YYYY-MM-DD` the date check gives exactly the
   * year, month and day written, and refuses the text exactly when they do
   * not name a date of the calendar (a month out of range, a day beyond the
   * month's length, February 29th outside leap years, year 0).
   */
  lemma ParseCanonical(s: string)
    requires CanonicalShape(s)
    ensures ParseDate(s) == if ValidDate(CanonicalFields(s)) then Some(CanonicalFields(s)) else None
  {
    assert FieldValue(s, 5, 7) == 10 * DigitValue(s[5]) + DigitValue(s[6]) by {
      assert FieldValue(s, 5, 6) == DigitValue(s[5]);
    }
    assert FieldValue(s, 8, 10) == 10 * DigitValue(s[8]) + DigitValue(s[9]) by {
      assert FieldValue(s, 8, 9) == DigitValue(s[8]);
    }
  }

  /** Reading back the text written for a valid date gives that date. */
  lemma ParseFormatRoundTrip(d: Date)
    requires ValidDate(d)
    ensures ParseDate(FormatDate(d)) == Some(d)
  {
    ParseCanonical(FormatDate(d));
  }

  /** Every date the reader accepts is one the writer can write back unchanged. */
  lemma ParsedDateFormats(s: string)
    requires ParseDate(s).Some?
    ensures ParseDate(FormatDate(ParseDate(s).value)) == ParseDate(s)
  {
    ParseFormatRoundTrip(ParseDate(s).value);
  }

  /** The validator's boundary cases: a month or a day out of range, text that is no date, February 29th. */
  lemma ParseDateExamples()
    ensures ParseDate("2024-13-40").None?
    ensures ParseDate("not-a-date").None?
    ensures ParseDate("2023-02-29").None?
    ensures ParseDate("2024-02-29") == Some(Date(2024, 2, 29))
    ensures ParseDate("2024-1-5") == Some(Date(2024, 1, 5))
    ensures ParseDate("2024-01-311").None?
    ensures ParseDate("0000-01-01").None?
  {
  }
}
