/** The date rules both trip validators share: valibot's `isoDate()` format check and the
    comparison `new Date(end) > new Date(start)` of two such dates. */
module IsoDate {

  predicate IsDigit(c: char) {
    '0' <= c <= '9'
  }

  function DigitValue(c: char): (d: int)
    requires IsDigit(c)
    ensures 0 <= d <= 9
  {
    c as int - '0' as int
  }

  /** The number written by the two digits at `i` and `i + 1`. */
  function TwoDigits(s: string, i: int): (n: int)
    requires 0 <= i && i + 1 < |s| && IsDigit(s[i]) && IsDigit(s[i + 1])
    ensures 0 <= n <= 99
  {
    10 * DigitValue(s[i]) + DigitValue(s[i + 1])
  }

  /** `YYYY-MM-DD`: four digits, a dash, a month 01 to 12, a dash, a day 01 to 31. */
  predicate IsIsoDate(s: string) {
    && |s| == 10
    && s[4] == '-' && s[7] == '-'
    && (forall i :: 0 <= i < 10 && i != 4 && i != 7 ==> IsDigit(s[i]))
    && 1 <= TwoDigits(s, 5) <= 12
    && 1 <= TwoDigits(s, 8) <= 31
  }

  /** The day a valid date denotes, as a number that grows with the calendar: year, then month,
      then day. */
  function DayNumber(s: string): (n: int)
    requires IsIsoDate(s)
    ensures n >= 0
  {
    var year := 100 * TwoDigits(s, 0) + TwoDigits(s, 2);
    (year * 12 + TwoDigits(s, 5) - 1) * 31 + TwoDigits(s, 8) - 1
  }

  /** `new Date(end) > new Date(start)` for two valid dates. */
  predicate EndsAfter(start: string, end: string)
    requires IsIsoDate(start) && IsIsoDate(end)
  {
    DayNumber(end) > DayNumber(start)
  }

  /** `new Date(end) > new Date(start)` on any two strings: a string outside the ISO format reads
      as an invalid date, and every comparison with an invalid date is false. */
  predicate DatesOrdered(start: string, end: string) {
    IsIsoDate(start) && IsIsoDate(end) && EndsAfter(start, end)
  }

  /** Within a year and month, the later day is the later date; and a later month wins over any
      day of an earlier one in the same year. */
  lemma DayNumberOrdersCalendar(a: string, b: string)
    requires IsIsoDate(a) && IsIsoDate(b)
    requires a[..7] == b[..7] || (a[..5] == b[..5] && TwoDigits(a, 5) < TwoDigits(b, 5))
    ensures a[..7] == b[..7] ==> (EndsAfter(a, b) <==> TwoDigits(a, 8) < TwoDigits(b, 8))
    ensures a[..7] != b[..7] ==> EndsAfter(a, b)
  {
    assert a[0] == a[..7][0] && a[1] == a[..7][1] && a[2] == a[..7][2] && a[3] == a[..7][3];
    assert b[0] == b[..7][0] && b[1] == b[..7][1] && b[2] == b[..7][2] && b[3] == b[..7][3];
    assert a[0] == a[..5][0] && a[1] == a[..5][1] && a[2] == a[..5][2] && a[3] == a[..5][3];
    assert b[0] == b[..5][0] && b[1] == b[..5][1] && b[2] == b[..5][2] && b[3] == b[..5][3];
    if a[..7] == b[..7] {
      assert a[5] == a[..7][5] && a[6] == a[..7][6] && b[5] == b[..7][5] && b[6] == b[..7][6];
    }
  }
  /** The format is checked field by field, not against the calendar: the 30th of February
      passes, while a thirteenth month, a month 00, an unpadded month and the empty string do
      not. */
  lemma IsoDateExamples()
    ensures IsIsoDate("2024-02-30") && IsIsoDate("2024-12-31")
    ensures !IsIsoDate("2024-13-01") && !IsIsoDate("2024-00-10") && !IsIsoDate("2024-1-01") && !IsIsoDate("")
  {
    assert TwoDigits("2024-02-30", 5) == 2 && TwoDigits("2024-02-30", 8) == 30;
    assert TwoDigits("2024-12-31", 5) == 12 && TwoDigits("2024-12-31", 8) == 31;
    assert TwoDigits("2024-13-01", 5) == 13;
    assert TwoDigits("2024-00-10", 5) == 0;
    assert "2024-1-01"[7] != '-';
  }

  /** `>` on valid dates is a strict order: no date ends after itself, the relation is
      asymmetric and transitive, and it is total on distinct days. */
  lemma EndsAfterStrictOrder(a: string, b: string, c: string)
    requires IsIsoDate(a) && IsIsoDate(b) && IsIsoDate(c)
    ensures !EndsAfter(a, a)
    ensures EndsAfter(a, b) ==> !EndsAfter(b, a)
    ensures EndsAfter(a, b) && EndsAfter(b, c) ==> EndsAfter(a, c)
    ensures DayNumber(a) != DayNumber(b) ==> EndsAfter(a, b) || EndsAfter(b, a)
  {
  }
}
