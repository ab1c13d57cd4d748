/** Calendar dates as `new Date("YYYY-MM-DD")` reads them: UTC midnight of a day
    of the proleptic Gregorian calendar, so that the difference of two such dates
    in milliseconds divided by 86 400 000 is an exact whole number of days. */
module CivilDate {
  import opened Wrappers

  predicate IsLeapYear(y: int) {
    y % 4 == 0 && (y % 100 != 0 || y % 400 == 0)
  }

  function DaysInYear(y: int): int {
    if IsLeapYear(y) then 366 else 365
  }

  /** Days from 1 January of year 0 to 1 January of year `y`: 365 per year plus
      one for each leap year in `[0, y)`. */
  function DaysBeforeYear(y: nat): nat {
    365 * y + (y + 3) / 4 - (y + 99) / 100 + (y + 399) / 400
  }

  /** Consecutive years are one year length apart. */
  lemma {:induction false} NextYear(y: nat)
    ensures DaysBeforeYear(y + 1) == DaysBeforeYear(y) + DaysInYear(y)
  {
    MultipleStep4(y);
    MultipleStep100(y);
    MultipleStep400(y);
    var c4 := if y % 4 == 0 then 1 else 0;
    var c100 := if y % 100 == 0 then 1 else 0;
    var c400 := if y % 400 == 0 then 1 else 0;
    assert DaysBeforeYear(y + 1) == DaysBeforeYear(y) + 365 + c4 - c100 + c400;
    NestedMultiples(y);
    assert DaysInYear(y) == 365 + c4 - c100 + c400;
  }

  /** A multiple of 400 is one of 100, and a multiple of 100 one of 4. */
  lemma {:induction false} NestedMultiples(y: nat)
    ensures y % 100 == 0 ==> y % 4 == 0
    ensures y % 400 == 0 ==> y % 100 == 0
  {
    if y % 100 == 0 {
      assert y == 4 * (25 * (y / 100));
    }
    if y % 400 == 0 {
      assert y == 100 * (4 * (y / 400));
    }
  }

  /** Counting the multiples of 4 (of 100, of 400) below `y + 1` adds one to the
      count below `y` exactly when `y` is itself a multiple. */
  lemma {:induction false} MultipleStep4(y: nat)
    ensures (y + 4) / 4 == (y + 3) / 4 + (if y % 4 == 0 then 1 else 0)
  {
  }

  lemma {:induction false} MultipleStep100(y: nat)
    ensures (y + 100) / 100 == (y + 99) / 100 + (if y % 100 == 0 then 1 else 0)
  {
  }

  lemma {:induction false} MultipleStep400(y: nat)
    ensures (y + 400) / 400 == (y + 399) / 400 + (if y % 400 == 0 then 1 else 0)
  {
  }

  function DaysInMonth(y: int, m: int): int
    requires 1 <= m <= 12
  {
    if m == 2 then (if IsLeapYear(y) then 29 else 28)
    else if m == 4 || m == 6 || m == 9 || m == 11 then 30
    else 31
  }

  /** Days from 1 January to the first day of month `m` of year `y`. */
  function DaysBeforeMonth(y: int, m: int): nat
    requires 1 <= m <= 12
  {
    [0, 31, 59, 90, 120, 151, 181, 212, 243, 273, 304, 334][m - 1]
      + (if m > 2 && IsLeapYear(y) then 1 else 0)
  }

  /** Each month starts where the previous one ends, and December ends the year. */
  lemma {:induction false} NextMonth(y: int, m: int)
    requires 1 <= m <= 12
    ensures m < 12 ==> DaysBeforeMonth(y, m + 1) == DaysBeforeMonth(y, m) + DaysInMonth(y, m)
    ensures m == 12 ==> DaysBeforeMonth(y, m) + DaysInMonth(y, m) == DaysInYear(y)
  {
  }

  /** The day number of year `y`, month `m`, day `d`: ECMAScript's MakeDay, which
      lets a day beyond the month's end run on into the next month. */
  function DayNumber(y: nat, m: int, d: int): int
    requires 1 <= m <= 12
  {
    DaysBeforeYear(y) + DaysBeforeMonth(y, m) + d - 1
  }

  predicate IsDigit(ch: char) {
    '0' as int <= ch as int <= '9' as int
  }

  /** The decimal value of a string of digits. */
  function DigitsValue(s: string): nat
    requires forall i :: 0 <= i < |s| ==> IsDigit(s[i])
    decreases |s|
  {
    if |s| == 0 then 0
    else
      assert IsDigit(s[|s| - 1]);
      10 * DigitsValue(s[..|s| - 1]) + (s[|s| - 1] as int - '0' as int)
  }

  function DigitValue(ch: char): int {
    ch as int - '0' as int
  }

  lemma {:induction false} DigitsValueSnoc(s: string)
    requires |s| > 0 && forall i :: 0 <= i < |s| ==> IsDigit(s[i])
    ensures DigitsValue(s) == 10 * DigitsValue(s[..|s| - 1]) + DigitValue(s[|s| - 1])
  {
  }

  /** The three fields of a ten-character date, read digit by digit. */
  lemma {:induction false} DateFields(s: string)
    requires |s| == 10 && s[4] == '-' && s[7] == '-'
    requires forall i :: 0 <= i < 10 && i != 4 && i != 7 ==> IsDigit(s[i])
    ensures DigitsValue(s[..4]) == 1000 * DigitValue(s[0]) + 100 * DigitValue(s[1]) + 10 * DigitValue(s[2]) + DigitValue(s[3])
    ensures DigitsValue(s[5..7]) == 10 * DigitValue(s[5]) + DigitValue(s[6])
    ensures DigitsValue(s[8..10]) == 10 * DigitValue(s[8]) + DigitValue(s[9])
  {
    var y := s[..4];
    DigitsValueSnoc(y);
    assert y[..3] == s[..3];
    DigitsValueSnoc(s[..3]);
    assert s[..3][..2] == s[..2];
    DigitsValueSnoc(s[..2]);
    assert s[..2][..1] == s[..1];
    DigitsValueSnoc(s[..1]);
    assert s[..1][..0] == [];
    DigitsValueSnoc(s[5..7]);
    assert s[5..7][..1] == s[5..6];
    DigitsValueSnoc(s[5..6]);
    assert s[5..6][..0] == [];
    DigitsValueSnoc(s[8..10]);
    assert s[8..10][..1] == s[8..9];
    DigitsValueSnoc(s[8..9]);
    assert s[8..9][..0] == [];
  }

  /** The date-only form `YYYY-MM-DD` of the ECMAScript date time string format,
      with `MM` in 01..12 and `DD` in 01..31. */
  predicate IsIsoDate(s: string) {
    && |s| == 10 && s[4] == '-' && s[7] == '-'
    && (forall i :: 0 <= i < 10 && i != 4 && i != 7 ==> IsDigit(s[i]))
    && 1 <= DigitsValue(s[5..7]) <= 12
    && 1 <= DigitsValue(s[8..10]) <= 31
  }

  function Year(s: string): nat requires IsIsoDate(s) { DigitsValue(s[..4]) }
  function Month(s: string): nat requires IsIsoDate(s) { DigitsValue(s[5..7]) }
  function Day(s: string): nat requires IsIsoDate(s) { DigitsValue(s[8..10]) }

  /** `new Date(s)` in whole days, for the values a `type="date"` input holds:
      the day number of a `YYYY-MM-DD` string, and `None` (an invalid date,
      whose time value is NaN) for the empty string. Other strings also give
      `None` here, though V8 reads some of them as dates. */
  function ParseIsoDate(s: string): (r: Option<int>)
    ensures r.Some? <==> IsIsoDate(s)
    ensures r.Some? ==> r.value == DayNumber(Year(s), Month(s), Day(s))
  {
    if IsIsoDate(s) then Some(DayNumber(Year(s), Month(s), Day(s))) else None
  }
}
