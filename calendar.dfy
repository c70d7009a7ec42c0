/** Dates as Python's `datetime.date` represents them: a day is its proleptic Gregorian ordinal
    (`date.toordinal()`, with 0001-01-01 as day 1), so `date + timedelta(days=k)` is `+ k`. */
module Calendar {
  import opened Text

  datatype CivilDate = CivilDate(year: int, month: int, day: int)

  /** Python's `date.weekday()`: Monday is 0 and Sunday is 6; day 1 (0001-01-01) was a Monday. */
  function Weekday(d: int): (w: int)
    ensures 0 <= w < 7
  {
    (d + 6) % 7
  }

  const Saturday: int := 5
  const Sunday: int := 6

  lemma WeekdayNext(d: int)
    ensures Weekday(d + 1) == (Weekday(d) + 1) % 7
    ensures Weekday(d + 7) == Weekday(d)
  {
  }

  predicate IsLeap(y: int) {
    y % 4 == 0 && (y % 100 != 0 || y % 400 == 0)
  }

  function DaysInYear(y: int): int {
    if IsLeap(y) then 366 else 365
  }

  function DaysInMonth(y: int, m: int): (n: int)
    requires 1 <= m <= 12
    ensures 28 <= n <= 31
  {
    if m == 2 then (if IsLeap(y) then 29 else 28)
    else if m == 4 || m == 6 || m == 9 || m == 11 then 30
    else 31
  }

  /** Days in the months of year `y` before month `m` (Python's `_days_before_month`). */
  function DaysBeforeMonth(y: int, m: int): (n: int)
    requires 1 <= m <= 12
    ensures 0 <= n <= 335
  {
    [0, 31, 59, 90, 120, 151, 181, 212, 243, 273, 304, 334][m - 1]
    + (if m > 2 && IsLeap(y) then 1 else 0)
  }

  /** Days in the years before year `y`, counted year by year. */
  function DaysBeforeYear(y: int): int
    requires y >= 1
  {
    if y == 1 then 0 else DaysBeforeYear(y - 1) + DaysInYear(y - 1)
  }

  /** Every year before `y` contributes 365 or 366 days. */
  lemma {:induction false} DaysBeforeYearBounds(y: int)
    requires y >= 1
    ensures 365 * (y - 1) <= DaysBeforeYear(y) <= 366 * (y - 1)
  {
    if y > 1 {
      DaysBeforeYearBounds(y - 1);
    }
  }

  /** Python's `_days_before_year`, a closed formula over the leap-year rule. */
  function DaysBeforeYearFormula(y: int): int
    requires y >= 1
  {
    var p := y - 1;
    p * 365 + p / 4 - p / 100 + p / 400
  }

  /** The year-by-year count and Python's formula agree on every year. */
  lemma {:induction false} DaysBeforeYearMatchesFormula(y: int)
    requires y >= 1
    ensures DaysBeforeYear(y) == DaysBeforeYearFormula(y)
  {
    if y > 1 {
      DaysBeforeYearMatchesFormula(y - 1);
      QuotientsStep(y - 2);
    }
  }

  /** The leap day of year `p + 1` is what the three quotients of the formula gain over `p`. */
  lemma QuotientsStep(p: int)
    requires p >= 0
    ensures DaysInYear(p + 1) - 365 == ((p + 1) / 4 - p / 4) - ((p + 1) / 100 - p / 100) + ((p + 1) / 400 - p / 400)
  {
    QuotientGains(p);
    MultiplesNest(p + 1);
  }

  lemma QuotientGains(p: int)
    requires p >= 0
    ensures (p + 1) / 4 - p / 4 == (if (p + 1) % 4 == 0 then 1 else 0)
    ensures (p + 1) / 100 - p / 100 == (if (p + 1) % 100 == 0 then 1 else 0)
    ensures (p + 1) / 400 - p / 400 == (if (p + 1) % 400 == 0 then 1 else 0)
  {
  }

  lemma MultiplesNest(q: int)
    ensures q % 400 == 0 ==> q % 100 == 0
    ensures q % 100 == 0 ==> q % 4 == 0
  {
    if q % 400 == 0 {
      var t := q / 400;
      assert q == 400 * t;
      assert q == 100 * (4 * t) + 0;
    }
    if q % 100 == 0 {
      var t := q / 100;
      assert q == 100 * t;
      assert q == 4 * (25 * t) + 0;
    }
  }

  lemma DaysBeforeMonthNext(y: int, m: int)
    requires 1 <= m <= 12
    ensures m < 12 ==> DaysBeforeMonth(y, m + 1) == DaysBeforeMonth(y, m) + DaysInMonth(y, m)
    ensures m == 12 ==> DaysBeforeMonth(y, m) + DaysInMonth(y, m) == DaysInYear(y)
  {
  }

  lemma DaysBeforeYearNext(y: int)
    requires y >= 1
    ensures DaysBeforeYear(y + 1) == DaysBeforeYear(y) + DaysInYear(y)
  {
  }

  lemma {:induction false} DaysBeforeYearMonotone(y0: int, y: int)
    requires 1 <= y0 < y
    ensures DaysBeforeYear(y) >= DaysBeforeYear(y0 + 1) == DaysBeforeYear(y0) + DaysInYear(y0)
    decreases y - y0
  {
    DaysBeforeYearNext(y0);
    if y0 + 1 < y {
      DaysBeforeYearMonotone(y0 + 1, y);
    }
  }

  predicate IsValid(c: CivilDate) {
    c.year >= 1 && 1 <= c.month <= 12 && 1 <= c.day <= DaysInMonth(c.year, c.month)
  }

  /** Python's `date(y, m, d).toordinal()`. */
  function Ordinal(c: CivilDate): int
    requires IsValid(c)
  {
    DaysBeforeYear(c.year) + DaysBeforeMonth(c.year, c.month) + c.day
  }

  /** The date that is day `rem` (counted from 1) of month `m` or later in year `y`. */
  function FindMonth(rem: int, y: int, m: int): (c: CivilDate)
    requires y >= 1 && 1 <= m <= 12
    requires 1 <= rem <= DaysInYear(y) - DaysBeforeMonth(y, m)
    ensures IsValid(c) && c.year == y && c.month >= m
    ensures DaysBeforeMonth(y, c.month) + c.day == DaysBeforeMonth(y, m) + rem
    decreases rem
  {
    DaysBeforeMonthNext(y, m);
    if rem > DaysInMonth(y, m) then FindMonth(rem - DaysInMonth(y, m), y, m + 1)
    else CivilDate(y, m, rem)
  }

  /** The date that is day `rem` (counted from 1) of year `y` or later. */
  function FindYear(rem: int, y: int): (c: CivilDate)
    requires y >= 1 && rem >= 1
    ensures IsValid(c) && c.year >= y
    ensures Ordinal(c) == DaysBeforeYear(y) + rem
    decreases rem
  {
    DaysBeforeYearNext(y);
    if rem > DaysInYear(y) then FindYear(rem - DaysInYear(y), y + 1)
    else FindMonth(rem, y, 1)
  }

  /** Python's `date.fromordinal(n)`. */
  function FromOrdinal(n: int): (c: CivilDate)
    requires n >= 1
    ensures IsValid(c) && Ordinal(c) == n
  {
    FindYear(n, 1)
  }

  lemma {:induction false} FindMonthOf(c: CivilDate, m0: int)
    requires IsValid(c) && 1 <= m0 <= c.month
    ensures 1 <= DaysBeforeMonth(c.year, c.month) - DaysBeforeMonth(c.year, m0) + c.day
              <= DaysInYear(c.year) - DaysBeforeMonth(c.year, m0)
    ensures FindMonth(DaysBeforeMonth(c.year, c.month) - DaysBeforeMonth(c.year, m0) + c.day, c.year, m0) == c
    decreases c.month - m0
  {
    var y := c.year;
    DaysBeforeMonthNext(y, m0);
    DaysBeforeMonthNext(y, c.month);
    if m0 < c.month {
      MonthsBetween(y, m0 + 1, c.month);
      FindMonthOf(c, m0 + 1);
    }
  }

  lemma {:induction false} MonthsBetween(y: int, m0: int, m: int)
    requires 1 <= m0 <= m <= 12
    ensures DaysBeforeMonth(y, m) + DaysInMonth(y, m) <= DaysInYear(y)
    ensures DaysBeforeMonth(y, m0) <= DaysBeforeMonth(y, m)
  {
  }

  /** Counting `rem` days from the start of year `y0` lands on `c` when `rem` is how far `c` lies
      from that start. */
  lemma {:induction false} FindYearOf(c: CivilDate, y0: int, rem: int)
    requires IsValid(c) && 1 <= y0 <= c.year
    requires rem == Ordinal(c) - DaysBeforeYear(y0)
    ensures rem >= 1 && FindYear(rem, y0) == c
    decreases c.year - y0
  {
    RemainderIn(c, y0);
    FindYearStep(rem, y0);
    if y0 < c.year {
      FindYearOf(c, y0 + 1, rem - DaysInYear(y0));
    } else {
      FindMonthOf(c, 1);
    }
  }

  /** Where day `Ordinal(c)` falls when counting from the start of year `y0`: past year `y0`
      while `y0` is before `c`'s year, and at `c`'s place in its own year otherwise. */
  lemma RemainderIn(c: CivilDate, y0: int)
    requires IsValid(c) && 1 <= y0 <= c.year
    ensures Ordinal(c) - DaysBeforeYear(y0) >= 1
    ensures y0 < c.year ==>
      && Ordinal(c) - DaysBeforeYear(y0) > DaysInYear(y0)
      && Ordinal(c) - DaysBeforeYear(y0) - DaysInYear(y0) == Ordinal(c) - DaysBeforeYear(y0 + 1)
    ensures y0 == c.year ==>
      && Ordinal(c) - DaysBeforeYear(y0) <= DaysInYear(y0)
      && Ordinal(c) - DaysBeforeYear(y0) == DaysBeforeMonth(c.year, c.month) - DaysBeforeMonth(c.year, 1) + c.day
  {
    if y0 < c.year {
      DaysBeforeYearMonotone(y0, c.year);
    } else {
      MonthsBetween(c.year, 1, c.month);
    }
  }

  lemma FindYearStep(rem: int, y: int)
    requires y >= 1 && rem >= 1
    ensures rem > DaysInYear(y) ==> FindYear(rem, y) == FindYear(rem - DaysInYear(y), y + 1)
    ensures rem <= DaysInYear(y) ==> FindYear(rem, y) == FindMonth(rem, y, 1)
  {
  }

  /** Conversion to and from ordinals are inverse: every valid date has exactly one day number. */
  lemma OrdinalRoundTrip(c: CivilDate)
    requires IsValid(c)
    ensures Ordinal(c) >= 1 && FromOrdinal(Ordinal(c)) == c
  {
    FindYearOf(c, 1, Ordinal(c) - DaysBeforeYear(1));
  }

  /** `date.strftime('%d/%m/%Y')`: zero-padded day and month, four-digit year. */
  function FormatDayMonthYear(d: int): string
    requires d >= 1
  {
    FormatDate(FromOrdinal(d))
  }

  function FormatDate(c: CivilDate): string
    requires IsValid(c)
  {
    PadZeros(NatToString(c.day), 2) + "/" + PadZeros(NatToString(c.month), 2) + "/"
      + PadZeros(NatToString(c.year), 4)
  }

  /** For every date up to 9999-12-31 the formatted text is ten characters wide and its three
      fields read back as the day, month and year of the date. */
  lemma FormatDayMonthYearDecodes(d: int)
    requires d >= 1 && FromOrdinal(d).year <= 9999
    ensures var s, c := FormatDayMonthYear(d), FromOrdinal(d);
      && |s| == 10 && s[2] == '/' && s[5] == '/'
      && AllDigits(s[0..2]) && AllDigits(s[3..5]) && AllDigits(s[6..10])
      && DecimalValue(s[0..2]) == c.day
      && DecimalValue(s[3..5]) == c.month
      && DecimalValue(s[6..10]) == c.year
  {
    FormatDateDecodes(FromOrdinal(d));
  }

  lemma FormatDateDecodes(c: CivilDate)
    requires IsValid(c) && c.year <= 9999
    ensures var s := FormatDate(c);
      && |s| == 10 && s[2] == '/' && s[5] == '/'
      && AllDigits(s[0..2]) && AllDigits(s[3..5]) && AllDigits(s[6..10])
      && DecimalValue(s[0..2]) == c.day
      && DecimalValue(s[3..5]) == c.month
      && DecimalValue(s[6..10]) == c.year
  {
    assert Pow10(2) == 100 && Pow10(4) == 10000;
    PaddedField(c.day, 2);
    PaddedField(c.month, 2);
    PaddedField(c.year, 4);
    Fields(PadZeros(NatToString(c.day), 2), PadZeros(NatToString(c.month), 2), PadZeros(NatToString(c.year), 4));
  }

  lemma Fields(dd: string, mm: string, yy: string)
    requires |dd| == 2 && |mm| == 2 && |yy| == 4
    ensures var s := dd + "/" + mm + "/" + yy;
      |s| == 10 && s[2] == '/' && s[5] == '/' && s[0..2] == dd && s[3..5] == mm && s[6..10] == yy
  {
    var s := dd + "/" + mm + "/" + yy;
    assert s[0..2] == dd;
    assert s[3..5] == mm;
    assert s[6..10] == yy;
  }
}
