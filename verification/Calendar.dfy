/**
 The Gregorian calendar from 1900 on, counted day by day, and the weekday formula
 of parse_rtc_datetime (src/core/emulator_config.h).
 */
module Calendar {
  datatype Date = Date(y: nat, m: nat, d: nat)

  predicate Leap(y: nat) { (y % 4 == 0 && y % 100 != 0) || y % 400 == 0 }

  const MONTH_DAYS := [31, 28, 31, 30, 31, 30, 31, 31, 30, 31, 30, 31]

  function DaysInMonth(y: nat, m: nat): (n: nat)
    requires 1 <= m <= 12
    ensures 28 <= n <= 31
  {
    if m == 2 && Leap(y) then 29 else MONTH_DAYS[m - 1]
  }

  predicate RealDate(t: Date) { t.y >= 1900 && 1 <= t.m <= 12 && 1 <= t.d <= DaysInMonth(t.y, t.m) }

  const ANCHOR := Date(1900, 1, 1)

  // The day after.
  function NextDay(t: Date): (n: Date)
    requires RealDate(t)
    ensures RealDate(n)
  {
    if t.d < DaysInMonth(t.y, t.m) then t.(d := t.d + 1)
    else if t.m < 12 then Date(t.y, t.m + 1, 1)
    else Date(t.y + 1, 1, 1)
  }

  // The day before, for all but the first one.
  function DayBefore(t: Date): (p: Date)
    requires RealDate(t) && t != ANCHOR
    ensures RealDate(p) && NextDay(p) == t
  {
    if t.d > 1 then t.(d := t.d - 1)
    else if t.m > 1 then Date(t.y, t.m - 1, DaysInMonth(t.y, t.m - 1))
    else Date(t.y - 1, 12, 31)
  }

  function DaysBeforeYear(y: nat): nat
    requires y >= 1900
  {
    if y == 1900 then 0 else DaysBeforeYear(y - 1) + if Leap(y - 1) then 366 else 365
  }

  function DaysBeforeMonth(y: nat, m: nat): nat
    requires 1 <= m <= 12
  {
    if m == 1 then 0 else DaysBeforeMonth(y, m - 1) + DaysInMonth(y, m - 1)
  }

  // Days from the anchor date on.
  function DayNumber(t: Date): nat
    requires RealDate(t)
  {
    DaysBeforeYear(t.y) + DaysBeforeMonth(t.y, t.m) + t.d - 1
  }

  // The months before m, with the leap day of this year in or out.
  lemma MonthTable(y: nat, m: nat)
    requires 1 <= m <= 12
    ensures DaysBeforeMonth(y, m)
         == [0, 31, 59, 90, 120, 151, 181, 212, 243, 273, 304, 334][m - 1] + if m > 2 && Leap(y) then 1 else 0
  {
    if m > 1 {
      MonthTable(y, m - 1);
    }
  }

  /** The day number counts days: the next day has the next number. */
  lemma NextDayNumber(t: Date)
    requires RealDate(t)
    ensures DayNumber(NextDay(t)) == DayNumber(t) + 1
  {
    MonthTable(t.y, t.m);
  }

  function DaysOn(n: nat): (t: Date)
    ensures RealDate(t)
  {
    if n == 0 then ANCHOR else NextDay(DaysOn(n - 1))
  }

  /** Every date from 1900 on is reached day by day, after its day number. */
  lemma {:induction false} EveryDateIsReached(t: Date)
    requires RealDate(t)
    ensures DaysOn(DayNumber(t)) == t
    decreases DayNumber(t)
  {
    if t == ANCHOR {
      assert DayNumber(t) == 0;
    } else {
      NextDayNumber(DayBefore(t));
      EveryDateIsReached(DayBefore(t));
    }
  }

  const SHIFTS := [0, 3, 2, 5, 0, 3, 5, 1, 4, 6, 2, 4]

  // The year as the formula takes it: January and February count to the last one.
  function FormulaYear(t: Date): nat
    requires RealDate(t)
  {
    if t.m < 3 then t.y - 1 else t.y
  }

  // 0 for Sunday.
  function Weekday(t: Date): (w: nat)
    requires RealDate(t)
    ensures w < 7
  {
    var yy := FormulaYear(t);
    (yy + yy / 4 - yy / 100 + yy / 400 + SHIFTS[t.m - 1] + t.d) % 7
  }

  // Leap years up to y.
  function LeapsTo(y: nat): int { y / 4 - y / 100 + y / 400 }

  lemma LeapStep(y: nat)
    requires y > 0
    ensures LeapsTo(y) == LeapsTo(y - 1) + if Leap(y) then 1 else 0
  {
    Steps(y, 4);
    Steps(y, 100);
    Steps(y, 400);
  }

  lemma Steps(y: nat, e: nat)
    requires y > 0 && (e == 4 || e == 100 || e == 400)
    ensures y / e == (y - 1) / e + if y % e == 0 then 1 else 0
  {
  }

  lemma {:induction false} YearsClosed(y: nat)
    requires y >= 1900
    ensures DaysBeforeYear(y) == 365 * (y - 1900) + LeapsTo(y - 1) - 460
  {
    if y > 1900 {
      YearsClosed(y - 1);
      LeapStep(y - 1);
    }
  }

  // The calendar repeats every 400 years, after 146097 days.
  lemma FourHundredYears(y: nat)
    requires y >= 1900
    ensures DaysBeforeYear(y + 400) == DaysBeforeYear(y) + 146097 && Leap(y + 400) == Leap(y)
  {
    YearsClosed(y);
    YearsClosed(y + 400);
    Later400(y - 1, 4);
    Later400(y - 1, 100);
    Later400(y - 1, 400);
  }

  lemma Later400(y: nat, e: nat)
    requires e == 4 || e == 100 || e == 400
    ensures (y + 400) / e == y / e + 400 / e && (y + 400) % e == y % e
  {
  }

  lemma WholeWeeks(a: int, b: int, k: int)
    requires a == b + 7 * k
    ensures a % 7 == b % 7
  {
  }

  const WEEKS := [0, 4, 8, 12, 17, 21, 25, 30, 34, 38, 43, 47]

  // The formula's month shifts are the days before the month, less whole weeks.
  lemma MonthShift(y: nat, m: nat)
    requires 1 <= m <= 12
    ensures DaysBeforeMonth(y, m) - SHIFTS[m - 1] - 7 * WEEKS[m - 1]
         == if m < 3 then 0 else if Leap(y) then 2 else 1
  {
    MonthTable(y, m);
  }

  // Whole weeks: 52 a year, less the 337 of the years before the anchor.
  function WeeksUpTo(t: Date): int
    requires RealDate(t)
  {
    52 * (t.y - 1900) - 337 + WEEKS[t.m - 1]
  }

  lemma DaysAndWeeks(t: Date)
    requires RealDate(t)
    ensures var yy := FormulaYear(t);
            DayNumber(t) + 1 == yy + LeapsTo(yy) + SHIFTS[t.m - 1] + t.d + 7 * WeeksUpTo(t)
  {
    YearsClosed(t.y);
    LeapStep(t.y);
    MonthShift(t.y, t.m);
  }

  /** The formula's weekday is the day count modulo 7: the anchor was a Monday. */
  lemma WeekdayCountsDays(t: Date)
    requires RealDate(t)
    ensures Weekday(t) == (DayNumber(t) + 1) % 7
  {
    DaysAndWeeks(t);
    var yy := FormulaYear(t);
    WholeWeeks(DayNumber(t) + 1, yy + LeapsTo(yy) + SHIFTS[t.m - 1] + t.d, WeeksUpTo(t));
  }

  const INT_MAX := 0x7FFF_FFFF

  predicate IsInt(n: int) { -INT_MAX - 1 <= n <= INT_MAX }

  // Does the formula stay within int, sum by sum from left to right?
  predicate FormulaFits(t: Date)
    requires RealDate(t)
  {
    var yy := FormulaYear(t);
    && IsInt(yy + yy / 4) && IsInt(yy + yy / 4 - yy / 100) && IsInt(yy + LeapsTo(yy))
    && IsInt(yy + LeapsTo(yy) + SHIFTS[t.m - 1]) && IsInt(yy + LeapsTo(yy) + SHIFTS[t.m - 1] + t.d)
  }

  /** The formula stays within int exactly up to formula year 1717986918. */
  lemma FormulaFitsUpTo(t: Date)
    requires RealDate(t)
    ensures FormulaFits(t) <==> FormulaYear(t) <= 1717986918
  {
    var yy := FormulaYear(t);
    assert yy / 400 <= yy / 100;
    assert yy + yy / 4 <= INT_MAX <==> yy <= 1717986918;
  }
}
