/** The part of the moment library that the aggregator uses. An instant is a number of minutes since
    1970-01-01 00:00 local time. hour(), day() and startOf('isoWeek') are plain arithmetic on it;
    ISO week number, calendar year, month, quarter and adding a month or a quarter come from a
    Calendar value, because they depend on the Gregorian calendar, which is not modelled. */
module Moments {
  import opened Decimal

  const MinutesPerHour := 60
  const MinutesPerDay := 1440
  const MinutesPerWeek := 10080

  /** Days since the epoch (floor division, also before 1970). */
  function DayNumber(t: int): int {
    t / MinutesPerDay
  }

  /** hour(): the hour of day. */
  function Hour(t: int): (h: int)
    ensures 0 <= h < 24
  {
    (t % MinutesPerDay) / MinutesPerHour
  }

  /** day(): 0 is Sunday, 6 is Saturday; the first day of the epoch was a Thursday. */
  function WeekDay(t: int): (d: int)
    ensures 0 <= d < 7
  {
    (DayNumber(t) + 4) % 7
  }

  /** startOf('isoWeek'): midnight of the Monday that opens t's week. */
  function StartOfIsoWeek(t: int): int {
    (7 * ((DayNumber(t) + 3) / 7) - 3) * MinutesPerDay
  }

  lemma StartOfIsoWeekIsMonday(t: int)
    ensures WeekDay(StartOfIsoWeek(t)) == 1
    ensures StartOfIsoWeek(t) % MinutesPerDay == 0
    ensures StartOfIsoWeek(t) <= t < StartOfIsoWeek(t) + MinutesPerWeek
  {
    var q := (DayNumber(t) + 3) / 7;
    var m := 7 * q - 3;
    assert StartOfIsoWeek(t) == m * MinutesPerDay;
    assert (m * MinutesPerDay) % MinutesPerDay == 0;
    assert DayNumber(m * MinutesPerDay) == m;
    assert (m + 4) % 7 == 1 by {
      assert m + 4 == 7 * q + 1;
    }
  }

  /** Week starts are whole weeks apart, and taking the start twice changes nothing. */
  lemma StartOfIsoWeekGrid(t: int)
    ensures StartOfIsoWeek(t) == ((DayNumber(t) + 3) / 7) * MinutesPerWeek - 3 * MinutesPerDay
    ensures StartOfIsoWeek(StartOfIsoWeek(t)) == StartOfIsoWeek(t)
  {
    var q := (DayNumber(t) + 3) / 7;
    var m := 7 * q - 3;
    assert DayNumber(m * MinutesPerDay) == m;
    assert (m + 3) / 7 == q;
  }

  lemma {:induction false} StartOfIsoWeekMonotone(t1: int, t2: int)
    requires t1 <= t2
    ensures StartOfIsoWeek(t1) <= StartOfIsoWeek(t2)
  {
    assert DayNumber(t1) <= DayNumber(t2);
    assert (DayNumber(t1) + 3) / 7 <= (DayNumber(t2) + 3) / 7;
  }

  /** format('dddd') of day(d), English locale. */
  const DayNames: seq<string> := ["Sunday", "Monday", "Tuesday", "Wednesday", "Thursday", "Friday", "Saturday"]

  function DayName(d: int): string
    requires 0 <= d < 7
  {
    DayNames[d]
  }

  /** The calendar facts moment supplies, each as a function of an instant:
      isoWeek(), year() (the calendar year, not the ISO week-year), month() (0 is January),
      quarter() (1 to 4), add(1, 'month') and add(1, 'quarter'). */
  datatype Calendar = Calendar(
    isoWeek: int -> nat,
    year: int -> nat,
    month: int -> nat,
    quarter: int -> nat,
    addMonth: int -> int,
    addQuarter: int -> int)

  /** `w${isoWeek()} - ${year()}` */
  function WeekKey(cal: Calendar, t: int): string {
    "w" + DecimalString(cal.isoWeek(t)) + " - " + DecimalString(cal.year(t))
  }

  /** `${month() + 1}/${year()}` */
  function MonthKey(cal: Calendar, t: int): string {
    DecimalString(cal.month(t) + 1) + "/" + DecimalString(cal.year(t))
  }

  /** `Q${quarter()} - ${year()}` */
  function QuarterKey(cal: Calendar, t: int): string {
    "Q" + DecimalString(cal.quarter(t)) + " - " + DecimalString(cal.year(t))
  }

  /** The record key of a weekday bucket: the day number written as a property name. */
  function DayKey(t: int): string {
    DecimalString(WeekDay(t))
  }

  lemma WeekKeyInjective(cal: Calendar, t1: int, t2: int)
    ensures WeekKey(cal, t1) == WeekKey(cal, t2) <==>
            cal.isoWeek(t1) == cal.isoWeek(t2) && cal.year(t1) == cal.year(t2)
  {
    var a, b := DecimalString(cal.isoWeek(t1)), DecimalString(cal.year(t1));
    var c, d := DecimalString(cal.isoWeek(t2)), DecimalString(cal.year(t2));
    if WeekKey(cal, t1) == WeekKey(cal, t2) {
      assert WeekKey(cal, t1)[1..] == a + " - " + b;
      assert WeekKey(cal, t2)[1..] == c + " - " + d;
      SplitAtSeparator(a, b, c, d, " - ");
      DecimalStringInjective(cal.isoWeek(t1), cal.isoWeek(t2));
      DecimalStringInjective(cal.year(t1), cal.year(t2));
    }
  }

  lemma MonthKeyInjective(cal: Calendar, t1: int, t2: int)
    ensures MonthKey(cal, t1) == MonthKey(cal, t2) <==>
            cal.month(t1) == cal.month(t2) && cal.year(t1) == cal.year(t2)
  {
    var a, b := DecimalString(cal.month(t1) + 1), DecimalString(cal.year(t1));
    var c, d := DecimalString(cal.month(t2) + 1), DecimalString(cal.year(t2));
    if MonthKey(cal, t1) == MonthKey(cal, t2) {
      SplitAtSeparator(a, b, c, d, "/");
      DecimalStringInjective(cal.month(t1) + 1, cal.month(t2) + 1);
      DecimalStringInjective(cal.year(t1), cal.year(t2));
    }
  }

  lemma QuarterKeyInjective(cal: Calendar, t1: int, t2: int)
    ensures QuarterKey(cal, t1) == QuarterKey(cal, t2) <==>
            cal.quarter(t1) == cal.quarter(t2) && cal.year(t1) == cal.year(t2)
  {
    var a, b := DecimalString(cal.quarter(t1)), DecimalString(cal.year(t1));
    var c, d := DecimalString(cal.quarter(t2)), DecimalString(cal.year(t2));
    if QuarterKey(cal, t1) == QuarterKey(cal, t2) {
      assert QuarterKey(cal, t1)[1..] == a + " - " + b;
      assert QuarterKey(cal, t2)[1..] == c + " - " + d;
      SplitAtSeparator(a, b, c, d, " - ");
      DecimalStringInjective(cal.quarter(t1), cal.quarter(t2));
      DecimalStringInjective(cal.year(t1), cal.year(t2));
    }
  }

  /** The calendar periods whose buckets a moving cursor generates (the weekday views use seven
      fixed buckets instead). */
  datatype Granularity = Week | Month | Quarter

  function PeriodKey(cal: Calendar, g: Granularity, t: int): string {
    match g
    case Week => WeekKey(cal, t)
    case Month => MonthKey(cal, t)
    case Quarter => QuarterKey(cal, t)
  }

  /** The key a view gives an instant, as a function value (so that the bucket machinery can be
      stated once for every view). */
  function KeyOf(cal: Calendar, g: Granularity): int -> string {
    t => PeriodKey(cal, g, t)
  }

  /** add(1, 'weeks' | 'month' | 'quarter') on the cursor of the bucket generation loops. */
  function Advance(cal: Calendar, g: Granularity): int -> int {
    match g
    case Week => t => t + MinutesPerWeek
    case Month => cal.addMonth
    case Quarter => cal.addQuarter
  }
}
