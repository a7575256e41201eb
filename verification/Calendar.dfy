/**
 Plain calendar dates, the way the datepicker gets them out of the host's Date object: the proleptic
 Gregorian calendar, local midnight, no daylight saving.
 */
module Calendar {

  datatype Date = Date(year: int, month: int, day: int)

  predicate Leap(year: int) {
    year % 4 == 0 && (year % 100 != 0 || year % 400 == 0)
  }

  function MonthLength(year: int, month: int): (n: int)
    ensures 28 <= n <= 31
  {
    if month == 2 then if Leap(year) then 29 else 28
    else if month == 4 || month == 6 || month == 9 || month == 11 then 30
    else 31
  }

  predicate Valid(d: Date) {
    1 <= d.month <= 12 && 1 <= d.day <= MonthLength(d.year, d.month)
  }

  // ----- walking through the calendar

  function NextMonth(d: Date): Date {
    if d.month == 12 then Date(d.year + 1, 1, 1) else Date(d.year, d.month + 1, 1)
  }

  function NextDay(d: Date): Date {
    if d.day < MonthLength(d.year, d.month) then d.(day := d.day + 1) else NextMonth(d)
  }

  function PreviousDay(d: Date): Date {
    if d.day > 1 then d.(day := d.day - 1)
    else if d.month > 1 then Date(d.year, d.month - 1, MonthLength(d.year, d.month - 1))
    else Date(d.year - 1, 12, 31)
  }

  function Shift(d: Date, days: int): (r: Date)
    requires Valid(d)
    ensures Valid(r)
    decreases if days < 0 then -days else days
  {
    if days == 0 then d
    else if days > 0 then Shift(NextDay(d), days - 1)
    else Shift(PreviousDay(d), days + 1)
  }

  /** The year that new Date(year, month, day) takes a year for. */
  function HostYear(year: int): int {
    if 0 <= year <= 99 then 1900 + year else year
  }

  /** new Date(year, month, day) with month counted from 0: two-digit years are 19xx, overflow carries on. */
  function MakeDate(year: int, month: int, day: int): (r: Date)
    ensures Valid(r)
  {
    Shift(Date(HostYear(year) + month / 12, month % 12 + 1, 1), day - 1)
  }

  // ----- day numbers

  function DaysBeforeYear(year: int): int {
    365 * (year - 1) + (year - 1) / 4 - (year - 1) / 100 + (year - 1) / 400
  }

  function DaysBeforeMonth(year: int, month: int): (n: int)
    ensures n >= 0
    ensures 28 * (month - 1) <= n || month < 1
    decreases month
  {
    if month <= 1 then 0 else DaysBeforeMonth(year, month - 1) + MonthLength(year, month - 1)
  }

  /** Whole days, getTime() / 86400000 up to a constant: 1 January of year 1 is day 1. */
  function DayNumber(d: Date): int {
    DaysBeforeYear(d.year) + DaysBeforeMonth(d.year, d.month) + d.day
  }

  function DayOfYear(d: Date): int {
    DaysBeforeMonth(d.year, d.month) + d.day
  }

  function YearLength(year: int): int {
    if Leap(year) then 366 else 365
  }

  /** getDay(): 0 is Sunday; 1 January of year 1 was a Monday. */
  function Weekday(d: Date): (w: int)
    ensures 0 <= w <= 6
  {
    DayNumber(d) % 7
  }

  lemma YearsFollow(year: int)
    ensures DaysBeforeYear(year + 1) == DaysBeforeYear(year) + YearLength(year)
  {
    assert year / 4 - (year - 1) / 4 == if year % 4 == 0 then 1 else 0;
    assert year / 100 - (year - 1) / 100 == if year % 100 == 0 then 1 else 0;
    assert year / 400 - (year - 1) / 400 == if year % 400 == 0 then 1 else 0;
  }

  lemma MonthsFillYear(year: int)
    ensures DaysBeforeMonth(year, 12) == YearLength(year) - 31
  {
    var m: int -> int := m => DaysBeforeMonth(year, m);
    assert m(2) == 31 && m(3) == 31 + MonthLength(year, 2);
    assert m(4) == m(3) + 31 && m(5) == m(4) + 30 && m(6) == m(5) + 31 && m(7) == m(6) + 30;
    assert m(8) == m(7) + 31 && m(9) == m(8) + 31 && m(10) == m(9) + 30 && m(11) == m(10) + 31;
  }

  lemma NextDayCounts(d: Date)
    requires Valid(d)
    ensures Valid(NextDay(d)) && DayNumber(NextDay(d)) == DayNumber(d) + 1
  {
    if d.day == MonthLength(d.year, d.month) && d.month == 12 {
      YearsFollow(d.year);
      MonthsFillYear(d.year);
    }
  }

  lemma PreviousDayCounts(d: Date)
    requires Valid(d)
    ensures Valid(PreviousDay(d)) && DayNumber(PreviousDay(d)) == DayNumber(d) - 1
  {
    assert NextDay(PreviousDay(d)) == d;
    NextDayCounts(PreviousDay(d));
  }

  ghost predicate CountsDays(number: Date -> int, d: Date) {
    number(NextDay(d)) == number(d) + 1 && number(PreviousDay(d)) == number(d) - 1
  }

  /** Any numbering that goes up by one from each day to the next. */
  lemma {:induction false} ShiftAdds(number: Date -> int, d: Date, days: int)
    requires Valid(d) && forall e {:trigger CountsDays(number, e)} :: Valid(e) ==> CountsDays(number, e)
    ensures number(Shift(d, days)) == number(d) + days
    decreases if days < 0 then -days else days
  {
    assert CountsDays(number, d);
    if days > 0 {
      ShiftAdds(number, NextDay(d), days - 1);
    } else if days < 0 {
      ShiftAdds(number, PreviousDay(d), days + 1);
    }
  }

  /** Shifting by a number of days adds it to the day number. */
  lemma ShiftCounts(d: Date, days: int)
    requires Valid(d)
    ensures DayNumber(Shift(d, days)) == DayNumber(d) + days
  {
    forall e | Valid(e)
      ensures CountsDays(DayNumber, e)
    {
      NextDayCounts(e);
      PreviousDayCounts(e);
    }
    ShiftAdds(DayNumber, d, days);
  }

  // ----- anchors

  lemma WeekdaysFollow(d: Date)
    requires Valid(d)
    ensures Weekday(NextDay(d)) == (Weekday(d) + 1) % 7
  {
    NextDayCounts(d);
    SevenDays(DayNumber(d));
  }

  lemma SevenDays(n: int)
    ensures (n + 1) % 7 == (n % 7 + 1) % 7
  {
  }

  /** 1 January 1970 was a Thursday, 10 January 2016 a Sunday. */
  lemma KnownWeekdays()
    ensures Weekday(Date(1970, 1, 1)) == 4 && Weekday(Date(2016, 1, 10)) == 0
    ensures DayNumber(Date(1970, 1, 1)) == 719163
  {
  }

  const MONTH_LENGTHS: seq<int> := [31, 28, 31, 30, 31, 30, 31, 31, 30, 31, 30, 31]

  /** The lengths of the months, and the years that have a leap day. */
  lemma KnownLengths(year: int, month: int)
    requires 1 <= month <= 12
    ensures MonthLength(year, month) == MONTH_LENGTHS[month - 1] + if month == 2 && Leap(year) then 1 else 0
    ensures Leap(2000) && Leap(2016) && !Leap(1900) && !Leap(2015)
  {
  }

  const DAYS_BEFORE: seq<int> := [0, 31, 59, 90, 120, 151, 181, 212, 243, 273, 304, 334]

  lemma KnownDaysBefore(year: int, month: int)
    requires 1 <= month <= 12
    ensures DaysBeforeMonth(year, month) == DAYS_BEFORE[month - 1] + if month > 2 && Leap(year) then 1 else 0
    decreases month
  {
    if month > 1 {
      KnownDaysBefore(year, month - 1);
      KnownLengths(year, month - 1);
    }
  }

  // ----- the day number determines the date

  lemma {:induction false} DaysBeforeMonthGrows(year: int, m: int, n: int)
    requires 1 <= m < n
    ensures DaysBeforeMonth(year, m) + MonthLength(year, m) <= DaysBeforeMonth(year, n)
    decreases n
  {
    if m < n - 1 {
      DaysBeforeMonthGrows(year, m, n - 1);
    }
  }

  lemma {:induction false} DaysBeforeYearGrows(y: int, z: int)
    requires y < z
    ensures DaysBeforeYear(y) + YearLength(y) <= DaysBeforeYear(z)
    decreases z - y
  {
    YearsFollow(y);
    if y + 1 < z {
      DaysBeforeYearGrows(y + 1, z);
    }
  }

  lemma DayOfYearRange(d: Date)
    requires Valid(d)
    ensures 1 <= DayOfYear(d) <= YearLength(d.year)
  {
    MonthsFillYear(d.year);
    if d.month < 12 {
      DaysBeforeMonthGrows(d.year, d.month, 12);
    }
  }

  /** Dates are ordered as their day numbers. */
  lemma DayNumberOrders(a: Date, b: Date)
    requires Valid(a) && Valid(b)
    ensures a.year < b.year ==> DayNumber(a) < DayNumber(b)
    ensures a.year == b.year && a.month < b.month ==> DayNumber(a) < DayNumber(b)
    ensures DayNumber(a) == DayNumber(b) <==> a == b
  {
    DayOfYearRange(a);
    DayOfYearRange(b);
    if a.year < b.year {
      DaysBeforeYearGrows(a.year, b.year);
    } else if b.year < a.year {
      DaysBeforeYearGrows(b.year, a.year);
    } else if a.month < b.month {
      DaysBeforeMonthGrows(a.year, a.month, b.month);
    } else if b.month < a.month {
      DaysBeforeMonthGrows(a.year, b.month, a.month);
    }
  }

  /** A shift is the only valid date with that day number. */
  lemma ShiftIs(d: Date, days: int, target: Date)
    requires Valid(d) && Valid(target) && DayNumber(target) == DayNumber(d) + days
    ensures Shift(d, days) == target
  {
    ShiftCounts(d, days);
    DayNumberOrders(Shift(d, days), target);
  }

  // ----- the constructor of the host

  lemma LeapTogether(year: int)
    requires 0 < year <= 99
    ensures Leap(year) <==> Leap(1900 + year)
  {
  }

  /** Of a real date that is the date in the host's year; only 29 February of year 0 does not exist there. */
  lemma HostDate(d: Date)
    requires Valid(d)
    ensures MakeDate(d.year, d.month - 1, d.day) ==
      if d == Date(0, 2, 29) then Date(1900, 3, 1) else Date(HostYear(d.year), d.month, d.day)
  {
    if d == Date(0, 2, 29) {
      LeapDayOfYearZero();
    } else {
      HostHasDate(d);
      ShiftIs(Date(HostYear(d.year), d.month, 1), d.day - 1, Date(HostYear(d.year), d.month, d.day));
    }
  }

  lemma LeapDayOfYearZero()
    ensures MakeDate(0, 1, 29) == Date(1900, 3, 1)
  {
    ShiftIs(Date(1900, 2, 1), 28, Date(1900, 3, 1));
  }

  lemma HostHasDate(d: Date)
    requires Valid(d) && d != Date(0, 2, 29)
    ensures Valid(Date(HostYear(d.year), d.month, d.day))
  {
    if 0 < d.year <= 99 {
      LeapTogether(d.year);
    }
  }

  /**
   The check after new Date(year, month - 1, day) accepts exactly the dates that exist, of years that are
   not taken for 19xx.
   */
  lemma AcceptedExactlyWhenReal(year: int, month: int, day: int)
    ensures MakeDate(year, month - 1, day) == Date(year, month, day)
      <==> Valid(Date(year, month, day)) && !(0 <= year <= 99)
  {
    if Valid(Date(year, month, day)) {
      HostDate(Date(year, month, day));
    }
  }

  // ----- _getDaysInMonth and iso8601Week

  /** The day that new Date(year, month, 32) spills over to, taken from 32. */
  function GetDaysInMonth(year: int, month: int): int {
    32 - MakeDate(year, month, 32).day
  }

  /** Thirty-one days after the first of a month lies in the next month. */
  lemma SpillOver(first: Date)
    requires Valid(first) && first.day == 1
    ensures Shift(first, 31).day == 32 - MonthLength(first.year, first.month)
  {
    var length := MonthLength(first.year, first.month);
    var target := NextMonth(first).(day := 32 - length);
    SpillOverCounts(first);
    ShiftIs(first, 31, target);
  }

  lemma SpillOverCounts(first: Date)
    requires Valid(first) && first.day == 1
    ensures DayNumber(NextMonth(first).(day := 32 - MonthLength(first.year, first.month))) == DayNumber(first) + 31
    ensures Valid(NextMonth(first).(day := 32 - MonthLength(first.year, first.month)))
  {
    NextDayCounts(first.(day := MonthLength(first.year, first.month)));
  }

  lemma DaysInMonthIsLength(year: int, month: int)
    ensures GetDaysInMonth(year, month) == MonthLength(HostYear(year) + month / 12, month % 12 + 1)
  {
    SpillOver(Date(HostYear(year) + month / 12, month % 12 + 1, 1));
  }

  /** From 1 for Monday to 7 for Sunday. */
  function IsoWeekday(d: Date): (w: int)
    ensures 1 <= w <= 7
  {
    if Weekday(d) == 0 then 7 else Weekday(d)
  }

  /** The Thursday of the week of d. */
  function ThursdayOf(d: Date): (r: Date)
    requires Valid(d)
    ensures Valid(r)
  {
    Shift(d, 4 - IsoWeekday(d))
  }

  function Iso8601Week(d: Date): int
    requires Valid(d)
  {
    var thursday := ThursdayOf(d);
    (DayNumber(thursday) - DayNumber(Date(thursday.year, 1, 1))) / 7 + 1
  }

  lemma ThursdayCounts(d: Date)
    requires Valid(d)
    ensures DayNumber(ThursdayOf(d)) == DayNumber(d) + 4 - IsoWeekday(d)
  {
    ShiftCounts(d, 4 - IsoWeekday(d));
  }

  lemma FourthOfWeek(n: int)
    ensures (n + 4 - if n % 7 == 0 then 7 else n % 7) % 7 == 4
  {
  }

  lemma ThursdayIsThursday(d: Date)
    requires Valid(d)
    ensures Weekday(ThursdayOf(d)) == 4
  {
    ThursdayCounts(d);
    FourthOfWeek(DayNumber(d));
  }

  lemma WeekFromOrdinal(d: Date)
    requires Valid(d)
    ensures Iso8601Week(d) == (DayOfYear(ThursdayOf(d)) - 1) / 7 + 1
  {
  }

  /** The Monday to Sunday of a week share its number. */
  lemma WeekIsConstant(d: Date, e: Date)
    requires Valid(d) && Valid(e)
    requires DayNumber(d) - IsoWeekday(d) == DayNumber(e) - IsoWeekday(e)
    ensures Iso8601Week(d) == Iso8601Week(e)
  {
    ThursdayCounts(d);
    ThursdayCounts(e);
    DayNumberOrders(ThursdayOf(d), ThursdayOf(e));
  }

  lemma WeekInRange(d: Date)
    requires Valid(d)
    ensures 1 <= Iso8601Week(d) <= 53
  {
    WeekFromOrdinal(d);
    DayOfYearRange(ThursdayOf(d));
  }

  /** t is a Thursday, and none comes before it in its year. */
  ghost predicate FirstThursday(t: Date)
    requires Valid(t)
  {
    && Weekday(t) == 4
    && forall s: Date :: Valid(s) && s.year == t.year && Weekday(s) == 4 ==> DayNumber(t) <= DayNumber(s)
  }

  lemma SameWeekdayApart(n: int, m: int)
    requires n % 7 == m % 7 && m < n
    ensures m + 7 <= n
  {
  }

  lemma WeekBefore(n: int)
    ensures (n - 7) % 7 == n % 7
  {
  }

  lemma FirstThursdayIsEarly(t: Date)
    requires Valid(t) && Weekday(t) == 4
    ensures FirstThursday(t) <==> DayOfYear(t) <= 7
  {
    if DayOfYear(t) <= 7 {
      forall s: Date | Valid(s) && s.year == t.year && Weekday(s) == 4
        ensures DayNumber(t) <= DayNumber(s)
      {
        DayOfYearRange(s);
        if DayNumber(s) < DayNumber(t) {
          SameWeekdayApart(DayNumber(t), DayNumber(s));
        }
      }
    } else {
      var s := Shift(t, -7);
      ShiftCounts(t, -7);
      WeekBefore(DayNumber(t));
      EarlierInYear(t, s);
      assert DayNumber(s) < DayNumber(t) && s.year == t.year && Weekday(s) == 4;
    }
  }

  lemma EarlierInYear(t: Date, s: Date)
    requires Valid(t) && Valid(s) && DayNumber(s) < DayNumber(t)
    ensures s.year <= t.year
    ensures DayNumber(t) - DayNumber(s) < DayOfYear(t) <==> s.year == t.year
  {
    DayOfYearRange(s);
    DayOfYearRange(t);
    if s.year < t.year {
      DaysBeforeYearGrows(s.year, t.year);
    } else if t.year < s.year {
      DaysBeforeYearGrows(t.year, s.year);
    }
  }

  /** The number is 1 exactly for the weeks that hold the first Thursday of a year. */
  lemma WeekOneHoldsFirstThursday(d: Date)
    requires Valid(d)
    ensures Iso8601Week(d) == 1 <==> FirstThursday(ThursdayOf(d))
  {
    ThursdayIsThursday(d);
    WeekFromOrdinal(d);
    FirstThursdayIsEarly(ThursdayOf(d));
    DayOfYearRange(ThursdayOf(d));
  }

  /** A week later the number is one more, or 1 when the Thursdays are in different years. */
  lemma WeeksFollow(d: Date)
    requires Valid(d)
    ensures Iso8601Week(Shift(d, 7)) ==
      if ThursdayOf(Shift(d, 7)).year == ThursdayOf(d).year then Iso8601Week(d) + 1 else 1
  {
    ThursdaysApart(d, Shift(d, 7));
    WeekFromOrdinal(d);
    WeekFromOrdinal(Shift(d, 7));
    OrdinalsApart(ThursdayOf(d), ThursdayOf(Shift(d, 7)));
  }

  lemma SameWeekday(d: Date, later: Date, n: int)
    requires DayNumber(later) == n && DayNumber(d) == n - 7
    ensures Weekday(later) == Weekday(d)
  {
    WeekBefore(n);
  }

  lemma ThursdaysApart(d: Date, later: Date)
    requires Valid(d) && later == Shift(d, 7)
    ensures DayNumber(ThursdayOf(later)) == DayNumber(ThursdayOf(d)) + 7
  {
    ShiftCounts(d, 7);
    SameWeekday(d, later, DayNumber(later));
    ThursdayCounts(d);
    ThursdayCounts(later);
  }

  lemma OrdinalsApart(t: Date, u: Date)
    requires Valid(t) && Valid(u) && DayNumber(u) == DayNumber(t) + 7
    ensures (DayOfYear(u) - 1) / 7 == if u.year == t.year then (DayOfYear(t) - 1) / 7 + 1 else 0
  {
    EarlierInYear(u, t);
    DayOfYearRange(u);
  }

  /** The week by the number of days that the Thursday of a date is away. */
  lemma WeekByThursday(d: Date, thursday: Date, away: int)
    requires Valid(d) && Valid(thursday) && away == 4 - IsoWeekday(d)
    requires DayNumber(thursday) == DayNumber(d) + away
    ensures Iso8601Week(d) == (DayOfYear(thursday) - 1) / 7 + 1
  {
    ShiftIs(d, away, thursday);
    WeekFromOrdinal(d);
  }

  /** The day number of a date, by the two tables. */
  function CountedDays(d: Date): int
    requires 1 <= d.month <= 12
  {
    DaysBeforeYear(d.year) + DAYS_BEFORE[d.month - 1] + (if d.month > 2 && Leap(d.year) then 1 else 0) + d.day
  }

  lemma WeekByTables(d: Date, thursday: Date, week: int)
    requires Valid(d) && Valid(thursday) && CountedDays(thursday) % 7 == 4
    requires CountedDays(thursday) - 3 <= CountedDays(d) <= CountedDays(thursday) + 3
    requires week == (CountedDays(thursday) - DaysBeforeYear(thursday.year) - 1) / 7 + 1
    ensures Iso8601Week(d) == week
  {
    KnownDaysBefore(d.year, d.month);
    KnownDaysBefore(thursday.year, thursday.month);
    NearThursday(CountedDays(d), CountedDays(thursday));
    WeekByThursday(d, thursday, DayNumber(thursday) - DayNumber(d));
  }

  lemma NearThursday(n: int, thursday: int)
    requires thursday % 7 == 4 && thursday - 3 <= n <= thursday + 3
    ensures thursday - n == 4 - if n % 7 == 0 then 7 else n % 7
  {
  }

  /** Some dates at the turn of the years, with their weeks; 10 January 2016 is a Sunday. */
  predicate KnownWeek(d: Date, week: int) {
    || (d == Date(2015, 12, 31) && week == 53) || (d == Date(2016, 1, 3) && week == 53)
    || (d == Date(2016, 1, 4) && week == 1) || (d == Date(2016, 1, 10) && week == 1)
    || (d == Date(2018, 12, 30) && week == 52) || (d == Date(2018, 12, 31) && week == 1)
    || (d == Date(2021, 1, 3) && week == 53) || (d == Date(2021, 1, 4) && week == 1)
  }

  lemma KnownWeeks(d: Date, week: int)
    requires KnownWeek(d, week)
    ensures Valid(d) && Iso8601Week(d) == week
  {
    var thursday :=
      if d == Date(2016, 1, 4) || d == Date(2016, 1, 10) then Date(2016, 1, 7)
      else if d.year < 2018 then Date(2015, 12, 31)
      else if d == Date(2018, 12, 30) then Date(2018, 12, 27)
      else if d == Date(2018, 12, 31) then Date(2019, 1, 3)
      else if d == Date(2021, 1, 3) then Date(2020, 12, 31)
      else Date(2021, 1, 7);
    WeekByTables(d, thursday, week);
  }
}
