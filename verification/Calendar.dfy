/** Billing periods over UTC time values, in the terms of section 21.4.1 of ECMA-262. */
module Calendar {
  import opened Common

  const MS_PER_DAY := 86_400_000

  datatype BillingCycle = Monthly | Yearly

  predicate IsLeap(y: int) {
    y % 4 == 0 && (y % 100 != 0 || y % 400 == 0)
  }

  function DaysInYear(y: int): int {
    if IsLeap(y) then 366 else 365
  }

  function DayFromYear(y: int): int {
    365 * (y - 1970) + (y - 1969) / 4 - (y - 1901) / 100 + (y - 1601) / 400
  }

  function DaysInMonth(y: int, m: int): int
    requires 0 <= m < 12
  {
    if m == 1 then if IsLeap(y) then 29 else 28
    else if m == 3 || m == 5 || m == 8 || m == 10 then 30
    else 31
  }

  /** Days of year `y` before month `m`, months counted from 0; `m == 12` gives the whole year. */
  function DaysBefore(y: int, m: nat): int
    requires m <= 12
  {
    if m == 0 then 0 else DaysBefore(y, m - 1) + DaysInMonth(y, m - 1)
  }

  lemma WholeYear(y: int)
    ensures DaysBefore(y, 12) == DaysInYear(y)
  {
    assert DaysBefore(y, 1) == 31;
    assert DaysBefore(y, 2) == 31 + DaysInMonth(y, 1);
    assert DaysBefore(y, 4) == DaysBefore(y, 2) + 61;
    assert DaysBefore(y, 6) == DaysBefore(y, 4) + 61;
    assert DaysBefore(y, 8) == DaysBefore(y, 6) + 62;
    assert DaysBefore(y, 10) == DaysBefore(y, 8) + 61;
  }

  /** The day month `m` of year `y` starts on. */
  function MonthStart(y: int, m: nat): int
    requires m <= 12
  {
    DayFromYear(y) + DaysBefore(y, m)
  }

  function MakeDay(year: int, month: int, date: int): int {
    MonthStart(year + month / 12, month % 12) + date - 1
  }

  function YearUp(day: int, y: int): (r: int)
    requires DayFromYear(y) <= day
    ensures DayFromYear(r) <= day < DayFromYear(r + 1)
    decreases day - DayFromYear(y)
  {
    YearLength(y);
    if day < DayFromYear(y + 1) then y else YearUp(day, y + 1)
  }

  function YearDown(day: int, y: int): (r: int)
    requires day < DayFromYear(y + 1)
    ensures DayFromYear(r) <= day < DayFromYear(r + 1)
    decreases DayFromYear(y + 1) - day
  {
    YearLength(y);
    if DayFromYear(y) <= day then y else YearDown(day, y - 1)
  }

  lemma YearLength(y: int)
    ensures DayFromYear(y + 1) - DayFromYear(y) == DaysInYear(y)
  {
    DivStep(y - 1968, 4);
    DivStep(y - 1900, 100);
    DivStep(y - 1600, 400);
  }

  function Day(t: int): int { t / MS_PER_DAY }

  function TimeWithinDay(t: int): int { t % MS_PER_DAY }

  function YearOf(day: int): (y: int)
    ensures DayFromYear(y) <= day < DayFromYear(y + 1)
  {
    if day < DayFromYear(1971) then YearDown(day, 1970) else YearUp(day, 1970)
  }

  function MonthOfDay(y: int, dayInYear: int, m: nat): (r: nat)
    requires m < 12 && DaysBefore(y, m) <= dayInYear < DaysBefore(y, 12)
    ensures m <= r < 12 && DaysBefore(y, r) <= dayInYear < DaysBefore(y, r + 1)
    decreases 12 - m
  {
    if dayInYear < DaysBefore(y, m + 1) then m else MonthOfDay(y, dayInYear, m + 1)
  }

  /** A calendar date: month from 0, day of month from 1. */
  datatype Civil = Civil(year: int, month: nat, date: int) {
    predicate Valid() {
      month < 12 && 1 <= date <= DaysInMonth(year, month)
    }
  }

  function CivilOf(day: int): (c: Civil)
    ensures c.Valid() && MonthStart(c.year, c.month) + c.date - 1 == day
  {
    var y := YearOf(day);
    YearLength(y);
    WholeYear(y);
    var m := MonthOfDay(y, day - DayFromYear(y), 0);
    Civil(y, m, day - DayFromYear(y) - DaysBefore(y, m) + 1)
  }

  /** `setMonth(getMonth() + 1)` or `setFullYear(getFullYear() + 1)`: out-of-range days roll over. */
  function NextDay(day: int, cycle: BillingCycle): int {
    var c := CivilOf(day);
    match cycle
    case Monthly => MakeDay(c.year, c.month + 1, c.date)
    case Yearly => MakeDay(c.year + 1, c.month, c.date)
  }

  function AddBillingPeriod(t: int, cycle: BillingCycle): int {
    NextDay(Day(t), cycle) * MS_PER_DAY + TimeWithinDay(t)
  }

  // ----- Reading and writing dates are inverse -----

  lemma MonthInRange(m: nat)
    requires m <= 12
    ensures m / 12 == (if m == 12 then 1 else 0) && m % 12 == if m == 12 then 0 else m
  {
  }

  lemma NextYearStart(y: int)
    ensures MonthStart(y, 12) == MonthStart(y + 1, 0)
  {
    YearLength(y);
    WholeYear(y);
  }

  lemma MakeDayOf(y: int, m: nat, d: int)
    requires m <= 12
    ensures MakeDay(y, m, d) == MonthStart(y, m) + d - 1
  {
    MonthInRange(m);
    NextYearStart(y);
  }

  lemma {:induction false} MonthsGrow(y: int, m: nat, n: nat)
    requires m < n <= 12
    ensures DaysBefore(y, m + 1) <= DaysBefore(y, n)
    decreases n - m
  {
    if m + 1 < n {
      MonthsGrow(y, m, n - 1);
    }
  }

  lemma InYear(c: Civil, day: int)
    requires c.Valid() && MonthStart(c.year, c.month) + c.date - 1 == day
    ensures DayFromYear(c.year) <= day < DayFromYear(c.year + 1)
  {
    YearLength(c.year);
    WholeYear(c.year);
    MonthsGrow(c.year, c.month, 12);
    StartsInYear(c.year, c.month);
  }

  lemma {:induction false} StartsInYear(y: int, m: nat)
    requires m <= 12
    ensures 0 <= DaysBefore(y, m)
  {
    if m > 0 {
      StartsInYear(y, m - 1);
    }
  }

  /** A day has one date: whatever valid date it was written from is the date it is read as. */
  lemma CivilIsUnique(day: int, c: Civil)
    requires c.Valid() && MonthStart(c.year, c.month) + c.date - 1 == day
    ensures CivilOf(day) == c
  {
    SameDayIsSameDate(CivilOf(day), c, day);
  }

  lemma SameDayIsSameDate(b: Civil, c: Civil, day: int)
    requires b.Valid() && MonthStart(b.year, b.month) + b.date - 1 == day
    requires c.Valid() && MonthStart(c.year, c.month) + c.date - 1 == day
    ensures b == c
  {
    InYear(c, day);
    InYear(b, day);
    YearIsUnique(b.year, c.year, day);
    DateIsUnique(b, c);
  }

  lemma YearIsUnique(y: int, z: int, day: int)
    requires DayFromYear(y) <= day < DayFromYear(y + 1) && DayFromYear(z) <= day < DayFromYear(z + 1)
    ensures y == z
  {
  }

  lemma DateIsUnique(b: Civil, c: Civil)
    requires b.Valid() && c.Valid() && b.year == c.year
    requires DaysBefore(b.year, b.month) + b.date == DaysBefore(c.year, c.month) + c.date
    ensures b == c
  {
    if b.month < c.month { MonthsGrow(c.year, b.month, c.month); }
    if c.month < b.month { MonthsGrow(c.year, c.month, b.month); }
  }

  // ----- Periods -----

  /** The day and the time of day are moved independently. */
  lemma TimeIsKept(t: int, cycle: BillingCycle)
    ensures var end := AddBillingPeriod(t, cycle);
            && Day(end) == NextDay(Day(t), cycle)
            && TimeWithinDay(end) == TimeWithinDay(t)
            && end - t == (NextDay(Day(t), cycle) - Day(t)) * MS_PER_DAY
  {
  }

  /** The months' lengths, and the Gregorian leap years. */
  predicate IsMonthLength(year: int, month: nat, days: int) {
    && (month in {0, 2, 4, 6, 7, 9, 11} ==> days == 31)
    && (month in {3, 5, 8, 10} ==> days == 30)
    && (month == 1 && year % 4 == 0 && (year % 100 != 0 || year % 400 == 0) ==> days == 29)
    && (month == 1 && (year % 4 != 0 || (year % 100 == 0 && year % 400 != 0)) ==> days == 28)
  }

  lemma MonthsAreAsLong(c: Civil)
    requires c.month < 12
    ensures IsMonthLength(c.year, c.month, DaysInMonth(c.year, c.month))
  {
  }

  lemma YearStartsInJanuary(y: int)
    ensures CivilOf(DayFromYear(y)) == Civil(y, 0, 1)
  {
    CivilIsUnique(DayFromYear(y), Civil(y, 0, 1));
  }

  lemma YearOfEpoch(y: int)
    ensures y == 1970 ==> DayFromYear(y) == 0
  {
  }

  lemma EpochStarts(y: int)
    requires y == 1970
    ensures CivilOf(0) == Civil(y, 0, 1)
  {
    YearOfEpoch(y);
    YearStartsInJanuary(y);
  }

  /** Days are counted from 1 January 1970. */
  lemma DayZero()
    ensures CivilOf(0) == Civil(1970, 0, 1)
  {
    EpochStarts(1970);
  }

  /** A monthly period is exactly as long as the month it starts in, and keeps the time of day. */
  lemma MonthlyPeriod(t: int)
    ensures var c, end := CivilOf(Day(t)), AddBillingPeriod(t, Monthly);
            && IsMonthLength(c.year, c.month, (end - t) / 86_400_000) && (end - t) % 86_400_000 == 0
            && TimeWithinDay(end) == TimeWithinDay(t)
            && t < end
  {
    var c := CivilOf(Day(t));
    TimeIsKept(t, Monthly);
    MonthlyNext(Day(t));
    assert NextDay(Day(t), Monthly) - Day(t) == DaysInMonth(c.year, c.month);
    MonthsAreAsLong(c);
    DivUnique(AddBillingPeriod(t, Monthly) - t, 86_400_000, DaysInMonth(c.year, c.month), 0);
  }

  lemma MonthlyNext(day: int)
    ensures var c := CivilOf(day); NextDay(day, Monthly) == MonthStart(c.year, c.month + 1) + c.date - 1
  {
    var c := CivilOf(day);
    MakeDayOf(c.year, c.month + 1, c.date);
  }

  lemma YearlyNext(day: int)
    ensures var c := CivilOf(day); NextDay(day, Yearly) == MonthStart(c.year + 1, c.month) + c.date - 1
  {
    var c := CivilOf(day);
    MakeDayOf(c.year + 1, c.month, c.date);
  }

  function NextMonth(c: Civil): (int, nat) {
    if c.month == 11 then (c.year + 1, 0) else (c.year, c.month + 1)
  }

  /** Where a monthly period ends: the same day of the next month, or past that month's end by the excess. */
  lemma MonthlyLanding(day: int)
    ensures var c := CivilOf(day);
            var (y, m) := NextMonth(c);
            CivilOf(NextDay(day, Monthly)) ==
              if c.date <= DaysInMonth(y, m) then Civil(y, m, c.date)
              else Civil(y, m + 1, c.date - DaysInMonth(y, m))
  {
    var c := CivilOf(day);
    var (y, m) := NextMonth(c);
    MonthlyNext(day);
    NextMonthStart(c);
    if c.date <= DaysInMonth(y, m) {
      CivilIsUnique(NextDay(day, Monthly), Civil(y, m, c.date));
    } else {
      Overflow(y, m, c.date);
      CivilIsUnique(NextDay(day, Monthly), Civil(y, m + 1, c.date - DaysInMonth(y, m)));
    }
  }

  lemma NextMonthStart(c: Civil)
    requires c.month < 12
    ensures var (y, m) := NextMonth(c); MonthStart(c.year, c.month + 1) == MonthStart(y, m)
  {
    NextYearStart(c.year);
  }

  lemma Overflow(y: int, m: nat, date: int)
    requires m < 12 && DaysInMonth(y, m) < date <= 31
    ensures m < 11 && Civil(y, m + 1, date - DaysInMonth(y, m)).Valid()
    ensures MonthStart(y, m + 1) + (date - DaysInMonth(y, m)) == MonthStart(y, m) + date
  {
  }

  predicate IsLeapDay(c: Civil) {
    c.month == 1 && c.date == 29
  }

  /** Whether one of the days from `day` up to `next` is a 29 February. */
  ghost predicate HasLeapDay(day: int, next: int) {
    exists d :: day <= d < next && IsLeapDay(CivilOf(d))
  }

  /** The same of the days of the yearly period that starts on `day`. */
  ghost predicate SpansLeapDay(day: int) {
    HasLeapDay(day, NextDay(day, Yearly))
  }

  /** The year whose February falls into the year counted from `c`. */
  function YearOfFebruary(c: Civil): int {
    if c.month <= 1 then c.year else c.year + 1
  }

  lemma {:induction false} MonthsFrom(y: int, m: nat, n: nat)
    requires m <= n <= 12
    ensures DaysBefore(y, m) <= DaysBefore(y, n)
  {
    if m < n {
      MonthsGrow(y, m, n);
    }
  }

  function LeapDayOf(y: int): int {
    MonthStart(y, 1) + 28
  }

  lemma LeapDayIsRead(y: int)
    requires IsLeap(y)
    ensures CivilOf(LeapDayOf(y)) == Civil(y, 1, 29) && LeapDayOf(y) + 1 == MonthStart(y, 2)
    ensures DayFromYear(y) <= LeapDayOf(y) < DayFromYear(y + 1)
  {
    CivilIsUnique(LeapDayOf(y), Civil(y, 1, 29));
    InYear(Civil(y, 1, 29), LeapDayOf(y));
  }

  /** A day comes after the 29 February of its year, or of the same place in another leap year, by its month. */
  lemma AfterLeapDay(y: int, month: nat, date: int)
    requires month < 12 && 1 <= date && (month == 0 ==> date <= 31) && (month == 1 ==> date <= 29)
    requires IsLeap(y)
    ensures MonthStart(y, month) + date - 1 > LeapDayOf(y) <==> month >= 2
  {
    if month >= 2 {
      MonthsFrom(y, 2, month);
    }
    assert DaysInMonth(y, 0) == 31 && DaysInMonth(y, 1) == 29;
    assert DaysBefore(y, 1) == DaysBefore(y, 0) + DaysInMonth(y, 0);
    assert DaysBefore(y, 2) == DaysBefore(y, 1) + DaysInMonth(y, 1);
  }

  lemma YearOrder(y: int, z: int)
    requires y < z
    ensures DayFromYear(y + 1) <= DayFromYear(z)
  {
  }

  /** `a` lies in year `y`. */
  predicate InYearOf(a: int, y: int) {
    DayFromYear(y) <= a < DayFromYear(y + 1)
  }

  lemma YearsInOrder(a: int, y: int, b: int, z: int)
    requires InYearOf(a, y) && InYearOf(b, z) && y < z
    ensures a < b
  {
    YearOrder(y, z);
  }

  lemma PeriodEndYear(c: Civil)
    requires c.Valid()
    ensures InYearOf(MonthStart(c.year + 1, c.month) + c.date - 1, c.year + 1)
  {
    NextYearDay(c);
    var n := NextYear(c);
    InYear(n, MonthStart(n.year, n.month) + n.date - 1);
  }

  lemma PeriodOf(day: int)
    ensures var c := CivilOf(day);
            && InYearOf(day, c.year) && day == MonthStart(c.year, c.month) + c.date - 1
            && NextDay(day, Yearly) == MonthStart(c.year + 1, c.month) + c.date - 1
  {
    YearlyNext(day);
    InYear(CivilOf(day), day);
  }

  /** A 29 February lies in the period exactly when it is the one of that year. */
  lemma LeapDayBetween(c: Civil, day: int, next: int, leap: int, y: int)
    requires c.Valid() && IsLeap(y) && leap == LeapDayOf(y) && InYearOf(leap, y) && InYearOf(day, c.year)
    requires day == MonthStart(c.year, c.month) + c.date - 1 && next == MonthStart(c.year + 1, c.month) + c.date - 1
    ensures day <= leap < next <==> y == YearOfFebruary(c)
  {
    PeriodEndYear(c);
    YearsApart(c.year, day, next, leap, y);
    if y == c.year || y == c.year + 1 {
      LeapDayAgainst(c, y);
    }
  }

  /** A day of year `y` against a day of one year and a day of the next. */
  lemma YearsApart(year: int, day: int, next: int, leap: int, y: int)
    requires InYearOf(leap, y) && InYearOf(day, year) && InYearOf(next, year + 1)
    ensures y < year ==> leap < day
    ensures y <= year ==> leap < next
    ensures y > year ==> day < leap
    ensures y > year + 1 ==> next < leap
  {
    if y < year { YearsInOrder(leap, y, day, year); }
    if y <= year { YearsInOrder(leap, y, next, year + 1); }
    if y > year { YearsInOrder(day, year, leap, y); }
    if y > year + 1 { YearsInOrder(next, year + 1, leap, y); }
  }

  lemma LeapDayAgainst(c: Civil, y: int)
    requires c.Valid() && IsLeap(y) && (y == c.year || y == c.year + 1)
    ensures LeapDayOf(y) < MonthStart(y, c.month) + c.date - 1 <==> c.month >= 2
  {
    AfterLeapDay(y, c.month, c.date);
  }

  lemma LeapDayIs(d: int)
    requires IsLeapDay(CivilOf(d))
    ensures IsLeap(CivilOf(d).year) && d == LeapDayOf(CivilOf(d).year)
  {
  }

  /** The days of a year counted from `c`, up to the same place a year on. */
  predicate IsYearFrom(c: Civil, day: int, next: int) {
    && c.Valid() && InYearOf(day, c.year) && day == MonthStart(c.year, c.month) + c.date - 1
    && next == MonthStart(c.year + 1, c.month) + c.date - 1
  }

  lemma LeapFebruaryIsSpanned(c: Civil, day: int, next: int)
    requires IsYearFrom(c, day, next) && IsLeap(YearOfFebruary(c))
    ensures HasLeapDay(day, next)
  {
    var y := YearOfFebruary(c);
    LeapDayIsRead(y);
    LeapDayBetween(c, day, next, LeapDayOf(y), y);
  }

  lemma SpannedFebruaryIsLeap(c: Civil, day: int, next: int, d: int)
    requires IsYearFrom(c, day, next) && day <= d < next && IsLeapDay(CivilOf(d))
    ensures IsLeap(YearOfFebruary(c))
  {
    LeapDayIs(d);
    LeapDayIsRead(CivilOf(d).year);
    LeapDayBetween(c, day, next, d, CivilOf(d).year);
  }

  /** So it holds one exactly when that February has 29 days. */
  lemma SpansLeapDayByYear(day: int)
    ensures SpansLeapDay(day) <==> IsLeap(YearOfFebruary(CivilOf(day)))
  {
    PeriodOf(day);
    SpansByYear(CivilOf(day), day, NextDay(day, Yearly));
  }

  lemma SpansByYear(c: Civil, day: int, next: int)
    requires IsYearFrom(c, day, next)
    ensures HasLeapDay(day, next) <==> IsLeap(YearOfFebruary(c))
  {
    if IsLeap(YearOfFebruary(c)) {
      LeapFebruaryIsSpanned(c, day, next);
    }
    if d :| day <= d < next && IsLeapDay(CivilOf(d)) {
      SpannedFebruaryIsLeap(c, day, next, d);
    }
  }

  lemma YearlyDays(day: int)
    ensures NextDay(day, Yearly) - day == if IsLeap(YearOfFebruary(CivilOf(day))) then 366 else 365
  {
    PeriodOf(day);
    DaysApart(CivilOf(day), day, NextDay(day, Yearly));
  }

  lemma DaysApart(c: Civil, day: int, next: int)
    requires c.month < 12 && day == MonthStart(c.year, c.month) + c.date - 1
    requires next == MonthStart(c.year + 1, c.month) + c.date - 1
    ensures next - day == if IsLeap(YearOfFebruary(c)) then 366 else 365
  {
    YearShift(c);
  }

  lemma YearShift(c: Civil)
    requires c.month < 12
    ensures MonthStart(c.year + 1, c.month) - MonthStart(c.year, c.month)
            == if IsLeap(YearOfFebruary(c)) then 366 else 365
  {
    YearLength(c.year);
    DaysBeforeByLeap(c.year, c.month);
    DaysBeforeByLeap(c.year + 1, c.month);
    if IsLeap(c.year) { LeapYearsApart(c.year); }
  }

  lemma {:induction false} DaysBeforeByLeap(y: int, m: nat)
    requires m <= 12
    ensures DaysBefore(y, m) == DaysBefore(1970, m) + if IsLeap(y) && m >= 2 then 1 else 0
  {
    if m > 0 {
      DaysBeforeByLeap(y, m - 1);
    }
  }

  /** A yearly period has 366 days exactly when one of its days is a 29 February, and keeps the time of day. */
  lemma YearlyPeriod(t: int)
    ensures var end := AddBillingPeriod(t, Yearly);
            && end - t == (if SpansLeapDay(Day(t)) then 366 else 365) * 86_400_000
            && TimeWithinDay(end) == TimeWithinDay(t)
            && t < end
  {
    TimeIsKept(t, Yearly);
    YearlyDays(Day(t));
    SpansLeapDayByYear(Day(t));
  }

  /** The date a year on: the same, except that 29 February rolls over to 1 March. */
  function NextYear(c: Civil): Civil {
    if c.month == 1 && c.date == 29 then Civil(c.year + 1, 2, 1) else Civil(c.year + 1, c.month, c.date)
  }

  lemma NextYearDay(c: Civil)
    requires c.Valid()
    ensures var n := NextYear(c);
            n.Valid() && MonthStart(n.year, n.month) + n.date == MonthStart(c.year + 1, c.month) + c.date
  {
  }

  /** Where a yearly period ends. */
  lemma YearlyLanding(day: int)
    ensures CivilOf(NextDay(day, Yearly)) == NextYear(CivilOf(day))
  {
    var n := NextYear(CivilOf(day));
    YearlyNext(day);
    NextYearDay(CivilOf(day));
    assert NextDay(day, Yearly) == MonthStart(n.year, n.month) + n.date - 1;
    CivilIsUnique(NextDay(day, Yearly), n);
  }

  lemma LeapYearsApart(y: int)
    requires IsLeap(y)
    ensures !IsLeap(y + 1)
  {
  }

  lemma PeriodEndsLater(t: int, cycle: BillingCycle)
    ensures t < AddBillingPeriod(t, cycle)
  {
    if cycle == Monthly { MonthlyPeriod(t); } else { YearlyPeriod(t); }
  }
}
