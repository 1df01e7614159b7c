/**
  The UTC calendar arithmetic that the estimates cache takes from its date library: start of a
  unit, end of a unit, and adding units, on instants counted in milliseconds since
  1970-01-01T00:00:00Z. Dates are those of the proleptic Gregorian calendar (section 3.2.1 of
  ISO 8601:2004); weeks start on Monday (section 3.2.2), except for `EndOf`, where the library
  uses weeks that start on Sunday.
 */
module Calendar {

  const MS_PER_SECOND := 1_000
  const MS_PER_HOUR := 3_600_000
  const MS_PER_DAY := 86_400_000

  datatype GroupBy = Day | Week | Month | Quarter | Year

  // ----- days, months and years -----

  predicate IsLeap(year: int) {
    year % 4 == 0 && (year % 100 != 0 || year % 400 == 0)
  }

  /** Months are numbered from 0 across years: month `m` (0 to 11) of year `y` is `12 * y + m`. */
  function DaysInMonth(month: int): (days: int)
    ensures 28 <= days <= 31
  {
    var m := month % 12;
    if m == 1 then (if IsLeap(month / 12) then 29 else 28)
    else if m == 3 || m == 5 || m == 8 || m == 10 then 30
    else 31
  }

  const EPOCH_MONTH := 23_640 // January 1970

  /** Days from 1970-01-01 to the first day of a month: months follow one another. */
  function MonthStartDay(month: int): int
    decreases if month < EPOCH_MONTH then EPOCH_MONTH - month else month - EPOCH_MONTH
  {
    if month == EPOCH_MONTH then 0
    else if EPOCH_MONTH < month then MonthStartDay(month - 1) + DaysInMonth(month - 1)
    else MonthStartDay(month + 1) - DaysInMonth(month)
  }

  lemma {:induction false} MonthLength(month: int)
    ensures MonthStartDay(month + 1) == MonthStartDay(month) + DaysInMonth(month)
  {
  }

  /** Days from 1970-01-01 to the first of January of `year`, in closed form. */
  function DayFromYear(year: int): int {
    365 * (year - 1970) + (year - 1969) / 4 - (year - 1901) / 100 + (year - 1601) / 400
  }

  lemma {:induction false} FourYearStep(year: int)
    ensures (year - 1968) / 4 == (year - 1969) / 4 + if year % 4 == 0 then 1 else 0
  {
  }

  lemma {:induction false} CenturyStep(year: int)
    ensures (year - 1900) / 100 == (year - 1901) / 100 + if year % 100 == 0 then 1 else 0
  {
  }

  lemma {:induction false} CycleStep(year: int)
    ensures (year - 1600) / 400 == (year - 1601) / 400 + if year % 400 == 0 then 1 else 0
  {
  }

  lemma {:induction false} CycleYearIsCenturyYear(year: int)
    ensures year % 400 == 0 ==> year % 100 == 0
  {
    assert year == 100 * (4 * (year / 400)) + year % 400;
  }

  lemma {:induction false} CenturyYearIsFourthYear(year: int)
    ensures year % 100 == 0 ==> year % 4 == 0
  {
    assert year == 4 * (25 * (year / 100)) + year % 100;
  }

  lemma {:induction false} DayFromYearStep(year: int)
    ensures DayFromYear(year + 1) == DayFromYear(year) + if IsLeap(year) then 366 else 365
  {
    FourYearStep(year);
    CenturyStep(year);
    CycleStep(year);
    CycleYearIsCenturyYear(year);
    CenturyYearIsFourthYear(year);
  }

  /** Twelve months from January make a year. */
  lemma {:induction false} MonthInYear(year: int, m: int)
    requires 0 <= m < 12
    ensures MonthStartDay(12 * year + m + 1) == MonthStartDay(12 * year + m)
      + if m == 1 then (if IsLeap(year) then 29 else 28) else if m == 3 || m == 5 || m == 8 || m == 10 then 30 else 31
  {
    var month := 12 * year + m;
    assert month % 12 == m && month / 12 == year;
    MonthLength(month);
  }

  lemma {:induction false} YearOfMonths(year: int)
    ensures MonthStartDay(12 * (year + 1)) == MonthStartDay(12 * year) + if IsLeap(year) then 366 else 365
  {
    for m := 0 to 12
      invariant MonthStartDay(12 * year + m) == MonthStartDay(12 * year)
        + (if 2 <= m && IsLeap(year) then 1 else 0)
        + [0, 31, 59, 90, 120, 151, 181, 212, 243, 273, 304, 334, 365][m]
    {
      MonthInYear(year, m);
    }
  }

  /** Counting month by month agrees with the closed form, leap days included, in every year. */
  lemma {:induction false} YearStart(year: int)
    ensures MonthStartDay(12 * year) == DayFromYear(year)
    decreases if year < 1970 then 1970 - year else year - 1970
  {
    if year < 1970 {
      YearStart(year + 1);
      YearOfMonths(year);
      DayFromYearStep(year);
    } else if year > 1970 {
      YearStart(year - 1);
      YearOfMonths(year - 1);
      DayFromYearStep(year - 1);
    }
  }

  lemma {:induction false} MonthStartsIncrease(a: int, b: int)
    requires a <= b
    ensures MonthStartDay(a) + 28 * (b - a) <= MonthStartDay(b)
    decreases b - a
  {
    if a < b {
      MonthStartsIncrease(a, b - 1);
      MonthLength(b - 1);
    }
  }

  /** The month that holds a day, found by walking from a guess. */
  function MonthFrom(day: int, guess: int): (month: int)
    ensures MonthStartDay(month) <= day < MonthStartDay(month + 1)
    decreases if day < MonthStartDay(guess) then 1 else 0,
              if day < MonthStartDay(guess) then MonthStartDay(guess) - day else day - MonthStartDay(guess)
  {
    MonthLength(guess);
    MonthLength(guess - 1);
    if day < MonthStartDay(guess) then MonthFrom(day, guess - 1)
    else if MonthStartDay(guess + 1) <= day then MonthFrom(day, guess + 1)
    else guess
  }

  /** A date: a month number and the day of that month, counted from 1. */
  datatype Date = Date(month: int, dayOfMonth: int) {
    predicate Valid() { 1 <= dayOfMonth <= DaysInMonth(month) }
    function ToDay(): int { MonthStartDay(month) + dayOfMonth - 1 }
  }

  function DateOf(day: int): (date: Date)
    ensures date.Valid() && date.ToDay() == day
  {
    var month := MonthFrom(day, 12 * (1970 + day / 365));
    MonthLength(month);
    Date(month, day - MonthStartDay(month) + 1)
  }

  /** A day number has one valid date only, so `DateOf` and `ToDay` undo each other. */
  lemma {:induction false} DateOfToDay(date: Date)
    requires date.Valid()
    ensures DateOf(date.ToDay()) == date
  {
    hide MonthStartDay, DateOf, MonthFrom;
    var day := date.ToDay();
    var found := DateOf(day);
    MonthLength(date.month);
    MonthLength(found.month);
    if found.month < date.month && found.month + 1 < date.month {
      MonthStartsIncrease(found.month + 1, date.month);
    } else if date.month < found.month && date.month + 1 < found.month {
      MonthStartsIncrease(date.month + 1, found.month);
    }
  }

  // ----- the date library's operations -----

  function DayNumber(t: int): int { t / MS_PER_DAY }

  function Midnight(day: int): int { day * MS_PER_DAY }

  /** Day of the week, Sunday being 0; 1970-01-01 was a Thursday. */
  function WeekdayFromSunday(day: int): int { (day + 4) % 7 }

  /** Day of the week, Monday being 0. */
  function WeekdayFromMonday(day: int): int { (day + 3) % 7 }

  /** The first months of the quarter and of the year that hold a month. */
  function QuarterMonth(month: int): int { month - month % 3 }

  function YearMonth(month: int): int { month - month % 12 }

  /** The first day of the unit that holds a day, a week being an ISO week. */
  function FirstDay(unit: GroupBy, day: int): int {
    var month := DateOf(day).month;
    match unit
    case Day => day
    case Week => day - WeekdayFromMonday(day)
    case Month => Date(month, 1).ToDay()
    case Quarter => Date(QuarterMonth(month), 1).ToDay()
    case Year => Date(YearMonth(month), 1).ToDay()
  }

  /** The day after the unit that holds a day, a week running from Sunday to Saturday. */
  function NextFirstDay(unit: GroupBy, day: int): int {
    var month := DateOf(day).month;
    match unit
    case Day => day + 1
    case Week => day - WeekdayFromSunday(day) + 7
    case Month => Date(month + 1, 1).ToDay()
    case Quarter => Date(QuarterMonth(month) + 3, 1).ToDay()
    case Year => Date(YearMonth(month) + 12, 1).ToDay()
  }

  /** `startOf`, where the cache passes `isoWeek` for weeks. */
  function StartOf(unit: GroupBy, t: int): int { Midnight(FirstDay(unit, DayNumber(t))) }

  /** `endOf`, where the cache passes `week` for weeks. */
  function EndOf(unit: GroupBy, t: int): int { Midnight(NextFirstDay(unit, DayNumber(t))) - 1 }

  /** Adding months keeps the day of the month, cut to the length of the month reached. */
  function AddMonths(day: int, n: int): int {
    var date := DateOf(day);
    var month := date.month + n;
    var dayOfMonth := if date.dayOfMonth <= DaysInMonth(month) then date.dayOfMonth else DaysInMonth(month);
    Date(month, dayOfMonth).ToDay()
  }

  function AddDay(unit: GroupBy, day: int, n: int): int {
    match unit
    case Day => day + n
    case Week => day + 7 * n
    case Month => AddMonths(day, n)
    case Quarter => AddMonths(day, 3 * n)
    case Year => AddMonths(day, 12 * n)
  }

  /** `add`, which keeps the time of day. */
  function Add(unit: GroupBy, t: int, n: int): int {
    Midnight(AddDay(unit, DayNumber(t), n)) + t % MS_PER_DAY
  }

  /** The end date stored with an estimate: one second before the next unit, plus an hour for quarters. */
  function PeriodEndDate(unit: GroupBy, start: int): int {
    Add(unit, start, 1) + (if unit == Quarter then MS_PER_HOUR else 0) - MS_PER_SECOND
  }

  // ----- periods by number -----

  /** The periods of a unit, numbered in time order: the first day of period `k`. */
  function PeriodDay(unit: GroupBy, k: int): int {
    match unit
    case Day => k
    case Week => 7 * k + 4
    case Month => MonthStartDay(k)
    case Quarter => MonthStartDay(3 * k)
    case Year => MonthStartDay(12 * k)
  }

  function PeriodOfDay(unit: GroupBy, day: int): int {
    var month := DateOf(day).month;
    match unit
    case Day => day
    case Week => (day - 4) / 7
    case Month => month
    case Quarter => month / 3
    case Year => month / 12
  }

  lemma {:induction false} MonthOfDay(day: int, first: int, next: int)
    requires first <= DateOf(day).month < next
    ensures MonthStartDay(first) <= day < MonthStartDay(next)
  {
    hide MonthStartDay, DaysInMonth, DateOf;
    var date := DateOf(day);
    MonthLength(date.month);
    MonthStartsIncrease(first, date.month);
    MonthStartsIncrease(date.month + 1, next);
  }

  lemma {:induction false} WeekOfDay(day: int)
    ensures var k := (day - 4) / 7; 7 * k + 4 <= day < 7 * (k + 1) + 4 && 7 * k + 4 == day - WeekdayFromMonday(day)
  {
    var k := (day - 4) / 7;
    assert day + 3 == 7 * (k + 1) + (day - 4) % 7;
  }

  lemma {:induction false} MonthsOfDay(unit: GroupBy, day: int)
    requires unit.Month? || unit.Quarter? || unit.Year?
    ensures var k := PeriodOfDay(unit, day);
            PeriodDay(unit, k) <= day < PeriodDay(unit, k + 1) && PeriodDay(unit, k) == FirstDay(unit, day)
  {
    hide MonthStartDay, DaysInMonth, DateOf;
    var month := DateOf(day).month;
    if unit.Month? {
      MonthOfDay(day, month, month + 1);
    } else if unit.Quarter? {
      assert 3 * (month / 3) == QuarterMonth(month);
      MonthOfDay(day, 3 * (month / 3), 3 * (month / 3 + 1));
    } else {
      assert 12 * (month / 12) == YearMonth(month);
      MonthOfDay(day, 12 * (month / 12), 12 * (month / 12 + 1));
    }
  }

  /** Every day lies in exactly one period, and `FirstDay` is its first day. */
  lemma {:induction false} PeriodOfDayHolds(unit: GroupBy, day: int)
    ensures var k := PeriodOfDay(unit, day);
            PeriodDay(unit, k) <= day < PeriodDay(unit, k + 1) && PeriodDay(unit, k) == FirstDay(unit, day)
  {
    hide MonthStartDay, DaysInMonth, DateOf, WeekdayFromMonday;
    match unit
    case Day =>
    case Week => WeekOfDay(day);
    case _ => MonthsOfDay(unit, day);
  }

  lemma {:induction false} PeriodDaysIncrease(unit: GroupBy, a: int, b: int)
    requires a < b
    ensures PeriodDay(unit, a) < PeriodDay(unit, b)
  {
    hide MonthStartDay, DaysInMonth, DateOf;
    match unit
    case Day =>
    case Week =>
    case Month => MonthStartsIncrease(a, b);
    case Quarter => MonthStartsIncrease(3 * a, 3 * b);
    case Year => MonthStartsIncrease(12 * a, 12 * b);
  }

  lemma {:induction false} PeriodOfDayUnique(unit: GroupBy, k: int, day: int)
    requires PeriodDay(unit, k) <= day < PeriodDay(unit, k + 1)
    ensures PeriodOfDay(unit, day) == k
  {
    hide MonthStartDay, DaysInMonth, DateOf;
    var n := PeriodOfDay(unit, day);
    PeriodOfDayHolds(unit, day);
    if n + 1 < k { PeriodDaysIncrease(unit, n + 1, k); }
    if k + 1 < n { PeriodDaysIncrease(unit, k + 1, n); }
  }

  function PeriodStart(unit: GroupBy, k: int): int { Midnight(PeriodDay(unit, k)) }

  function PeriodNumber(unit: GroupBy, t: int): int { PeriodOfDay(unit, DayNumber(t)) }

  predicate IsPeriodStart(unit: GroupBy, t: int) { PeriodStart(unit, PeriodNumber(unit, t)) == t }

  lemma {:induction false} PeriodStartsIncrease(unit: GroupBy, a: int, b: int)
    ensures a < b <==> PeriodStart(unit, a) < PeriodStart(unit, b)
    ensures a == b <==> PeriodStart(unit, a) == PeriodStart(unit, b)
  {
    hide PeriodDay;
    if a < b { PeriodDaysIncrease(unit, a, b); }
    if b < a { PeriodDaysIncrease(unit, b, a); }
  }

  /** Every instant lies in exactly one period of a unit, and `StartOf` is that period's start. */
  lemma {:induction false} PeriodOfInstant(unit: GroupBy, t: int)
    ensures var k := PeriodNumber(unit, t);
            PeriodStart(unit, k) <= t < PeriodStart(unit, k + 1) && StartOf(unit, t) == PeriodStart(unit, k)
  {
    hide PeriodDay, PeriodOfDay, FirstDay;
    var day := DayNumber(t);
    assert Midnight(day) <= t < Midnight(day + 1);
    PeriodOfDayHolds(unit, day);
  }

  lemma {:induction false} PeriodNumberUnique(unit: GroupBy, k: int, t: int)
    requires PeriodStart(unit, k) <= t < PeriodStart(unit, k + 1)
    ensures PeriodNumber(unit, t) == k
  {
    hide PeriodDay, PeriodOfDay;
    PeriodOfDayUnique(unit, k, DayNumber(t));
  }

  lemma {:induction false} PeriodNumberOfStart(unit: GroupBy, k: int)
    ensures PeriodNumber(unit, PeriodStart(unit, k)) == k && IsPeriodStart(unit, PeriodStart(unit, k))
    ensures StartOf(unit, PeriodStart(unit, k)) == PeriodStart(unit, k)
  {
    hide PeriodDay, PeriodOfDay, PeriodNumber, PeriodStart, StartOf;
    PeriodStartsIncrease(unit, k, k + 1);
    PeriodNumberUnique(unit, k, PeriodStart(unit, k));
    PeriodOfInstant(unit, PeriodStart(unit, k));
  }

  lemma {:induction false} DateOfFirst(month: int)
    ensures DateOf(MonthStartDay(month)) == Date(month, 1)
  {
    hide MonthStartDay, DateOf;
    DateOfToDay(Date(month, 1));
  }

  lemma {:induction false} AddMonthsAtMonthStart(month: int, n: int)
    ensures AddMonths(MonthStartDay(month), n) == MonthStartDay(month + n)
  {
    hide MonthStartDay, DaysInMonth, DateOf;
    DateOfFirst(month);
  }

  lemma {:induction false} AddDayToPeriodDay(unit: GroupBy, k: int, n: int)
    ensures AddDay(unit, PeriodDay(unit, k), n) == PeriodDay(unit, k + n)
  {
    hide MonthStartDay, DaysInMonth, DateOf;
    match unit
    case Day =>
    case Week =>
    case Month => AddMonthsAtMonthStart(k, n);
    case Quarter => AddMonthsAtMonthStart(3 * k, 3 * n);
    case Year => AddMonthsAtMonthStart(12 * k, 12 * n);
  }

  /** From a period start, adding units moves along the period starts, whatever the months' lengths. */
  lemma {:induction false} AddToPeriodStart(unit: GroupBy, k: int, n: int)
    ensures Add(unit, PeriodStart(unit, k), n) == PeriodStart(unit, k + n)
  {
    hide PeriodDay, AddDay;
    AddDayToPeriodDay(unit, k, n);
    var t := PeriodStart(unit, k);
    assert DayNumber(t) == PeriodDay(unit, k) && t % MS_PER_DAY == 0;
  }

  lemma {:induction false} MonthOfAddMonths(day: int, n: int)
    ensures DateOf(AddMonths(day, n)).month == DateOf(day).month + n
  {
    hide MonthStartDay, DateOf;
    var date := DateOf(day);
    var month := date.month + n;
    DateOfToDay(Date(month, if date.dayOfMonth <= DaysInMonth(month) then date.dayOfMonth else DaysInMonth(month)));
  }

  lemma {:induction false} PeriodOfAddDay(unit: GroupBy, day: int, n: int)
    ensures PeriodOfDay(unit, AddDay(unit, day, n)) == PeriodOfDay(unit, day) + n
  {
    hide MonthStartDay, DaysInMonth, DateOf, AddMonths;
    match unit
    case Day =>
    case Week => assert day + 7 * n - 4 == day - 4 + 7 * n;
    case Month => MonthOfAddMonths(day, n);
    case Quarter => MonthOfAddMonths(day, 3 * n);
    case Year => MonthOfAddMonths(day, 12 * n);
  }

  /** Adding `n` units moves `n` periods on, from any instant: a day of the month is cut, but stays in its month. */
  lemma {:induction false} AddMovesPeriods(unit: GroupBy, t: int, n: int)
    ensures PeriodNumber(unit, Add(unit, t, n)) == PeriodNumber(unit, t) + n
  {
    hide AddDay, PeriodOfDay;
    var day := AddDay(unit, DayNumber(t), n);
    assert DayNumber(Midnight(day) + t % MS_PER_DAY) == day;
    PeriodOfAddDay(unit, DayNumber(t), n);
  }

  lemma {:induction false} NextFirstDayOfMonth(k: int)
    ensures NextFirstDay(Month, MonthStartDay(k)) == MonthStartDay(k + 1)
  {
    hide MonthStartDay, DaysInMonth, DateOf, WeekdayFromSunday, QuarterMonth, YearMonth;
    DateOfFirst(k);
  }

  lemma {:induction false} FirstMonthOfQuarter(k: int)
    ensures QuarterMonth(3 * k) == 3 * k
  {
  }

  lemma {:induction false} NextFirstDayOfQuarter(k: int)
    ensures NextFirstDay(Quarter, MonthStartDay(3 * k)) == MonthStartDay(3 * (k + 1))
  {
    hide MonthStartDay, DaysInMonth, DateOf, WeekdayFromSunday, QuarterMonth, YearMonth;
    DateOfFirst(3 * k);
    FirstMonthOfQuarter(k);
  }

  lemma {:induction false} FirstMonthOfYear(k: int)
    ensures YearMonth(12 * k) == 12 * k
  {
  }

  lemma {:induction false} NextFirstDayOfYear(k: int)
    ensures NextFirstDay(Year, MonthStartDay(12 * k)) == MonthStartDay(12 * (k + 1))
  {
    hide MonthStartDay, DaysInMonth, DateOf, WeekdayFromSunday, QuarterMonth, YearMonth;
    DateOfFirst(12 * k);
    FirstMonthOfYear(k);
  }

  lemma {:induction false} NextFirstDayOfWeek(k: int)
    ensures NextFirstDay(Week, 7 * k + 4) == 7 * (k + 1) + 3
  {
    hide MonthStartDay, DaysInMonth, DateOf;
    assert 7 * k + 4 + 4 == 7 * (k + 1) + 1;
  }

  lemma {:induction false} NextFirstDayOfPeriodDay(unit: GroupBy, k: int)
    ensures NextFirstDay(unit, PeriodDay(unit, k)) == PeriodDay(unit, k + 1) - if unit == Week then 1 else 0
  {
    match unit
    case Day =>
    case Week => hide NextFirstDay, MonthStartDay; NextFirstDayOfWeek(k);
    case Month => hide NextFirstDay, MonthStartDay; NextFirstDayOfMonth(k);
    case Quarter => hide NextFirstDay, MonthStartDay; NextFirstDayOfQuarter(k);
    case Year => hide NextFirstDay, MonthStartDay; NextFirstDayOfYear(k);
  }

  /** `EndOf` a period start is the last millisecond of the period, a week losing its Sunday. */
  lemma {:induction false} EndOfPeriodStart(unit: GroupBy, k: int)
    ensures EndOf(unit, PeriodStart(unit, k))
         == PeriodStart(unit, k + 1) - 1 - if unit == Week then MS_PER_DAY else 0
  {
    hide PeriodDay, NextFirstDay;
    NextFirstDayOfPeriodDay(unit, k);
    assert DayNumber(PeriodStart(unit, k)) == PeriodDay(unit, k);
  }

  /**
    Where periods lie, in milliseconds: days and weeks are as long as each other, 1970-01-05 being a Monday;
    months run by their lengths from 1970-01-01, quarters are three months, and years four quarters.
   */
  lemma {:induction false} PeriodLengths(k: int)
    ensures PeriodStart(Day, 0) == 0 && PeriodStart(Day, k + 1) == PeriodStart(Day, k) + 86_400_000
    ensures PeriodStart(Week, 0) == 4 * 86_400_000 && PeriodStart(Week, k + 1) == PeriodStart(Week, k) + 7 * 86_400_000
    ensures PeriodStart(Month, 12 * 1970) == 0
    ensures PeriodStart(Month, k + 1) == PeriodStart(Month, k) + DaysInMonth(k) * 86_400_000
    ensures PeriodStart(Quarter, k) == PeriodStart(Month, 3 * k) && PeriodStart(Year, k) == PeriodStart(Quarter, 4 * k)
  {
    MonthLength(k);
  }

  /** The month lengths of the Gregorian calendar, by month of the year from January on. */
  lemma {:induction false} MonthLengths(year: int, m: int)
    requires 0 <= m < 12
    ensures DaysInMonth(12 * year + m)
         == [31, if year % 4 == 0 && (year % 100 != 0 || year % 400 == 0) then 29 else 28,
             31, 30, 31, 30, 31, 31, 30, 31, 30, 31][m]
  {
    var month := 12 * year + m;
    assert month % 12 == m && month / 12 == year;
  }

  /** The end date stored for a period is its last second, and for quarters one hour later. */
  lemma {:induction false} EndDateOfPeriod(unit: GroupBy, k: int)
    ensures PeriodEndDate(unit, PeriodStart(unit, k))
         == PeriodStart(unit, k + 1) - 1_000 + if unit == Quarter then 3_600_000 else 0
  {
    hide PeriodStart, Add;
    AddToPeriodStart(unit, k, 1);
  }

  lemma {:induction false} LaterPeriod(unit: GroupBy, t: int, u: int)
    ensures PeriodNumber(unit, t) < PeriodNumber(unit, u) ==> t < u
    ensures t <= u ==> PeriodNumber(unit, t) <= PeriodNumber(unit, u)
  {
    hide PeriodStart, PeriodNumber, StartOf;
    PeriodOfInstant(unit, t);
    PeriodOfInstant(unit, u);
    PeriodStartsIncrease(unit, PeriodNumber(unit, t) + 1, PeriodNumber(unit, u));
    PeriodStartsIncrease(unit, PeriodNumber(unit, t), PeriodNumber(unit, u) + 1);
    PeriodStartsIncrease(unit, PeriodNumber(unit, u) + 1, PeriodNumber(unit, t));
  }

  lemma {:induction false} AddIncreases(unit: GroupBy, t: int, m: int, n: int)
    requires m < n
    ensures Add(unit, t, m) < Add(unit, t, n)
  {
    hide PeriodNumber, Add;
    AddMovesPeriods(unit, t, m);
    AddMovesPeriods(unit, t, n);
    LaterPeriod(unit, Add(unit, t, m), Add(unit, t, n));
  }

  lemma {:induction false} AddNothing(unit: GroupBy, t: int)
    ensures Add(unit, t, 0) == t
  {
    hide MonthStartDay;
    var date := DateOf(DayNumber(t));
    assert date.dayOfMonth <= DaysInMonth(date.month) && date.ToDay() == DayNumber(t);
  }

  // ----- whole units between two instants -----

  function DayOfMonth(t: int): int { DateOf(DayNumber(t)).dayOfMonth }

  /**
    Whole months, as the date library counts them: back from the end if its day of the month is not
    smaller than that of the start, else on from the start.
   */
  function MonthsBetween(start: int, end: int): int {
    var months := PeriodNumber(Month, end) - PeriodNumber(Month, start);
    var short := if DayOfMonth(start) <= DayOfMonth(end) then Add(Month, end, -months) < start
      else end < Add(Month, start, months);
    if 0 < months && short then months - 1 else months
  }

  /** `diff` of an instant and an earlier one, in whole units. */
  function Diff(unit: GroupBy, start: int, end: int): int
    requires start <= end
  {
    match unit
    case Day => (end - start) / MS_PER_DAY
    case Week => (end - start) / (7 * MS_PER_DAY)
    case Month => MonthsBetween(start, end)
    case Quarter => MonthsBetween(start, end) / 3
    case Year => MonthsBetween(start, end) / 12
  }

  /** Adding months moves into a month, on the day of the month or the last one, at the same time of day. */
  lemma {:induction false} AddedMonths(t: int, n: int)
    ensures var month := PeriodNumber(Month, t) + n;
            var day := if DayOfMonth(t) <= DaysInMonth(month) then DayOfMonth(t) else DaysInMonth(month);
            Add(Month, t, n) == Midnight(MonthStartDay(month) + day - 1) + t % MS_PER_DAY
  {
    hide MonthStartDay, DaysInMonth, DateOf;
  }

  lemma {:induction false} InItsMonth(t: int)
    ensures t == Midnight(MonthStartDay(PeriodNumber(Month, t)) + DayOfMonth(t) - 1) + t % MS_PER_DAY
    ensures 1 <= DayOfMonth(t) <= DaysInMonth(PeriodNumber(Month, t)) && 0 <= t % MS_PER_DAY < MS_PER_DAY
  {
    hide MonthStartDay, DaysInMonth, DateOf;
  }

  /** How the end compares with the start moved into its month, by days and times of day. */
  lemma {:induction false} MonthsAhead(start: int, end: int)
    ensures var months := PeriodNumber(Month, end) - PeriodNumber(Month, start);
            var a, b := DayOfMonth(start), DayOfMonth(end);
            (a < b ==> Add(Month, start, months) < end) &&
            (a <= b && start % MS_PER_DAY <= end % MS_PER_DAY ==> Add(Month, start, months) <= end) &&
            (a == b ==> (Add(Month, start, months) <= end <==> start % MS_PER_DAY <= end % MS_PER_DAY)) &&
            (a == b ==> (start <= Add(Month, end, -months) <==> start % MS_PER_DAY <= end % MS_PER_DAY)) &&
            (a <= b && start % MS_PER_DAY <= end % MS_PER_DAY ==> start <= Add(Month, end, -months))
  {
    hide MonthStartDay, DaysInMonth, Add, PeriodNumber, DayOfMonth;
    var months := PeriodNumber(Month, end) - PeriodNumber(Month, start);
    AddedMonths(start, months);
    AddedMonths(end, -months);
    InItsMonth(start);
    InItsMonth(end);
  }

  /** The count of months never exceeds the months that fit, and reaches it when both have the same time of day. */
  lemma {:induction false} MonthsBetweenAre(start: int, end: int)
    requires start <= end
    ensures var n := MonthsBetween(start, end);
            0 <= n && Add(Month, start, n) <= end && end < Add(Month, start, n + 2) &&
            (start % MS_PER_DAY == end % MS_PER_DAY ==> end < Add(Month, start, n + 1))
  {
    hide PeriodNumber, Add, DayOfMonth;
    var months := PeriodNumber(Month, end) - PeriodNumber(Month, start);
    LaterPeriod(Month, start, end);
    AddNothing(Month, start);
    AddNothing(Month, end);
    AddMovesPeriods(Month, start, months - 1);
    AddMovesPeriods(Month, start, months + 1);
    AddMovesPeriods(Month, start, months + 2);
    LaterPeriod(Month, Add(Month, start, months - 1), end);
    LaterPeriod(Month, end, Add(Month, start, months + 1));
    LaterPeriod(Month, end, Add(Month, start, months + 2));
    MonthsAhead(start, end);
  }

  lemma {:induction false} AddDays(t: int, n: int)
    ensures Add(Day, t, n) == t + n * MS_PER_DAY && Add(Week, t, n) == t + 7 * n * MS_PER_DAY
    ensures Add(Quarter, t, n) == Add(Month, t, 3 * n) && Add(Year, t, n) == Add(Month, t, 12 * n)
  {
    hide AddMonths;
    assert t == Midnight(DayNumber(t)) + t % MS_PER_DAY;
  }

  lemma {:induction false} AddIsMonotone(t: int, m: int, n: int)
    requires m <= n
    ensures Add(Month, t, m) <= Add(Month, t, n)
  {
    hide Add;
    if m < n { AddIncreases(Month, t, m, n); }
  }

  /**
    So many units fit between the two instants. For days and weeks, and between dates of the same time
    of day, no more do.
   */
  lemma {:induction false} DiffFits(unit: GroupBy, start: int, end: int)
    requires start <= end
    ensures var n := Diff(unit, start, end);
            0 <= n && Add(unit, start, n) <= end &&
            (unit.Day? || unit.Week? || start % MS_PER_DAY == end % MS_PER_DAY ==> end < Add(unit, start, n + 1))
  {
    hide PeriodNumber, Add, MonthsBetween;
    var n, months := Diff(unit, start, end), MonthsBetween(start, end);
    AddDays(start, n);
    AddDays(start, n + 1);
    MonthsBetweenAre(start, end);
    if unit == Quarter {
      AddIsMonotone(start, 3 * n, months);
      AddIsMonotone(start, months + 1, 3 * (n + 1));
    } else if unit == Year {
      AddIsMonotone(start, 12 * n, months);
      AddIsMonotone(start, months + 1, 12 * (n + 1));
    }
  }
}
