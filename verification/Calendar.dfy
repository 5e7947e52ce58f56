/** Civil dates of the proleptic Gregorian calendar and the step Go's AddDate takes. */
module Calendar {

  /** Months counted from January of year 0. */
  type Month = int

  function YearOf(m: Month): int {
    m / 12
  }

  /** 1 for January. */
  function NumberOf(m: Month): (n: nat)
    ensures 1 <= n <= 12
  {
    m % 12 + 1
  }

  predicate IsLeap(year: int) {
    year % 4 == 0 && (year % 100 != 0 || year % 400 == 0)
  }

  function DaysIn(year: int, number: nat): (n: nat)
    ensures 28 <= n <= 31
  {
    if number == 2 then (if IsLeap(year) then 29 else 28)
    else if number == 4 || number == 6 || number == 9 || number == 11 then 30
    else 31
  }

  function Length(m: Month): nat {
    DaysIn(YearOf(m), NumberOf(m))
  }

  datatype Date = Date(month: Month, day: nat)

  predicate IsDate(date: Date) {
    1 <= date.day <= Length(date.month)
  }

  predicate Earlier(a: Date, b: Date) {
    a.month < b.month || (a.month == b.month && a.day < b.day)
  }

  // ---------------------------------------------------------------------
  // Day numbers: an independent account of the calendar
  // ---------------------------------------------------------------------

  function DaysBeforeYear(year: int): int {
    var y := year - 1;
    365 * y + y / 4 - y / 100 + y / 400
  }

  function DaysBeforeMonth(year: int, number: nat): nat {
    (if number <= 1 then 0
     else if number == 2 then 31
     else if number == 3 then 59
     else if number == 4 then 90
     else if number == 5 then 120
     else if number == 6 then 151
     else if number == 7 then 181
     else if number == 8 then 212
     else if number == 9 then 243
     else if number == 10 then 273
     else if number == 11 then 304
     else 334) + (if number > 2 && IsLeap(year) then 1 else 0)
  }

  function MonthStart(m: Month): int {
    DaysBeforeYear(YearOf(m)) + DaysBeforeMonth(YearOf(m), NumberOf(m))
  }

  function DayNumber(date: Date): int {
    MonthStart(date.month) + date.day - 1
  }

  lemma YearLength(year: int)
    ensures DaysBeforeYear(year + 1) - DaysBeforeYear(year) == if IsLeap(year) then 366 else 365
  {
    var y := year - 1;
    assert (y + 1) / 4 - y / 4 == if year % 4 == 0 then 1 else 0;
    assert (y + 1) / 100 - y / 100 == if year % 100 == 0 then 1 else 0;
    assert (y + 1) / 400 - y / 400 == if year % 400 == 0 then 1 else 0;
    assert year % 400 == 0 ==> year % 100 == 0;
    assert year % 100 == 0 ==> year % 4 == 0;
  }

  /** The next month starts where this one ends. */
  lemma MonthsAreContiguous(m: Month)
    ensures MonthStart(m + 1) == MonthStart(m) + Length(m)
  {
    if NumberOf(m) == 12 {
      assert YearOf(m + 1) == YearOf(m) + 1 && NumberOf(m + 1) == 1;
      YearLength(YearOf(m));
    } else {
      assert YearOf(m + 1) == YearOf(m) && NumberOf(m + 1) == NumberOf(m) + 1;
    }
  }

  lemma {:induction false} MonthStartsIncrease(a: Month, b: Month)
    requires a < b
    ensures MonthStart(a) + Length(a) <= MonthStart(b)
    decreases b - a
  {
    MonthsAreContiguous(b - 1);
    if a < b - 1 {
      MonthStartsIncrease(a, b - 1);
    } else {
      assert b - 1 == a;
    }
  }

  /** Comparing year, month and day in turn is comparing day numbers. */
  lemma EarlierMeansFewerDays(a: Date, b: Date)
    requires IsDate(a) && IsDate(b)
    ensures Earlier(a, b) <==> DayNumber(a) < DayNumber(b)
    ensures a == b <==> DayNumber(a) == DayNumber(b)
  {
    if a.month < b.month {
      MonthStartsIncrease(a.month, b.month);
    } else if b.month < a.month {
      MonthStartsIncrease(b.month, a.month);
    }
  }

  // ---------------------------------------------------------------------
  // AddDate
  // ---------------------------------------------------------------------

  /** A day past the end of its month carries over into the following months. */
  function Normal(m: Month, day: nat): (date: Date)
    requires day >= 1
    ensures IsDate(date)
    decreases day
  {
    if day <= Length(m) then Date(m, day) else Normal(m + 1, day - Length(m))
  }

  function AddDate(date: Date, months: nat, days: nat): Date
    requires IsDate(date)
  {
    Normal(date.month + months, date.day + days)
  }

  lemma {:induction false} NormalKeepsDayNumber(m: Month, day: nat)
    requires day >= 1
    ensures DayNumber(Normal(m, day)) == MonthStart(m) + day - 1
    ensures Normal(m, day).month >= m
    decreases day
  {
    if day > Length(m) {
      MonthsAreContiguous(m);
      NormalKeepsDayNumber(m + 1, day - Length(m));
    }
  }

  /** Adding days adds exactly that many days, across months, years and leap days. */
  lemma AddingDaysIsExact(date: Date, days: nat)
    requires IsDate(date)
    ensures DayNumber(AddDate(date, 0, days)) == DayNumber(date) + days
  {
    NormalKeepsDayNumber(date.month, date.day + days);
  }

  /** Adding months moves on by at least that many months, and by exactly that many,
      keeping the day, if and only if the target month is long enough. */
  lemma AddingMonths(date: Date, months: nat)
    requires IsDate(date)
    ensures AddDate(date, months, 0).month >= date.month + months
    ensures AddDate(date, months, 0) == Date(date.month + months, date.day) <==>
              date.day <= Length(date.month + months)
    ensures date.day > Length(date.month + months) ==>
              AddDate(date, months, 0) == Date(date.month + months + 1, date.day - Length(date.month + months))
  {
    NormalKeepsDayNumber(date.month + months, date.day);
  }

  lemma DayPrecedesLaterMonth(date: Date, m: Month)
    requires IsDate(date) && date.month < m
    ensures DayNumber(date) < MonthStart(m)
  {
    MonthStartsIncrease(date.month, m);
  }

  lemma AddDateAddsDays(date: Date, months: nat, days: nat)
    requires IsDate(date) && months + days >= 1
    ensures DayNumber(date) < DayNumber(AddDate(date, months, days))
    ensures AddDate(date, months, days).month >= date.month + months
  {
    var m, day := date.month + months, date.day + days;
    NormalKeepsDayNumber(m, day);
    assert DayNumber(AddDate(date, months, days)) >= MonthStart(m);
    if months > 0 {
      DayPrecedesLaterMonth(date, m);
    } else {
      assert m == date.month;
    }
  }

  /** Every step that is not empty moves forward. */
  lemma AddDateAdvances(date: Date, months: nat, days: nat)
    requires IsDate(date) && months + days >= 1
    ensures Earlier(date, AddDate(date, months, days))
    ensures DayNumber(date) < DayNumber(AddDate(date, months, days))
    ensures AddDate(date, months, days).month >= date.month + months
  {
    AddDateAddsDays(date, months, days);
    EarlierMeansFewerDays(date, AddDate(date, months, days));
  }
}
