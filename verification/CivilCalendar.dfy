/**
 * The proleptic Gregorian calendar on day numbers. Day 0 is 1 January of year 0;
 * months are numbered consecutively, month 0 being January of year 0, so month
 * `m` belongs to year `m / 12` and is the `m % 12 + 1`-th of that year.
 */
module CivilCalendar {

  predicate IsLeapYear(y: int) {
    y % 4 == 0 && (y % 100 != 0 || y % 400 == 0)
  }

  function DaysInMonth(m: int): (n: int)
    ensures 28 <= n <= 31
  {
    var k := m % 12;
    if k == 1 then (if IsLeapYear(m / 12) then 29 else 28)
    else if k == 3 || k == 5 || k == 8 || k == 10 then 30
    else 31
  }

  /** The day number of the first day of month `m`. */
  function MonthStart(m: int): int
    decreases if m < 0 then -m else m
  {
    if m == 0 then 0
    else if m > 0 then MonthStart(m - 1) + DaysInMonth(m - 1)
    else MonthStart(m + 1) - DaysInMonth(m)
  }

  lemma MonthStep(m: int)
    ensures MonthStart(m + 1) == MonthStart(m) + DaysInMonth(m)
  {
  }

  lemma {:induction false} MonthStartGrows(a: int, b: int)
    requires a <= b
    ensures MonthStart(a) + 28 * (b - a) <= MonthStart(b)
    decreases b - a
  {
    if a < b {
      MonthStartGrows(a, b - 1);
      MonthStep(b - 1);
    }
  }

  /** The month a day lies in, found by walking up from a month that starts no later. */
  function MonthFrom(d: int, m: int): (r: int)
    requires MonthStart(m) <= d
    ensures MonthStart(r) <= d < MonthStart(r + 1)
    decreases d - MonthStart(m)
  {
    MonthStep(m);
    if d < MonthStart(m + 1) then m else MonthFrom(d, m + 1)
  }

  lemma {:induction false} MonthStartBound(m: int)
    ensures MonthStart(m) <= if m < 0 then 28 * m else 31 * m
    decreases if m < 0 then -m else m
  {
    if m > 0 {
      MonthStartBound(m - 1);
    } else if m < 0 {
      MonthStartBound(m + 1);
    }
  }

  function MonthOf(d: int): (m: int)
    ensures MonthStart(m) <= d < MonthStart(m + 1)
  {
    var m := if d < 0 then d / 28 else d / 31;
    MonthStartBound(m);
    MonthFrom(d, m)
  }

  lemma MonthIsUnique(d: int, m: int)
    requires MonthStart(m) <= d < MonthStart(m + 1)
    ensures MonthOf(d) == m
  {
    var r := MonthOf(d);
    if r < m {
      MonthStartGrows(r + 1, m);
    } else if m < r {
      MonthStartGrows(m + 1, r);
    }
  }

  lemma MonthOfGrows(a: int, b: int)
    requires a <= b
    ensures MonthOf(a) <= MonthOf(b)
  {
    if MonthOf(b) < MonthOf(a) {
      MonthStartGrows(MonthOf(b) + 1, MonthOf(a));
    }
  }

  function YearOf(d: int): int {
    MonthOf(d) / 12
  }

  function MonthOfYear(d: int): (k: int)
    ensures 1 <= k <= 12
  {
    MonthOf(d) % 12 + 1
  }

  function DayOfMonth(d: int): (n: int)
    ensures 1 <= n <= DaysInMonth(MonthOf(d))
  {
    MonthStep(MonthOf(d));
    d - MonthStart(MonthOf(d)) + 1
  }

  /** 0 = Monday ... 6 = Sunday; day 0 was a Saturday. */
  function Weekday(d: int): (w: int)
    ensures 0 <= w < 7
  {
    (d + 5) % 7
  }

  /** Weeks run Monday to Sunday. */
  function WeekOf(d: int): int {
    (d + 5) / 7
  }

  function WeekStart(d: int): int {
    d - Weekday(d)
  }

  predicate IsWorkday(d: int) {
    Weekday(d) <= 4
  }

  /** Luxon's `set({ day })`: an overflowing day number runs on into later months. */
  function SetDay(m: int, day: int): int {
    MonthStart(m) + day - 1
  }

  lemma SetDayInMonth(m: int, day: int)
    requires 1 <= day <= DaysInMonth(m)
    ensures MonthOf(SetDay(m, day)) == m && DayOfMonth(SetDay(m, day)) == day
  {
    MonthStep(m);
    MonthIsUnique(SetDay(m, day), m);
  }

  lemma SetDayOverflows(m: int, day: int)
    requires DaysInMonth(m) < day <= 31
    ensures MonthOf(SetDay(m, day)) == m + 1
  {
    MonthStep(m);
    MonthStep(m + 1);
    MonthIsUnique(SetDay(m, day), m + 1);
  }

  /** Luxon's month arithmetic: the day of the month is clamped to the target month. */
  function PlusMonths(d: int, n: int): (r: int)
    ensures MonthOf(r) == MonthOf(d) + n
  {
    var m := MonthOf(d) + n;
    var day := if DayOfMonth(d) <= DaysInMonth(m) then DayOfMonth(d) else DaysInMonth(m);
    SetDayInMonth(m, day);
    SetDay(m, day)
  }
}
