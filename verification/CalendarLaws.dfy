/**
 * The calendar and the interval of a rule in closed form: what a reader can check
 * against any almanac.
 */
module CalendarLaws {
  import opened Wrappers
  import opened Ranges
  import opened Division
  import opened CivilCalendar
  import opened RecurrenceRule

  /** A year has 365 days, and one more if it is divisible by four but not by a hundred, or by four hundred. */
  lemma YearLength(y: int)
    ensures MonthStart(12 * y + 12) == MonthStart(12 * y) + 365 + if IsLeapYear(y) then 1 else 0
  {
    var m := 12 * y;
    MonthLengths(y);
    hide DaysInMonth, IsLeapYear, MonthStart;
    MonthStep(m);
    MonthStep(m + 1);
    MonthStep(m + 2);
    MonthStep(m + 3);
    MonthStep(m + 4);
    MonthStep(m + 5);
    MonthStep(m + 6);
    MonthStep(m + 7);
    MonthStep(m + 8);
    MonthStep(m + 9);
    MonthStep(m + 10);
    MonthStep(m + 11);
  }

  /** Thirty days hath September. */
  lemma MonthLengths(y: int)
    ensures DaysInMonth(12 * y) == DaysInMonth(12 * y + 2) == DaysInMonth(12 * y + 4) == DaysInMonth(12 * y + 6) == 31
    ensures DaysInMonth(12 * y + 7) == DaysInMonth(12 * y + 9) == DaysInMonth(12 * y + 11) == 31
    ensures DaysInMonth(12 * y + 3) == DaysInMonth(12 * y + 5) == 30
    ensures DaysInMonth(12 * y + 8) == DaysInMonth(12 * y + 10) == 30
    ensures DaysInMonth(12 * y + 1) == 28 + if IsLeapYear(y) then 1 else 0
  {
    hide IsLeapYear;
  }

  /** How many of the years from 0 up to `y` are multiples of `n`; negative years count backwards. */
  function MultiplesBefore(y: int, n: int): int
    requires n >= 1
  {
    (y + n - 1) / n
  }

  lemma OneMoreMultiple(y: int, n: int)
    requires n >= 1
    ensures MultiplesBefore(y + 1, n) == MultiplesBefore(y, n) + if y % n == 0 then 1 else 0
  {
    var q, r := y / n, y % n;
    if r == 0 {
      DivisionIsUnique(y + n - 1, n, q, n - 1);
      DivisionIsUnique(y + n, n, q + 1, 0);
    } else {
      DivisionIsUnique(y + n - 1, n, q + 1, r - 1);
      DivisionIsUnique(y + n, n, q + 1, r);
    }
  }

  lemma LeapYearsAre(y: int)
    ensures (if IsLeapYear(y) then 1 else 0) ==
      (if y % 4 == 0 then 1 else 0) - (if y % 100 == 0 then 1 else 0) + (if y % 400 == 0 then 1 else 0)
  {
    if y % 100 == 0 {
      DivisionIsUnique(y, 4, 25 * (y / 100), 0);
    }
    if y % 400 == 0 {
      DivisionIsUnique(y, 100, 4 * (y / 400), 0);
    }
  }

  /** The days before year `y`: 365 a year and the leap days of the Gregorian rule, for years before 0 as well. */
  function DaysBefore(y: int): int {
    365 * y + MultiplesBefore(y, 4) - MultiplesBefore(y, 100) + MultiplesBefore(y, 400)
  }

  lemma OneMoreYear(y: int)
    ensures MonthStart(12 * (y + 1)) - MonthStart(12 * y) == DaysBefore(y + 1) - DaysBefore(y)
  {
    YearLength(y);
    assert 12 * (y + 1) == 12 * y + 12;
    LeapYearsAre(y);
    OneMoreMultiple(y, 4);
    OneMoreMultiple(y, 100);
    OneMoreMultiple(y, 400);
    hide MultiplesBefore, IsLeapYear, MonthStart;
  }

  lemma {:induction false} YearStart(y: int)
    ensures MonthStart(12 * y) == DaysBefore(y)
    decreases if y < 0 then -y else y
  {
    FirstDay();
    hide MonthStart, DaysBefore;
    if y > 0 {
      YearStart(y - 1);
      OneMoreYear(y - 1);
    } else if y < 0 {
      YearStart(y + 1);
      OneMoreYear(y);
    }
  }

  lemma FirstDay()
    ensures MonthStart(0) == 0 == DaysBefore(0)
  {
  }

  /** 1 January 1970 was a Thursday. */
  lemma UnixEpoch()
    ensures MonthStart(12 * 1970) == 719_528 && Weekday(719_528) == 3
  {
    hide MonthStart;
    YearStart(1970);
  }

  /** Dates and weekdays repeat every four hundred years. */
  lemma FourHundredYears(y: int)
    ensures MonthStart(12 * (y + 400)) == MonthStart(12 * y) + 146_097
    ensures Weekday(MonthStart(12 * (y + 400))) == Weekday(MonthStart(12 * y))
  {
    hide MonthStart, MultiplesBefore, Weekday;
    YearStart(y);
    YearStart(y + 400);
    FourHundredMore(y, 4);
    FourHundredMore(y, 100);
    FourHundredMore(y, 400);
    WholeCycle(MonthStart(12 * y));
  }

  lemma WholeCycle(d: int)
    ensures Weekday(d + 146_097) == Weekday(d)
  {
    DivisionIsUnique(d + 146_097 + 5, 7, (d + 5) / 7 + 20_871, (d + 5) % 7);
  }

  lemma FourHundredMore(y: int, n: int)
    requires n == 4 || n == 100 || n == 400
    ensures MultiplesBefore(y + 400, n) == MultiplesBefore(y, n) + 400 / n
  {
  }

  /** Consecutive days have consecutive weekdays, and weeks run from Monday to Sunday. */
  lemma WeekdaysTurn(d: int)
    ensures Weekday(d + 1) == if Weekday(d) == 6 then 0 else Weekday(d) + 1
    ensures WeekOf(d + 1) == if Weekday(d) == 6 then WeekOf(d) + 1 else WeekOf(d)
    ensures Weekday(WeekStart(d)) == 0 && WeekStart(d) <= d < WeekStart(d) + 7
  {
  }

  // --- the interval -----------------------------------------------------------------------------

  /** A rule generates nothing in the periods between every `interval`-th; an interval below one counts as one. */
  lemma GeneratedPeriods(c: Config, seed: int, d: int)
    requires OnRule(c, seed, d)
    ensures c.interval >= 1 ==> (PeriodOf(c.frequency, d) - PeriodOf(c.frequency, seed)) % c.interval == 0
    ensures seed <= d
  {
    hide PeriodOf, Selected, PassesLimitFilters;
  }

  /** A plain daily rule generates the seed and every `interval`-th day after it. */
  lemma DailyInterval(c: Config, seed: int, d: int)
    requires c.frequency == Daily && c.byWeekday == [] && c.byMonthDay == [] && c.byMonth == []
    ensures OnRule(c, seed, d) <==> seed <= d && (c.interval >= 1 ==> (d - seed) % c.interval == 0)
  {
    hide Weekday, DayOfMonth, MonthOfYear;
  }

  /** A weekly rule on weekdays generates exactly those weekdays of every `interval`-th week from the seed's on. */
  lemma WeeklyInterval(c: Config, seed: int, d: int)
    requires c.frequency == Weekly && c.byWeekday != [] && c.byMonthDay == [] && c.byMonth == []
    ensures OnRule(c, seed, d) <==>
      seed <= d && Weekday(d) in c.byWeekday
      && (c.interval >= 1 ==> ((d - Weekday(d)) - (seed - Weekday(seed))) % (7 * c.interval) == 0)
  {
    hide DayOfMonth, MonthOfYear;
    WeeksApart(seed, d);
    hide Weekday, WeekOf;
    if c.interval >= 1 {
      WholeWeeks(WeekOf(d) - WeekOf(seed), c.interval);
    }
  }

  lemma WeeksApart(a: int, b: int)
    ensures (b - Weekday(b)) - (a - Weekday(a)) == 7 * (WeekOf(b) - WeekOf(a))
  {
  }

  lemma WholeWeeks(w: int, n: int)
    requires n >= 1
    ensures (7 * w) % (7 * n) == 0 <==> w % n == 0
  {
    var q, r := w / n, w % n;
    assert 7 * w == q * (7 * n) + 7 * r;
    DivisionIsUnique(7 * w, 7 * n, q, 7 * r);
  }

  // --- the selectors ------------------------------------------------------------------------------

  /** A plain monthly rule generates the seed's day of every `interval`-th month that has it. */
  lemma MonthlyDay(c: Config, seed: int, d: int)
    requires c.frequency == Monthly && c.monthlyAnchor.None? && c.bySetPos == [] && c.byMonthDay == []
    requires c.byWeekday == [] && c.byMonth == []
    ensures OnRule(c, seed, d) <==>
      seed <= d && DayOfMonth(d) == DayOfMonth(seed)
      && (c.interval >= 1 ==> (MonthOf(d) - MonthOf(seed)) % c.interval == 0)
  {
    hide MonthOf, DayOfMonth, Weekday, MonthOfYear;
  }

  /** A plain yearly rule generates the seed's date in every `interval`-th year that has it. */
  lemma YearlyDate(c: Config, seed: int, d: int)
    requires c.frequency == Yearly && c.byMonthDay == [] && c.byWeekday == [] && c.byMonth == []
    ensures OnRule(c, seed, d) <==>
      seed <= d && DayOfMonth(d) == DayOfMonth(seed) && MonthOfYear(d) == MonthOfYear(seed)
      && (c.interval >= 1 ==> (MonthOf(d) / 12 - MonthOf(seed) / 12) % c.interval == 0)
  {
    hide MonthOf, DayOfMonth, Weekday, MonthOfYear;
  }

  /** Before a day of weekday `w` there is one such day a week. */
  lemma {:induction false} WeekdaysBefore(w: int, lo: int, d: int)
    requires Weekday(d) == w && lo <= d
    ensures Count(OnWeekdays([w]), lo, d) == (d - lo) / 7
    decreases d - lo
  {
    if d - lo < 7 {
      forall x | lo <= x < d ensures !OnWeekdays([w])(x) {
        WithinWeek(x, d);
      }
      hide Weekday;
      NoneInRange(OnWeekdays([w]), lo, d);
    } else {
      WeekdayRepeats(d - 7);
      hide Weekday;
      WeekdaysBefore(w, lo, d - 7);
      OneInWeek(w, d - 7);
      CountSplits(OnWeekdays([w]), lo, d - 7, d);
    }
  }

  lemma WithinWeek(x: int, d: int)
    requires d - 7 < x < d
    ensures Weekday(x) != Weekday(d)
  {
  }

  lemma WeekdayRepeats(d: int)
    ensures Weekday(d + 7) == Weekday(d)
  {
  }

  lemma OneInWeek(w: int, d: int)
    requires Weekday(d) == w
    ensures Count(OnWeekdays([w]), d, d + 7) == 1
  {
    forall x | d + 1 <= x < d + 7 ensures !OnWeekdays([w])(x) {
      WeekdayRepeats(d);
      WithinWeek(x, d + 7);
    }
    hide Weekday;
    CountSplits(OnWeekdays([w]), d, d + 1, d + 7);
    NoneInRange(OnWeekdays([w]), d + 1, d + 7);
    assert Count(OnWeekdays([w]), d, d + 1) == 1;
  }

  /**
   * The `k`-th such weekday of a month is the one on days `7 * (k - 1) + 1` to `7 * k`;
   * counted from the end, the one with `7 * (k - 1)` to `7 * k - 1` days after it.
   */
  lemma NthWeekdayByDay(w: int, k: int, d: int)
    requires 0 <= w <= 6 && k >= 1
    ensures IsNthWeekday([w], k, d) <==> Weekday(d) == w && (DayOfMonth(d) - 1) / 7 == k - 1
    ensures IsNthWeekday([w], -k, d) <==> Weekday(d) == w && (DaysInMonth(MonthOf(d)) - DayOfMonth(d)) / 7 == k - 1
  {
    var lo, hi := MonthStart(MonthOf(d)), MonthStart(MonthOf(d) + 1);
    MonthStep(MonthOf(d));
    assert DayOfMonth(d) == d - lo + 1 && DaysInMonth(MonthOf(d)) - DayOfMonth(d) == hi - 1 - d;
    hide MonthStart, MonthOf, DaysInMonth, DayOfMonth;
    if Weekday(d) == w {
      WeekdaysBefore(w, lo, d);
      WeekdaysAfter(w, d, hi);
      hide Weekday;
    }
  }

  /** After a day of weekday `w` there is one such day a week, too. */
  lemma {:induction false} WeekdaysAfter(w: int, d: int, hi: int)
    requires Weekday(d) == w && d < hi
    ensures Count(OnWeekdays([w]), d + 1, hi) == (hi - 1 - d) / 7
    decreases hi - d
  {
    if hi - d <= 7 {
      forall x | d + 1 <= x < hi ensures !OnWeekdays([w])(x) {
        WeekdayRepeats(d);
        WithinWeek(x, d + 7);
      }
      hide Weekday;
      NoneInRange(OnWeekdays([w]), d + 1, hi);
    } else {
      WeekdayRepeats(d);
      hide Weekday;
      WeekdaysAfter(w, d + 7, hi);
      OneInWeek(w, d);
      CountSplits(OnWeekdays([w]), d, d + 1, d + 7);
      assert Count(OnWeekdays([w]), d, d + 1) == 1;
      OneInWeek(w, d + 7);
      CountSplits(OnWeekdays([w]), d + 1, d + 7, hi);
      CountSplits(OnWeekdays([w]), d + 7, d + 8, hi);
      assert Count(OnWeekdays([w]), d + 7, d + 8) == 1;
    }
  }

  /** The weekdays of the three days before. */
  lemma DaysBack(d: int)
    ensures Weekday(d) >= 1 ==> Weekday(d - 1) == Weekday(d) - 1
    ensures Weekday(d) == 0 ==> Weekday(d - 1) == 6 && Weekday(d - 2) == 5 && Weekday(d - 3) == 4
  {
  }

  /** A later working day has an earlier one before it in its month. */
  lemma EarlierWorkday(d: int) returns (e: int)
    requires IsWorkday(d) && DayOfMonth(d) > 1 && !(DayOfMonth(d) <= 3 && Weekday(d) == 0)
    ensures e < d && SameMonth(e, d) && IsWorkday(e)
  {
    e := if Weekday(d) >= 1 then d - 1 else d - 3;
    DaysBack(d);
    assert DayOfMonth(d) == d - MonthStart(MonthOf(d)) + 1;
    hide MonthStart, MonthOf, DayOfMonth, Weekday;
    MonthIsUnique(e, MonthOf(d));
  }

  /** The first working day of a month is its first day, or the Monday on its second or third. */
  lemma FirstWorkdayByDay(d: int)
    ensures IsAnchorDay(FirstWorkday, d) <==>
      Weekday(d) <= 4 && (DayOfMonth(d) == 1 || (DayOfMonth(d) <= 3 && Weekday(d) == 0))
  {
    assert DayOfMonth(d) == d - MonthStart(MonthOf(d)) + 1;
    DaysBack(d);
    hide MonthStart, MonthOf, DayOfMonth, Weekday;
    if IsWorkday(d) {
      if DayOfMonth(d) == 1 || (DayOfMonth(d) <= 3 && Weekday(d) == 0) {
        forall x | SameMonth(x, d) && IsWorkday(x) ensures d <= x {
          assert MonthStart(MonthOf(d)) <= x;
        }
      } else {
        var e := EarlierWorkday(d);
      }
    }
  }
}
