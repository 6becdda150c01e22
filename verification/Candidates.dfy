/**
 * The starts one period of a rule produces, computed the way the engine does it:
 * arrays filled by loops over the days of a month, then filtered, de-duplicated
 * and sorted. Each step is proved to produce exactly the days the rule means.
 */
module Candidates {
  import opened Wrappers
  import opened Ranges
  import opened CivilCalendar
  import opened RecurrenceRule

  ghost function Workdays(): int -> bool {
    (x: int) => IsWorkday(x)
  }

  /** Day-of-month `day` of month `m`; an overflowing day is skipped, never clamped. */
  function DayInMonthOrNull(m: int, day: int): (r: Option<int>)
    ensures 1 <= day <= 31 ==> (r.Some? <==> day <= DaysInMonth(m))
    ensures 1 <= day <= 31 && r.Some? ==> MonthOf(r.value) == m && DayOfMonth(r.value) == day
  {
    var candidate := SetDay(m, day);
    if 1 <= day <= DaysInMonth(m) then
      SetDayInMonth(m, day);
      if MonthOf(candidate) != m then None else Some(candidate)
    else if 1 <= day <= 31 then
      SetDayOverflows(m, day);
      if MonthOf(candidate) != m then None else Some(candidate)
    else
      if MonthOf(candidate) != m then None else Some(candidate)
  }

  lemma NthWeekdayAtIndex(m: int, weekdays: seq<int>, p: int, d: int)
    ensures
      var q := List(OnWeekdays(weekdays), MonthStart(m), MonthStart(m + 1));
      var i := if p > 0 then p - 1 else |q| + p;
      MonthOf(d) == m && IsNthWeekday(weekdays, p, d) <==> 0 <= i < |q| && q[i] == d
  {
    hide MonthStart, MonthOf, Weekday;
    var on, lo, hi := OnWeekdays(weekdays), MonthStart(m), MonthStart(m + 1);
    var q := List(on, lo, hi);
    var i := if p > 0 then p - 1 else |q| + p;
    if MonthOf(d) == m && IsNthWeekday(weekdays, p, d) {
      IndexIsRank(on, lo, hi, d);
    }
    if 0 <= i < |q| && q[i] == d {
      RankIsIndex(on, lo, hi, i);
      MonthIsUnique(d, m);
    }
  }

  lemma NthWeekdayOutcome(m: int, weekdays: seq<int>, p: int, r: Option<int>)
    requires
      var q := List(OnWeekdays(weekdays), MonthStart(m), MonthStart(m + 1));
      var i := if p > 0 then p - 1 else |q| + p;
      r == if 0 <= i < |q| then Some(q[i]) else None
    ensures forall d :: MonthOf(d) == m && IsNthWeekday(weekdays, p, d) <==> r == Some(d)
  {
    hide MonthStart, MonthOf, IsNthWeekday;
    forall d ensures MonthOf(d) == m && IsNthWeekday(weekdays, p, d) <==> r == Some(d) {
      NthWeekdayAtIndex(m, weekdays, p, d);
    }
  }

  /** The days of month `m` on one of `weekdays`, in order. */
  method WeekdaysInMonth(m: int, weekdays: seq<int>) returns (matches: seq<int>)
    ensures matches == List(OnWeekdays(weekdays), MonthStart(m), MonthStart(m + 1))
  {
    hide MonthStart, DaysInMonth, Weekday;
    MonthStep(m);
    var daysInMonth := DaysInMonth(m);
    matches := [];
    var day := 1;
    while day <= daysInMonth
      invariant 1 <= day <= daysInMonth + 1
      invariant matches == List(OnWeekdays(weekdays), MonthStart(m), SetDay(m, day))
    {
      var candidate := SetDay(m, day);
      if Weekday(candidate) in weekdays {
        matches := matches + [candidate];
      }
      day := day + 1;
    }
  }

  /** The `setPos`-th day of month `m` on one of `weekdays`; null exactly when the ordinal overflows. */
  method NthWeekdayInMonth(m: int, weekdays: seq<int>, setPos: int) returns (r: Option<int>)
    ensures forall d :: MonthOf(d) == m && IsNthWeekday(weekdays, setPos, d) <==> r == Some(d)
  {
    hide MonthStart, MonthOf, IsNthWeekday;
    var matches := WeekdaysInMonth(m, weekdays);
    var index := if setPos > 0 then setPos - 1 else |matches| + setPos;
    if |matches| == 0 || index < 0 || index >= |matches| {
      r := None;
    } else {
      r := Some(matches[index]);
    }
    NthWeekdayOutcome(m, weekdays, setPos, r);
  }

  lemma CountOfOneWorkday(d: int, z: int, hi: int)
    requires d < z < hi && IsWorkday(z) && forall x :: d < x < hi && IsWorkday(x) ==> x == z
    ensures Count(Workdays(), d + 1, hi) == 1
  {
    CountSplits(Workdays(), d + 1, z, hi);
    CountSplits(Workdays(), z, z + 1, hi);
    NoneInRange(Workdays(), d + 1, z);
    NoneInRange(Workdays(), z + 1, hi);
  }

  lemma LaterInMonth(d: int)
    ensures forall x :: SameMonth(x, d) && x > d <==> d < x < MonthStart(MonthOf(d) + 1)
  {
    forall x | d < x < MonthStart(MonthOf(d) + 1) ensures SameMonth(x, d) {
      MonthIsUnique(x, MonthOf(d));
    }
  }

  lemma LastFromEnd(d: int)
    ensures IsAnchorDay(LastWorkday, d) <==>
      IsWorkday(d) && Count(Workdays(), d + 1, MonthStart(MonthOf(d) + 1)) == 0
  {
    hide MonthStart, MonthOf, IsWorkday;
    var hi := MonthStart(MonthOf(d) + 1);
    LaterInMonth(d);
    if IsAnchorDay(LastWorkday, d) {
      NoneInRange(Workdays(), d + 1, hi);
    }
    if Count(Workdays(), d + 1, hi) == 0 {
      ListMembers(Workdays(), d + 1, hi);
      assert forall x :: d < x < hi && IsWorkday(x) ==> x in List(Workdays(), d + 1, hi);
    }
  }

  lemma DayBeforeLastHasOneAfter(d: int)
    requires IsAnchorDay(DayBeforeLastWorkday, d)
    ensures IsWorkday(d) && Count(Workdays(), d + 1, MonthStart(MonthOf(d) + 1)) == 1
  {
    LaterInMonth(d);
    hide MonthStart, MonthOf, IsWorkday;
    var z :| z > d && SameMonth(z, d) && IsWorkday(z)
      && forall x :: SameMonth(x, d) && IsWorkday(x) && x > d ==> x == z;
    CountOfOneWorkday(d, z, MonthStart(MonthOf(d) + 1));
  }

  lemma OneAfterIsDayBeforeLast(d: int)
    requires IsWorkday(d) && Count(Workdays(), d + 1, MonthStart(MonthOf(d) + 1)) == 1
    ensures IsAnchorDay(DayBeforeLastWorkday, d)
  {
    hide MonthStart, MonthOf, IsWorkday;
    var hi := MonthStart(MonthOf(d) + 1);
    LaterInMonth(d);
    var z := SoleMatch(Workdays(), d + 1, hi);
    assert IsWorkday(z) && SameMonth(z, d);
    forall x | SameMonth(x, d) && IsWorkday(x) && x > d ensures x == z {
      assert Workdays()(x);
    }
  }

  /** An anchor counted from the month's end: a workday with a given number of workdays after it. */
  lemma AnchorFromEnd(mode: MonthlyAnchor, d: int)
    requires mode != FirstWorkday
    ensures IsAnchorDay(mode, d) <==>
      IsWorkday(d) && Count(Workdays(), d + 1, MonthStart(MonthOf(d) + 1)) == if mode.LastWorkday? then 0 else 1
  {
    hide IsAnchorDay, MonthStart, MonthOf, IsWorkday;
    LastFromEnd(d);
    if mode == DayBeforeLastWorkday {
      if IsAnchorDay(mode, d) {
        DayBeforeLastHasOneAfter(d);
      } else if IsWorkday(d) && Count(Workdays(), d + 1, MonthStart(MonthOf(d) + 1)) == 1 {
        OneAfterIsDayBeforeLast(d);
      }
    }
  }

  lemma AnchorFound(m: int, mode: MonthlyAnchor, c: int)
    requires mode != FirstWorkday && MonthOf(c) == m && IsWorkday(c)
    requires Count(Workdays(), c + 1, MonthStart(m + 1)) == if mode.LastWorkday? then 0 else 1
    ensures forall d :: MonthOf(d) == m && IsAnchorDay(mode, d) <==> d == c
  {
    hide MonthStart, MonthOf, IsWorkday, IsAnchorDay;
    var hi := MonthStart(m + 1);
    AnchorFromEnd(mode, c);
    forall d | MonthOf(d) == m && IsAnchorDay(mode, d) ensures d == c {
      AnchorFromEnd(mode, d);
      if d < c {
        CountGrows(Workdays(), d + 1, c, hi);
        CountSplits(Workdays(), d + 1, c, hi);
        CountSplits(Workdays(), c, c + 1, hi);
      } else if c < d {
        CountSplits(Workdays(), c + 1, d, hi);
        CountSplits(Workdays(), d, d + 1, hi);
      }
    }
  }

  /** The working-day anchor of month `m`; null would mean the month has none. */
  method WorkdayAnchorInMonth(m: int, mode: MonthlyAnchor) returns (r: Option<int>)
    ensures forall d :: MonthOf(d) == m && IsAnchorDay(mode, d) <==> r == Some(d)
  {
    hide MonthStart, DaysInMonth, IsWorkday;
    MonthStep(m);
    var daysInMonth := DaysInMonth(m);
    if mode == FirstWorkday {
      var day := 1;
      while day <= daysInMonth
        invariant 1 <= day <= daysInMonth + 1
        invariant forall x :: MonthStart(m) <= x < SetDay(m, day) ==> !IsWorkday(x)
      {
        var candidate := SetDay(m, day);
        if IsWorkday(candidate) {
          SetDayInMonth(m, day);
          return Some(candidate);
        }
        day := day + 1;
      }
      return None;
    }
    var skip := if mode == DayBeforeLastWorkday then 1 else 0;
    var seen := 0;
    var day := daysInMonth;
    while day >= 1
      invariant 0 <= day <= daysInMonth
      invariant seen == Count(Workdays(), SetDay(m, day) + 1, MonthStart(m + 1)) <= skip
    {
      var candidate := SetDay(m, day);
      CountSplits(Workdays(), candidate, candidate + 1, MonthStart(m + 1));
      if IsWorkday(candidate) {
        if seen == skip {
          SetDayInMonth(m, day);
          AnchorFound(m, mode, candidate);
          return Some(candidate);
        }
        seen := seen + 1;
      }
      day := day - 1;
    }
    forall d | MonthOf(d) == m ensures !IsAnchorDay(mode, d) {
      AnchorFromEnd(mode, d);
      CountSplits(Workdays(), MonthStart(m), d, MonthStart(m + 1));
      CountSplits(Workdays(), d, d + 1, MonthStart(m + 1));
    }
    return None;
  }

  lemma WorkdaySoon(a: int)
    ensures IsWorkday(a) || IsWorkday(a + 1) || IsWorkday(a + 2)
  {
  }

  lemma FirstWorkdayExists(m: int)
    ensures exists d :: MonthOf(d) == m && IsAnchorDay(FirstWorkday, d)
  {
    var lo := MonthStart(m);
    MonthStep(m);
    assert DaysInMonth(m) > 2;
    hide MonthOf, MonthStart, DaysInMonth, IsWorkday;
    WorkdaySoon(lo);
    var d := if IsWorkday(lo) then lo else if IsWorkday(lo + 1) then lo + 1 else lo + 2;
    MonthIsUnique(d, m);
    assert IsAnchorDay(FirstWorkday, d);
  }

  /** Every month has each of its working-day anchors, so the null above never occurs. */
  lemma EveryMonthHasAnchors(m: int, mode: MonthlyAnchor)
    ensures exists d :: MonthOf(d) == m && IsAnchorDay(mode, d)
  {
    hide MonthStart, MonthOf, IsAnchorDay, IsWorkday;
    var lo, hi := MonthStart(m), MonthStart(m + 1);
    MonthStep(m);
    if mode == FirstWorkday {
      FirstWorkdayExists(m);
    } else {
      EnoughWorkdays(hi - 7);
      CountSplits(Workdays(), lo, hi - 7, hi);
      var skip := if mode == LastWorkday then 0 else 1;
      var i := Count(Workdays(), lo, hi) - 1 - skip;
      RankIsIndex(Workdays(), lo, hi, i);
      var d := List(Workdays(), lo, hi)[i];
      MonthIsUnique(d, m);
      AnchorFromEnd(mode, d);
    }
  }

  /** How many working days the `n` days from weekday `w` on hold, within a fortnight. */
  function WorkdaysFrom(w: int, n: nat): int {
    if n == 0 then 0
    else WorkdaysFrom(w, n - 1) + if w + n - 1 <= 4 || 7 <= w + n - 1 <= 11 then 1 else 0
  }

  lemma WorkdayAhead(a: int, i: nat)
    requires i < 7
    ensures 0 <= Weekday(a) <= 6
    ensures Workdays()(a + i) == (Weekday(a) + i <= 4 || 7 <= Weekday(a) + i <= 11)
  {
  }

  lemma {:induction false} WorkdaysCounted(a: int, n: nat)
    requires n <= 7
    ensures 0 <= Weekday(a) <= 6 && Count(Workdays(), a, a + n) == WorkdaysFrom(Weekday(a), n)
  {
    hide Weekday, Workdays;
    if n == 0 {
      WorkdayAhead(a, 0);
    } else {
      WorkdaysCounted(a, n - 1);
      WorkdayAhead(a, n - 1);
    }
  }

  lemma FiveOfSeven(w: int)
    requires 0 <= w <= 6
    ensures WorkdaysFrom(w, 7) == 5
  {
    assert WorkdaysFrom(w, 3) ==
      (if w <= 4 then 1 else 0) + (if w <= 3 || w == 6 then 1 else 0) + (if w <= 2 || w >= 5 then 1 else 0);
    assert WorkdaysFrom(w, 5) ==
      WorkdaysFrom(w, 3) + (if w <= 1 || w >= 4 then 1 else 0) + (if w == 0 || w >= 3 then 1 else 0);
  }

  /** Any seven days hold five working days. */
  lemma EnoughWorkdays(a: int)
    ensures Count(Workdays(), a, a + 7) == 5
  {
    hide Weekday, Workdays, WorkdaysFrom, Count;
    WorkdaysCounted(a, 7);
    FiveOfSeven(Weekday(a));
  }

  /** DAILY and WEEKLY: pure expansions of the period cursor. */
  function DailyCandidates(cursor: int): seq<int> {
    [cursor]
  }

  lemma DayOfWeek(cursor: int, d: int)
    ensures WeekOf(d) == WeekOf(cursor) ==> d == WeekStart(cursor) + Weekday(d)
    ensures 0 <= d - WeekStart(cursor) <= 6 ==> WeekOf(d) == WeekOf(cursor) && Weekday(d) == d - WeekStart(cursor)
  {
  }

  function WeeklyCandidates(cursor: int, weekdays: seq<int>): (r: seq<int>)
    requires forall w :: w in weekdays ==> 0 <= w <= 6
    ensures weekdays != [] ==>
      forall d :: d in r <==> WeekOf(d) == WeekOf(cursor) && Weekday(d) in weekdays
    ensures weekdays == [] ==>
      forall d :: d in r <==> WeekOf(d) == WeekOf(cursor) && Weekday(d) == Weekday(cursor)
  {
    if weekdays == [] then
      assert forall d :: WeekOf(d) == WeekOf(cursor) && Weekday(d) == Weekday(cursor) ==> d == cursor;
      [cursor]
    else
      var r := seq(|weekdays|, i requires 0 <= i < |weekdays| => WeekStart(cursor) + weekdays[i]);
      assert forall d :: d in r <==> WeekOf(d) == WeekOf(cursor) && Weekday(d) in weekdays by {
        forall d ensures d in r <==> WeekOf(d) == WeekOf(cursor) && Weekday(d) in weekdays {
          DayOfWeek(cursor, d);
          if WeekOf(d) == WeekOf(cursor) && Weekday(d) in weekdays {
            var i :| 0 <= i < |weekdays| && weekdays[i] == Weekday(d);
            assert r[i] == d;
          }
          if d in r {
            var i :| 0 <= i < |weekdays| && d == WeekStart(cursor) + weekdays[i];
            assert weekdays[i] in weekdays;
          }
        }
      }
      r
  }

  /** The days `days` of month `m` that exist. */
  method DaysOfMonth(m: int, days: seq<int>) returns (r: seq<int>)
    requires forall n :: n in days ==> 1 <= n <= 31
    ensures forall d :: d in r <==> MonthOf(d) == m && DayOfMonth(d) in days
  {
    hide MonthOf, DayOfMonth, DayInMonthOrNull;
    r := [];
    var i := 0;
    while i < |days|
      invariant 0 <= i <= |days|
      invariant forall d :: d in r <==> MonthOf(d) == m && DayOfMonth(d) in days[..i]
    {
      var candidate := DayInMonthOrNull(m, days[i]);
      assert days[i] in days;
      DayInMonthMeaning(m, days[i]);
      if candidate.Some? {
        r := r + [candidate.value];
      }
      i := i + 1;
    }
    assert days[..i] == days;
  }

  lemma DayInMonthMeaning(m: int, day: int)
    requires 1 <= day <= 31
    ensures forall d :: MonthOf(d) == m && DayOfMonth(d) == day <==> DayInMonthOrNull(m, day) == Some(d)
  {
    hide DaysInMonth, MonthStart;
    forall d | MonthOf(d) == m && DayOfMonth(d) == day ensures DayInMonthOrNull(m, day) == Some(d) {
      SetDayInMonth(m, day);
    }
  }

  /** MONTHLY selectors in order of precedence: anchor, ordinal weekdays, listed days, the seed's day. */
  method MonthlyCandidates(cursor: int, seed: int, c: Config) returns (r: seq<int>)
    requires ValidAxes(c)
    ensures forall d :: d in r <==> SameMonth(d, cursor) && SelectedInMonth(c, seed, d)
  {
    hide MonthOf, DayOfMonth, IsAnchorDay, IsNthWeekday;
    var m := MonthOf(cursor);
    if c.monthlyAnchor.Some? {
      var anchor := WorkdayAnchorInMonth(m, c.monthlyAnchor.value);
      return if anchor.Some? then [anchor.value] else [];
    }
    if c.bySetPos != [] && c.byWeekday != [] {
      r := [];
      var i := 0;
      while i < |c.bySetPos|
        invariant 0 <= i <= |c.bySetPos|
        invariant forall d :: d in r <==>
          SameMonth(d, cursor) && exists j :: 0 <= j < i && IsNthWeekday(c.byWeekday, c.bySetPos[j], d)
      {
        var candidate := NthWeekdayInMonth(m, c.byWeekday, c.bySetPos[i]);
        if candidate.Some? {
          r := r + [candidate.value];
        }
        i := i + 1;
      }
      return;
    }
    var days := if c.byMonthDay != [] then c.byMonthDay else [DayOfMonth(seed)];
    r := DaysOfMonth(m, days);
  }

  lemma MonthOfGivenYear(y: int, k: int)
    requires 1 <= k <= 12
    ensures forall d :: MonthOf(d) == 12 * y + k - 1 <==> YearOf(d) == y && MonthOfYear(d) == k
  {
    hide MonthOf;
  }

  /** YEARLY: the listed (or the seed's) days of the listed (or the seed's) months. */
  method YearlyCandidates(cursor: int, seed: int, c: Config) returns (r: seq<int>)
    requires ValidAxes(c) && c.frequency == Yearly
    ensures forall d :: d in r <==> YearOf(d) == YearOf(cursor) && Selected(c, seed, d)
  {
    hide MonthOf, DayOfMonth, YearOf, MonthOfYear;
    var months := if c.byMonth != [] then c.byMonth else [MonthOfYear(seed)];
    var days := if c.byMonthDay != [] then c.byMonthDay else [DayOfMonth(seed)];
    r := [];
    var i := 0;
    while i < |months|
      invariant 0 <= i <= |months|
      invariant forall d :: d in r <==>
        YearOf(d) == YearOf(cursor) && MonthOfYear(d) in months[..i] && DayOfMonth(d) in days
    {
      assert months[i] in months;
      MonthOfGivenYear(YearOf(cursor), months[i]);
      var inMonth := DaysOfMonth(12 * YearOf(cursor) + months[i] - 1, days);
      r := r + inMonth;
      i := i + 1;
    }
    assert months[..i] == months;
  }

  method SortAscending(days: seq<int>) returns (r: seq<int>)
    requires forall i, j :: 0 <= i < j < |days| ==> days[i] != days[j]
    ensures Increasing(r)
    ensures forall d :: d in r <==> d in days
  {
    r := [];
    var i := 0;
    while i < |days|
      invariant 0 <= i <= |days|
      invariant Increasing(r)
      invariant forall d :: d in r <==> d in days[..i]
    {
      r := Insert(r, days[i]);
      i := i + 1;
    }
    assert days[..i] == days;
  }

  /** The cursor of a WEEKLY rule without weekdays stays on the seed's weekday. */
  predicate CursorOnPhase(cursor: int, seed: int, c: Config) {
    c.frequency == Weekly ==> Weekday(cursor) == Weekday(seed)
  }

  /** The starts one period produces: exactly the days of that period on the rule, ascending. */
  method CandidatesForPeriod(cursor: int, seed: int, c: Config) returns (r: seq<int>)
    requires ValidAxes(c) && CursorOnPhase(cursor, seed, c)
    ensures Increasing(r)
    ensures forall d :: d in r <==>
      && seed <= d
      && PeriodOf(c.frequency, d) == PeriodOf(c.frequency, cursor)
      && Selected(c, seed, d)
      && PassesLimitFilters(c, d)
  {
    hide MonthOf, SelectedInMonth, PassesLimitFilters;
    var raw;
    match c.frequency {
      case Daily => raw := DailyCandidates(cursor);
      case Weekly => raw := WeeklyCandidates(cursor, c.byWeekday);
      case Monthly => raw := MonthlyCandidates(cursor, seed, c);
      case Yearly => raw := YearlyCandidates(cursor, seed, c);
    }
    assert forall d :: d in raw <==> PeriodOf(c.frequency, d) == PeriodOf(c.frequency, cursor) && Selected(c, seed, d);
    var filtered: seq<int> := [];
    var i := 0;
    while i < |raw|
      invariant 0 <= i <= |raw|
      invariant forall j, k :: 0 <= j < k < |filtered| ==> filtered[j] != filtered[k]
      invariant forall d :: d in filtered <==> d in raw[..i] && seed <= d && PassesLimitFilters(c, d)
    {
      if raw[i] >= seed && raw[i] !in filtered && PassesLimitFilters(c, raw[i]) {
        filtered := filtered + [raw[i]];
      }
      i := i + 1;
    }
    assert raw[..i] == raw;
    r := SortAscending(filtered);
  }
}
