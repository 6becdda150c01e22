/**
 * Laws of series: restarting a rule at a generated day yields its tail, splitting
 * and truncating partition a series, queries over adjacent windows cover each
 * other, and the membership probe is exact.
 */
module SeriesLaws {
  import opened Wrappers
  import opened Ranges
  import opened Division
  import opened CivilCalendar
  import opened RecurrenceRule
  import opened TaskRows
  import opened Series

  /**
   * The phase lemma: stepping restarted at any generated day yields the tail of the
   * stream, for every frequency and every fallback to the seed's day or month.
   */
  lemma RestartYieldsTail(c: Config, seed: int, restart: int, d: int)
    requires OnRule(c, seed, restart) && restart <= d
    ensures OnRule(c, restart, d) <==> OnRule(c, seed, d)
  {
    hide PeriodOf, Interval, MonthOf, IsAnchorDay, IsNthWeekday, PassesLimitFilters, Weekday, DayOfMonth, MonthOfYear;
    var f := c.frequency;
    SameResidue(PeriodOf(f, d) - PeriodOf(f, seed), PeriodOf(f, restart) - PeriodOf(f, seed), Interval(c));
    assert Selected(c, restart, d) == Selected(c, seed, d);
  }

  lemma RankFromRestart(c: Config, seed: int, restart: int, d: int)
    requires OnRule(c, seed, restart) && restart <= d
    ensures Rank(c, restart, d) == Rank(c, seed, d) - Rank(c, seed, restart)
  {
    forall x | restart <= x < d ensures RuleDays(c, restart)(x) == RuleDays(c, seed)(x) {
      RestartYieldsTail(c, seed, restart, x);
    }
    assert seed <= restart;
    hide OnRule;
    CountAgrees(RuleDays(c, restart), RuleDays(c, seed), restart, d);
    CountSplits(RuleDays(c, seed), seed, restart, d);
  }

  /** A rule cut so that it ends the day before `day`; a stale count is left in place. */
  function EndedBefore(c: Config, day: int): Config {
    c.(endType := UntilDate, endDate := Some(day - 1))
  }

  /** The rule of the new side of a split, given how many occurrences were counted before it. */
  function ContinuedAfter(c: Config, before: nat): Config {
    if c.endType == AfterCount && c.count.Some? then
      c.(count := Some(if c.count.value - before < 0 then 0 else c.count.value - before))
    else c
  }

  lemma SameRule(c: Config, c': Config, seed: int)
    requires c' == c.(endType := c'.endType, endDate := c'.endDate, count := c'.count)
    ensures forall d :: OnRule(c', seed, d) == OnRule(c, seed, d)
  {
    hide MonthOf, IsAnchorDay, IsNthWeekday, Weekday;
    forall d ensures OnRule(c', seed, d) == OnRule(c, seed, d) {
      assert Interval(c') == Interval(c);
      assert SelectedInMonth(c', seed, d) == SelectedInMonth(c, seed, d);
      assert PassesLimitFilters(c', d) == PassesLimitFilters(c, d);
    }
  }

  lemma SameRank(c: Config, c': Config, seed: int, d: int)
    requires c' == c.(endType := c'.endType, endDate := c'.endDate, count := c'.count)
    ensures Rank(c', seed, d) == Rank(c, seed, d)
  {
    SameRule(c, c', seed);
    hide OnRule;
    CountAgrees(RuleDays(c', seed), RuleDays(c, seed), seed, d);
  }

  /** Truncating at a member leaves exactly the members before it, however the rule ended. */
  lemma TruncationKeepsThePast(c: Config, seed: int, cut: int, d: int)
    requires InSeries(c, seed, cut)
    ensures InSeries(EndedBefore(c, cut), seed, d) <==> InSeries(c, seed, d) && d < cut
  {
    SameRule(c, EndedBefore(c, cut), seed);
    assert seed <= cut;
    if OnRule(c, seed, d) && d < cut {
      assert seed <= d;
      hide OnRule;
      CountGrows(RuleDays(c, seed), seed, d, cut);
    }
  }

  /** The rule has no generated day between its own end and day `cut`. */
  ghost predicate NotOverBefore(c: Config, seed: int, cut: int) {
    && (c.endType == UntilDate && c.endDate.Some? ==> forall d :: c.endDate.value < d < cut ==> !OnRule(c, seed, d))
    && (c.endType == AfterCount && c.count.Some? ==>
         Rank(c, seed, cut) <= if c.count.value < 0 then 0 else c.count.value)
  }

  /**
   * Truncating at any day, member or not: it leaves exactly the members before that
   * day if and only if the rule was not over already. A rule that had ended is
   * revived up to the cut, since its own end is overwritten.
   */
  lemma TruncationExactUnlessOver(c: Config, seed: int, cut: int)
    ensures (forall d :: InSeries(EndedBefore(c, cut), seed, d) <==> InSeries(c, seed, d) && d < cut)
      <==> NotOverBefore(c, seed, cut)
  {
    SameRule(c, EndedBefore(c, cut), seed);
    var rule := RuleDays(c, seed);
    if NotOverBefore(c, seed, cut) {
      forall d ensures InSeries(EndedBefore(c, cut), seed, d) <==> InSeries(c, seed, d) && d < cut {
        if OnRule(c, seed, d) && d < cut {
          CountGrows(rule, seed, d, cut);
        }
      }
    } else if c.endType == UntilDate {
      var d :| c.endDate.value < d < cut && OnRule(c, seed, d);
      assert InSeries(EndedBefore(c, cut), seed, d) && !InSeries(c, seed, d);
    } else {
      var n := if c.count.value < 0 then 0 else c.count.value;
      RankIsIndex(rule, seed, cut, n);
      var d := List(rule, seed, cut)[n];
      assert InSeries(EndedBefore(c, cut), seed, d) && !InSeries(c, seed, d);
    }
  }

  /** The rule that recurs every day, for ever. */
  const EVERY_DAY := Config(Daily, 1, [], [], [], [], None, Never, None, None)

  lemma DailyOnRule(c: Config, seed: int, d: int)
    requires c == Config(Daily, 1, [], [], [], [], None, c.endType, c.endDate, c.count)
    ensures OnRule(c, seed, d) <==> seed <= d
    ensures seed <= d ==> Rank(c, seed, d) == d - seed
    decreases d
  {
    forall x | seed <= x < d ensures RuleDays(c, seed)(x) {
      assert PeriodOf(c.frequency, x) == x && Interval(c) == 1;
    }
    if seed <= d {
      AllInRange(RuleDays(c, seed), seed, d);
    }
  }

  /** A daily rule of three occurrences, truncated ten days on, gains a fourth and more. */
  lemma TruncationRevives()
    ensures
      var c := Config(Daily, 1, [], [], [], [], None, AfterCount, None, Some(3));
      InSeries(EndedBefore(c, 10), 0, 5) && !InSeries(c, 0, 5)
  {
    hide OnRule, Rank;
    var c := Config(Daily, 1, [], [], [], [], None, AfterCount, None, Some(3));
    DailyOnRule(c, 0, 5);
    DailyOnRule(EndedBefore(c, 10), 0, 5);
  }

  /**
   * The new side of a split at the `k`-th member generates exactly the members from
   * it on; when only `before < k` were counted, it generates `k - before` too many.
   */
  lemma ContinuationIsTheTail(c: Config, seed: int, cut: int, before: nat, d: int)
    requires InSeries(c, seed, cut) && before <= Rank(c, seed, cut)
    ensures InSeries(ContinuedAfter(c, before), cut, d) <==>
      && cut <= d && OnRule(c, seed, d) && WithinUntil(c, d)
      && (c.endType == AfterCount && c.count.Some? ==> Rank(c, seed, d) < c.count.value + (Rank(c, seed, cut) - before))
    ensures before == Rank(c, seed, cut) ==>
      (InSeries(ContinuedAfter(c, before), cut, d) <==> InSeries(c, seed, d) && cut <= d)
  {
    var c' := ContinuedAfter(c, before);
    SameRule(c, c', cut);
    if cut <= d {
      RestartYieldsTail(c, seed, cut, d);
      RankFromRestart(c, seed, cut, d);
      SameRank(c, c', cut, d);
    } else {
      assert !OnRule(c', cut, d);
    }
    hide OnRule, Rank;
  }

  /** An expansion lists wanted days in order; the cap cuts it from the end. */
  lemma ExpansionEntries(task: Task, c: Config, exceptions: map<int, OccurrenceException>, from: int, to: int, i: nat)
    requires task.startAt.Some? && i < |Expansion(task, c, exceptions, from, to)|
    ensures
      var s := SeriesOf(task, c);
      var d := AnswerDays(s, Duration(task), exceptions, from, to)[i];
      && i < MAX_OCCURRENCES_PER_WINDOW
      && Wanted(s, Duration(task), exceptions, from, to, d)
      && Expansion(task, c, exceptions, from, to)[i] == BuildOccurrence(task, exceptions, StartOn(s, d))
  {
    var s := SeriesOf(task, c);
    hide Wanted, BuildOccurrence, StartOn;
    RankIsIndex(WantedDays(s, Duration(task), exceptions, from, to), SeedDay(s), LocalDay(s.offset, to) + 1, i);
  }

  /** A wanted day is in the expansion exactly when fewer than the cap are wanted before it. */
  lemma WantedDayListed(task: Task, c: Config, exceptions: map<int, OccurrenceException>, from: int, to: int, d: int)
    requires task.startAt.Some? && Wanted(SeriesOf(task, c), Duration(task), exceptions, from, to, d)
    ensures
      var s := SeriesOf(task, c);
      var i := Count(WantedDays(s, Duration(task), exceptions, from, to), SeedDay(s), d);
      i < |Expansion(task, c, exceptions, from, to)| <==> i < MAX_OCCURRENCES_PER_WINDOW
    ensures
      var s := SeriesOf(task, c);
      var i := Count(WantedDays(s, Duration(task), exceptions, from, to), SeedDay(s), d);
      i < MAX_OCCURRENCES_PER_WINDOW ==>
        Expansion(task, c, exceptions, from, to)[i] == BuildOccurrence(task, exceptions, StartOn(s, d))
  {
    var s := SeriesOf(task, c);
    var wanted, lo, hi := WantedDays(s, Duration(task), exceptions, from, to), SeedDay(s), LocalDay(s.offset, to) + 1;
    assert lo <= d < hi && wanted(d);
    hide Wanted, BuildOccurrence, StartOn;
    IndexIsRank(wanted, lo, hi, d);
  }

  /** Some returned occurrence has original start `t`. */
  predicate HasStart(occurrences: seq<Occurrence>, t: int) {
    exists i :: 0 <= i < |occurrences| && occurrences[i].originalStart == Some(t)
  }

  lemma StartIsWanted(task: Task, c: Config, exceptions: map<int, OccurrenceException>, from: int, to: int, t: int)
    requires task.startAt.Some? && HasStart(Expansion(task, c, exceptions, from, to), t)
    ensures
      var s := SeriesOf(task, c);
      var d := LocalDay(s.offset, t);
      && AtSeedTime(s, t)
      && Wanted(s, Duration(task), exceptions, from, to, d)
      && Count(WantedDays(s, Duration(task), exceptions, from, to), SeedDay(s), d) < MAX_OCCURRENCES_PER_WINDOW
  {
    var s := SeriesOf(task, c);
    var wanted, lo, hi := WantedDays(s, Duration(task), exceptions, from, to), SeedDay(s), LocalDay(s.offset, to) + 1;
    var e := Expansion(task, c, exceptions, from, to);
    assert |e| <= Count(wanted, lo, hi);
    var i :| 0 <= i < |e| && e[i].originalStart == Some(t);
    ExpansionEntries(task, c, exceptions, from, to, i);
    StartOnDay(s, AnswerDays(s, Duration(task), exceptions, from, to)[i]);
    hide Wanted, StartOn, Expansion;
    RankIsIndex(wanted, lo, hi, i);
  }

  /** Exactly which original starts an expansion returns. */
  lemma ExpansionStarts(task: Task, c: Config, exceptions: map<int, OccurrenceException>, from: int, to: int, t: int)
    requires task.startAt.Some?
    ensures
      var s := SeriesOf(task, c);
      var d := LocalDay(s.offset, t);
      HasStart(Expansion(task, c, exceptions, from, to), t) <==>
        && AtSeedTime(s, t)
        && Wanted(s, Duration(task), exceptions, from, to, d)
        && Count(WantedDays(s, Duration(task), exceptions, from, to), SeedDay(s), d) < MAX_OCCURRENCES_PER_WINDOW
  {
    hide Wanted, Expansion, Count;
    var s := SeriesOf(task, c);
    var d := LocalDay(s.offset, t);
    if HasStart(Expansion(task, c, exceptions, from, to), t) {
      StartIsWanted(task, c, exceptions, from, to, t);
    }
    if AtSeedTime(s, t) && Wanted(s, Duration(task), exceptions, from, to, d)
      && Count(WantedDays(s, Duration(task), exceptions, from, to), SeedDay(s), d) < MAX_OCCURRENCES_PER_WINDOW
    {
      WantedDayListed(task, c, exceptions, from, to, d);
    }
  }

  /** What the membership probe answers: an expansion of a 2 ms bracket that holds `t`. */
  ghost predicate IsGenerated(task: Task, c: Config, t: int) {
    HasStart(Expansion(task, c, map[], t - 1, t + 1), t)
  }

  /**
   * The membership probe is exact: `t` is generated precisely when it is a member
   * within the step backstop whose span is not negative, and fewer than the cap of
   * earlier occurrences are still running in the bracket.
   */
  lemma ProbeIsExact(task: Task, c: Config, t: int)
    requires task.startAt.Some?
    ensures
      var s := SeriesOf(task, c);
      IsGenerated(task, c, t) <==>
        && Member(s, t)
        && WithinSteps(c, SeedDay(s), LocalDay(s.offset, t))
        && Duration(task).Or(0) >= 0
        && Count(WantedDays(s, Duration(task), map[], t - 1, t + 1), SeedDay(s),
          LocalDay(s.offset, t)) < MAX_OCCURRENCES_PER_WINDOW
  {
    hide InSeries, WithinSteps, Expansion, HasStart;
    ExpansionStarts(task, c, map[], t - 1, t + 1, t);
  }

  /** Occurrences no longer than this never crowd a window's first slot out of the cap. */
  const MAX_PROBED_SPAN := MAX_OCCURRENCES_PER_WINDOW * MILLIS_PER_DAY - 1

  /** For spans up to `MAX_PROBED_SPAN` the probe is membership itself. */
  lemma ProbeIsMembership(task: Task, c: Config, t: int)
    requires task.startAt.Some? && 0 <= Duration(task).Or(0) <= MAX_PROBED_SPAN
    ensures
      var s := SeriesOf(task, c);
      IsGenerated(task, c, t) <==> Member(s, t) && WithinSteps(c, SeedDay(s), LocalDay(s.offset, t))
  {
    var s := SeriesOf(task, c);
    var d := LocalDay(s.offset, t);
    ProbeIsExact(task, c, t);
    if Member(s, t) {
      var wanted := WantedDays(s, Duration(task), map[], t - 1, t + 1);
      var lo := SeedDay(s);
      assert lo <= d;
      var cut := if d - (MAX_OCCURRENCES_PER_WINDOW - 1) < lo then lo else d - (MAX_OCCURRENCES_PER_WINDOW - 1);
      forall x | lo <= x < cut ensures !wanted(x) {
        assert StartOn(s, x) + Duration(task).Or(0) <= t - 1;
      }
      hide Wanted, InSeries, Member;
      CountSplits(wanted, lo, cut, d);
      NoneInRange(wanted, lo, cut);
      CountAtMost(wanted, cut, d);
    }
  }

  lemma DailyMember(s: Series, k: nat)
    requires s.config == EVERY_DAY && k < MAX_GENERATION_STEPS
    ensures
      var t := s.startAt + k * MILLIS_PER_DAY;
      && Member(s, t) && LocalDay(s.offset, t) == SeedDay(s) + k && StartOn(s, SeedDay(s) + k) == t
      && WithinSteps(s.config, SeedDay(s), SeedDay(s) + k)
      && InSeries(s.config, SeedDay(s), SeedDay(s) + k)
  {
    DailyOnRule(s.config, SeedDay(s), SeedDay(s) + k);
    hide OnRule;
    StartOnDay(s, SeedDay(s) + k);
    assert StepsTo(s.config, SeedDay(s), SeedDay(s) + k) == k;
  }

  /** The `j`-th occurrence of a plain daily rule still runs just before the `k`-th one when its span lasts. */
  lemma DailyRunning(s: Series, length: Option<int>, j: nat, k: nat)
    requires s.config == EVERY_DAY && j < k < MAX_GENERATION_STEPS
    ensures
      var t := s.startAt + k * MILLIS_PER_DAY;
      Wanted(s, length, map[], t - 1, t + 1, SeedDay(s) + j) <==> k - j <= length.Or(0) / MILLIS_PER_DAY
  {
    hide InSeries, WithinSteps, StartOn, SeedDay, LocalDay;
    DailyMember(s, j);
    if length.Or(0) >= (k - j) * MILLIS_PER_DAY {
      QuotientAtLeast(k - j, MILLIS_PER_DAY, length.Or(0));
    }
  }

  /** How many earlier occurrences of a plain daily rule still run just before the `k`-th. */
  lemma DailyCrowd(s: Series, length: Option<int>, k: nat, w: nat)
    requires s.config == EVERY_DAY && k < MAX_GENERATION_STEPS
    requires w == if length.Or(0) / MILLIS_PER_DAY < k then length.Or(0) / MILLIS_PER_DAY else k
    ensures
      var t := s.startAt + k * MILLIS_PER_DAY;
      Count(WantedDays(s, length, map[], t - 1, t + 1), SeedDay(s), SeedDay(s) + k) == w
  {
    var t, seed := s.startAt + k * MILLIS_PER_DAY, SeedDay(s);
    var wanted := WantedDays(s, length, map[], t - 1, t + 1);
    hide Wanted, SeedDay, Count;
    forall x | seed <= x < seed + k ensures wanted(x) <==> k - (x - seed) <= length.Or(0) / MILLIS_PER_DAY {
      DailyRunning(s, length, x - seed, k);
    }
    TailInRange(wanted, seed, seed + k - w, seed + k);
  }

  /**
   * The bound is tight: on a plain daily rule the probe sees the `k`-th slot exactly
   * when it is among the first thousand or the span is within the bound.
   */
  lemma DailyProbe(task: Task, c: Config, k: nat)
    requires c == EVERY_DAY
    requires task.startAt.Some? && Duration(task).Or(0) >= 0 && k < MAX_GENERATION_STEPS
    ensures IsGenerated(task, c, task.startAt.value + k * MILLIS_PER_DAY)
      <==> k < MAX_OCCURRENCES_PER_WINDOW || Duration(task).Or(0) <= MAX_PROBED_SPAN
    ensures Member(SeriesOf(task, c), task.startAt.value + k * MILLIS_PER_DAY)
  {
    hide Member, WithinSteps, IsGenerated, Count, LocalDay, SeedDay, StartOn;
    var s := SeriesOf(task, c);
    ProbeIsExact(task, c, task.startAt.value + k * MILLIS_PER_DAY);
    DailyMember(s, k);
    var w := Duration(task).Or(0) / MILLIS_PER_DAY;
    DailyCrowd(s, Duration(task), k, if w < k then w else k);
  }

  /** The query asks for no more days than the cap. */
  ghost predicate Uncapped(task: Task, c: Config, exceptions: map<int, OccurrenceException>, from: int, to: int)
    requires task.startAt.Some?
  {
    |AnswerDays(SeriesOf(task, c), Duration(task), exceptions, from, to)| <= MAX_OCCURRENCES_PER_WINDOW
  }

  lemma WantedInRange(s: Series, length: Option<int>, exceptions: map<int, OccurrenceException>, from: int, to: int,
                      d: int)
    requires Wanted(s, length, exceptions, from, to, d)
    ensures SeedDay(s) <= d < LocalDay(s.offset, to) + 1
  {
  }

  /** Below the cap no wanted day is beyond it. */
  lemma UncappedRank(task: Task, c: Config, exceptions: map<int, OccurrenceException>, from: int, to: int, d: int)
    requires task.startAt.Some? && Uncapped(task, c, exceptions, from, to)
    requires Wanted(SeriesOf(task, c), Duration(task), exceptions, from, to, d)
    ensures Count(WantedDays(SeriesOf(task, c), Duration(task), exceptions, from, to), SeedDay(SeriesOf(task, c)),
      d) < MAX_OCCURRENCES_PER_WINDOW
  {
    var s := SeriesOf(task, c);
    WantedInRange(s, Duration(task), exceptions, from, to, d);
    hide Wanted, LocalDay, SeedDay, Duration, SeriesOf;
    IndexIsRank(WantedDays(s, Duration(task), exceptions, from, to), SeedDay(s), LocalDay(s.offset, to) + 1, d);
  }

  /** Below the cap an expansion holds exactly the occurrences of the wanted days. */
  lemma UncappedMembers(task: Task, c: Config, exceptions: map<int, OccurrenceException>, from: int, to: int,
                        o: Occurrence)
    requires task.startAt.Some? && Uncapped(task, c, exceptions, from, to)
    ensures o in Expansion(task, c, exceptions, from, to) <==>
      exists d :: Wanted(SeriesOf(task, c), Duration(task), exceptions, from, to, d)
        && o == BuildOccurrence(task, exceptions, StartOn(SeriesOf(task, c), d))
  {
    hide Wanted, BuildOccurrence, StartOn, Expansion, Uncapped, SeedDay, Duration, AnswerDays;
    var s := SeriesOf(task, c);
    var e := Expansion(task, c, exceptions, from, to);
    if o in e {
      var i :| 0 <= i < |e| && e[i] == o;
      ExpansionEntries(task, c, exceptions, from, to, i);
    }
    if d :|
      Wanted(s, Duration(task), exceptions, from, to, d) && o == BuildOccurrence(task, exceptions, StartOn(s, d))
    {
      WantedDayListed(task, c, exceptions, from, to, d);
      UncappedRank(task, c, exceptions, from, to, d);
    }
  }

  lemma NarrowerWantsLess(s: Series, length: Option<int>, exceptions: map<int, OccurrenceException>, from: int, to: int,
                          from': int, to': int)
    requires from <= from' && to' <= to
    ensures forall d :: Wanted(s, length, exceptions, from', to', d) ==> Wanted(s, length, exceptions, from, to, d)
    ensures LocalDay(s.offset, to') <= LocalDay(s.offset, to)
  {
    hide InSeries, WithinSteps, IsSkipped, StartOn;
  }

  lemma NarrowerIsUncapped(task: Task, c: Config, exceptions: map<int, OccurrenceException>, from: int, to: int,
                           from': int, to': int)
    requires task.startAt.Some? && Uncapped(task, c, exceptions, from, to)
    requires from <= from' && to' <= to
    ensures Uncapped(task, c, exceptions, from', to')
  {
    hide Wanted, LocalDay, SeedDay, SeriesOf, Duration;
    var s := SeriesOf(task, c);
    NarrowerWantsLess(s, Duration(task), exceptions, from, to, from', to');
    var wide, narrow := WantedDays(s, Duration(task), exceptions, from, to),
      WantedDays(s, Duration(task), exceptions, from', to');
    var lo, hi, hi' := SeedDay(s), LocalDay(s.offset, to) + 1, LocalDay(s.offset, to') + 1;
    CountWeakens(narrow, wide, lo, hi');
    if lo <= hi' {
      CountGrows(wide, lo, hi', hi);
    }
  }

  /** A reachable, unskipped slot of the series starts exactly at `mid`, strictly inside `[from, to)`. */
  ghost predicate SlotAtSeam(task: Task, c: Config, exceptions: map<int, OccurrenceException>, from: int, mid: int,
                             to: int)
    requires task.startAt.Some?
  {
    var s := SeriesOf(task, c);
    from < mid < to && Member(s, mid) && WithinSteps(c, SeedDay(s), LocalDay(s.offset, mid))
      && !IsSkipped(exceptions, mid)
  }

  lemma WantedAtSeam(s: Series, exceptions: map<int, OccurrenceException>, length: Option<int>, from: int, mid: int,
                     to: int)
    requires length.Or(0) == 0
    ensures AtSeedTime(s, mid) ==>
      (Wanted(s, length, exceptions, from, to, LocalDay(s.offset, mid)) <==>
        && from < mid < to && Member(s, mid)
        && WithinSteps(s.config, SeedDay(s), LocalDay(s.offset, mid)) && !IsSkipped(exceptions, mid))
  {
    hide InSeries, WithinSteps, LocalDay, SeedDay, IsSkipped;
    assert AtSeedTime(s, mid) ==> StartOn(s, LocalDay(s.offset, mid)) == mid;
    hide StartOn;
  }

  /** Below the cap, a read of a point series holds the seam exactly when it is a slot of the rule. */
  lemma SeamIsRead(task: Task, c: Config, exceptions: map<int, OccurrenceException>, from: int, mid: int, to: int)
    requires task.startAt.Some? && Duration(task).Or(0) == 0 && Uncapped(task, c, exceptions, from, to)
    ensures HasStart(Expansion(task, c, exceptions, from, to), mid) <==> SlotAtSeam(task, c, exceptions, from, mid, to)
  {
    hide Wanted, WithinSteps, InSeries, StartOn, Expansion, HasStart, Uncapped, WantedDays, Count, IsSkipped, SeedDay,
      LocalDay, Duration;
    var s := SeriesOf(task, c);
    ExpansionStarts(task, c, exceptions, from, to, mid);
    WantedAtSeam(s, exceptions, Duration(task), from, mid, to);
    if Wanted(s, Duration(task), exceptions, from, to, LocalDay(s.offset, mid)) {
      UncappedRank(task, c, exceptions, from, to, LocalDay(s.offset, mid));
    }
  }

  /**
   * Reads of `[a, b)` and `[b, c)` together return what the read of `[a, c)` returns,
   * save in one case: occurrences are points (end-less or of zero length) and a slot of
   * the rule, not skipped, starts exactly at the inner boundary.
   */
  lemma WindowsCover(task: Task, c: Config, exceptions: map<int, OccurrenceException>, from: int, mid: int, to: int)
    requires task.startAt.Some? && Duration(task).Or(0) >= 0
    requires from <= mid <= to && Uncapped(task, c, exceptions, from, to)
    ensures
      (forall o :: o in Expansion(task, c, exceptions, from, to) <==>
        o in Expansion(task, c, exceptions, from, mid) || o in Expansion(task, c, exceptions, mid, to))
      <==> !(Duration(task).Or(0) == 0 && SlotAtSeam(task, c, exceptions, from, mid, to))
  {
    hide Expansion, Uncapped, SlotAtSeam, HasStart;
    WindowsCoverUnlessRead(task, c, exceptions, from, mid, to);
    if Duration(task).Or(0) == 0 {
      SeamIsRead(task, c, exceptions, from, mid, to);
    }
  }

  lemma WindowsCoverUnlessRead(task: Task, c: Config, exceptions: map<int, OccurrenceException>, from: int, mid: int,
                               to: int)
    requires task.startAt.Some? && Duration(task).Or(0) >= 0
    requires from <= mid <= to && Uncapped(task, c, exceptions, from, to)
    ensures
      (forall o :: o in Expansion(task, c, exceptions, from, to) <==>
        o in Expansion(task, c, exceptions, from, mid) || o in Expansion(task, c, exceptions, mid, to))
      <==> !(Duration(task).Or(0) == 0 && HasStart(Expansion(task, c, exceptions, from, to), mid))
  {
    var s, length := SeriesOf(task, c), Duration(task);
    NarrowerIsUncapped(task, c, exceptions, from, to, from, mid);
    NarrowerIsUncapped(task, c, exceptions, from, to, mid, to);
    var whole, left, right :=
      Expansion(task, c, exceptions, from, to), Expansion(task, c, exceptions, from, mid),
        Expansion(task, c, exceptions, mid, to);
    var lost := length.Or(0) == 0 && HasStart(whole, mid);
    forall o ensures o in left || o in right ==> o in whole
      ensures o in whole && o.originalStart != Some(mid) ==> o in left || o in right
      ensures length.Or(0) > 0 ==> (o in whole ==> o in left || o in right)
    {
      OneWindowEntry(task, c, exceptions, from, mid, to, o);
    }
    if lost {
      var i :| 0 <= i < |whole| && whole[i].originalStart == Some(mid);
      BoundaryPointLost(task, c, exceptions, from, mid, to, whole[i]);
      assert whole[i] in whole;
    } else if length.Or(0) == 0 {
      forall o | o in whole ensures o.originalStart != Some(mid) {
        var i :| 0 <= i < |whole| && whole[i] == o;
      }
    }
  }

  lemma OneWindowEntry(task: Task, c: Config, exceptions: map<int, OccurrenceException>, from: int, mid: int, to: int,
                       o: Occurrence)
    requires task.startAt.Some? && Duration(task).Or(0) >= 0 && from <= mid <= to
    requires Uncapped(task, c, exceptions, from, to) && Uncapped(task, c, exceptions, from, mid)
    requires Uncapped(task, c, exceptions, mid, to)
    ensures
      var whole, left, right :=
        Expansion(task, c, exceptions, from, to), Expansion(task, c, exceptions, from, mid),
          Expansion(task, c, exceptions, mid, to);
      && (o in left || o in right ==> o in whole)
      && (o in whole && (o.originalStart != Some(mid) || Duration(task).Or(0) > 0) ==> o in left || o in right)
  {
    hide InSeries, WithinSteps, Expansion, Uncapped;
    UncappedMembers(task, c, exceptions, from, to, o);
    UncappedMembers(task, c, exceptions, from, mid, o);
    UncappedMembers(task, c, exceptions, mid, to, o);
    var s, length := SeriesOf(task, c), Duration(task);
    assert forall d :: Wanted(s, length, exceptions, from, mid, d) || Wanted(s, length, exceptions, mid, to, d) ==>
      Wanted(s, length, exceptions, from, to, d);
    assert forall d :: Wanted(s, length, exceptions, from, to, d) && (StartOn(s, d) != mid || length.Or(0) > 0) ==>
      Wanted(s, length, exceptions, from, mid, d) || Wanted(s, length, exceptions, mid, to, d);
  }

  lemma BoundaryPointLost(task: Task, c: Config, exceptions: map<int, OccurrenceException>, from: int, mid: int,
                          to: int, o: Occurrence)
    requires task.startAt.Some? && Duration(task).Or(0) == 0 && o.originalStart == Some(mid)
    requires Uncapped(task, c, exceptions, from, mid) && Uncapped(task, c, exceptions, mid, to)
    ensures o !in Expansion(task, c, exceptions, from, mid) && o !in Expansion(task, c, exceptions, mid, to)
  {
    hide InSeries, WithinSteps, Expansion, Uncapped;
    UncappedMembers(task, c, exceptions, from, mid, o);
    UncappedMembers(task, c, exceptions, mid, to, o);
  }

  /** No cap can shorten the read: few enough answers, and the window ends within the step backstop. */
  ghost predicate CapFree(task: Task, c: Config, exceptions: map<int, OccurrenceException>, from: int, to: int)
    requires task.startAt.Some?
  {
    && Uncapped(task, c, exceptions, from, to)
    && WithinSteps(c, SeedDay(SeriesOf(task, c)), LocalDay(task.offset, to))
  }

  lemma StepsGrow(c: Config, seed: int, a: int, b: int)
    requires a <= b
    ensures StepsTo(c, seed, a) <= StepsTo(c, seed, b)
  {
    hide PeriodOf, Interval;
    PeriodGrows(c.frequency, a, b);
    QuotientAtLeast(StepsTo(c, seed, a), Interval(c), PeriodOf(c.frequency, b) - PeriodOf(c.frequency, seed));
  }

  lemma StartsBeforeItsWindow(s: Series, d: int, to: int)
    requires StartOn(s, d) < to
    ensures d <= LocalDay(s.offset, to)
  {
  }

  /**
   * A cap-free read returns exactly the occurrences of the series that meet the window
   * and are not skipped; the engine's two caps leave no trace.
   */
  lemma CapFreeMembers(task: Task, c: Config, exceptions: map<int, OccurrenceException>, from: int, to: int,
                       o: Occurrence)
    requires task.startAt.Some? && CapFree(task, c, exceptions, from, to)
    ensures o in Expansion(task, c, exceptions, from, to) <==>
      exists t :: Member(SeriesOf(task, c), t) && MeetsWindow(Duration(task), t, from, to) && !IsSkipped(exceptions, t)
        && o == BuildOccurrence(task, exceptions, t)
  {
    UncappedMembers(task, c, exceptions, from, to, o);
    var s := SeriesOf(task, c);
    forall d | MeetsWindow(Duration(task), StartOn(s, d), from, to) ensures WithinSteps(c, SeedDay(s), d) {
      StartsBeforeItsWindow(s, d, to);
      StepsGrow(c, SeedDay(s), d, LocalDay(s.offset, to));
    }
    forall d ensures AtSeedTime(s, StartOn(s, d)) && LocalDay(s.offset, StartOn(s, d)) == d {
      StartOnDay(s, d);
    }
    hide InSeries, WithinSteps, StepsTo, StartOn, LocalDay, SeedDay, Expansion, Uncapped, BuildOccurrence, MeetsWindow,
      IsSkipped;
    if t :|
      && Member(s, t) && MeetsWindow(Duration(task), t, from, to) && !IsSkipped(exceptions, t)
      && o == BuildOccurrence(task, exceptions, t)
    {
      assert AtSeedTime(s, t);
      assert Wanted(s, Duration(task), exceptions, from, to, LocalDay(s.offset, t));
    }
  }

  // --- plain daily series, for concrete cases ------------------------------------------

  /** One of the first thousand slots of a plain daily series is listed by any window it meets. */
  lemma EarlyDailySlotListed(task: Task, exceptions: map<int, OccurrenceException>, from: int, to: int, k: nat)
    requires task.startAt.Some? && k < MAX_OCCURRENCES_PER_WINDOW
    requires MeetsWindow(Duration(task), task.startAt.value + k * MILLIS_PER_DAY, from, to)
    requires !IsSkipped(exceptions, task.startAt.value + k * MILLIS_PER_DAY)
    ensures BuildOccurrence(task, exceptions, task.startAt.value + k * MILLIS_PER_DAY)
      in Expansion(task, EVERY_DAY, exceptions, from, to)
  {
    hide InSeries, WithinSteps, StartOn, SeedDay, LocalDay, Member, Expansion, BuildOccurrence, MeetsWindow, IsSkipped,
      Count;
    var s := SeriesOf(task, EVERY_DAY);
    var d := SeedDay(s) + k;
    DailyMember(s, k);
    assert Wanted(s, Duration(task), exceptions, from, to, d);
    hide Wanted, WantedDays, Duration;
    CountAtMost(WantedDays(s, Duration(task), exceptions, from, to), SeedDay(s), d);
    WantedDayListed(task, EVERY_DAY, exceptions, from, to, d);
  }

  /** A daily reminder without an end: the one at the seam of two windows is in neither. */
  lemma SeamLosesReminder()
    ensures
      var reminder := Task(1, 1, None, "reminder", Some(0), None, 0, None, Some(EVERY_DAY), None, None, None, None);
      var o := BuildOccurrence(reminder, map[], MILLIS_PER_DAY);
      && o in Expansion(reminder, EVERY_DAY, map[], 1, 2 * MILLIS_PER_DAY)
      && o !in Expansion(reminder, EVERY_DAY, map[], 1, MILLIS_PER_DAY)
      && o !in Expansion(reminder, EVERY_DAY, map[], MILLIS_PER_DAY, 2 * MILLIS_PER_DAY)
  {
    var reminder := Task(1, 1, None, "reminder", Some(0), None, 0, None, Some(EVERY_DAY), None, None, None, None);
    var o := BuildOccurrence(reminder, map[], MILLIS_PER_DAY);
    EarlyDailySlotListed(reminder, map[], 1, 2 * MILLIS_PER_DAY, 1);
    assert o.originalStart == Some(MILLIS_PER_DAY);
    hide Expansion, BuildOccurrence;
    NoPointAtSeam(reminder, EVERY_DAY, map[], 1, MILLIS_PER_DAY, o);
    NoPointAtSeam(reminder, EVERY_DAY, map[], MILLIS_PER_DAY, 2 * MILLIS_PER_DAY, o);
  }

  /** A read never holds a point occurrence at either end of its window. */
  lemma NoPointAtSeam(task: Task, c: Config, exceptions: map<int, OccurrenceException>, from: int, to: int,
                      o: Occurrence)
    requires task.startAt.Some? && Duration(task).Or(0) == 0
    requires o.originalStart == Some(from) || o.originalStart == Some(to)
    ensures o !in Expansion(task, c, exceptions, from, to)
  {
    if o in Expansion(task, c, exceptions, from, to) {
      var i :| 0 <= i < |Expansion(task, c, exceptions, from, to)| && Expansion(task, c, exceptions, from, to)[i] == o;
      ExpansionEntries(task, c, exceptions, from, to, i);
      hide Expansion, InSeries, WithinSteps, StartOn;
    }
  }
}
