/** Splitting a series in two preserves every occurrence a reader sees. */
module SplitLaws {
  import opened Wrappers
  import opened Ranges
  import opened Division
  import opened RecurrenceRule
  import opened TaskRows
  import opened Series
  import opened SeriesLaws

  /** What a reader sees of an occurrence, whichever row it comes from. */
  datatype View = View(originalStart: Option<int>, start: Option<int>, end: Option<int>, title: string,
    completedAt: Option<int>)

  function ViewOf(o: Occurrence): View {
    View(o.originalStart, o.occurrenceStart, o.occurrenceEnd, o.title, o.completedAt)
  }

  function Views(os: seq<Occurrence>): (r: seq<View>)
    ensures |r| == |os|
  {
    seq(|os|, i requires 0 <= i < |os| => ViewOf(os[i]))
  }

  lemma StepsFromLater(c: Config, seed: int, cut: int, d: int)
    requires seed <= cut
    ensures StepsTo(c, cut, d) <= StepsTo(c, seed, d)
  {
    hide PeriodOf, Interval;
    PeriodGrows(c.frequency, seed, cut);
    QuotientAtLeast(StepsTo(c, cut, d), Interval(c), PeriodOf(c.frequency, d) - PeriodOf(c.frequency, seed));
  }

  /** The probe the split counts with: occurrences of the rule strictly before the boundary, up to the cap. */
  ghost function CountedBefore(task: Task, c: Config, cut: int): nat
    requires task.startAt.Some?
  {
    |Expansion(task, c, map[], task.startAt.value - 1, cut)|
  }

  lemma CountedBeforeIsRank(task: Task, c: Config, cut: int)
    requires task.startAt.Some? && Duration(task).Or(0) >= 0
    requires Member(SeriesOf(task, c), cut)
    requires WithinSteps(c, SeedDay(SeriesOf(task, c)), LocalDay(task.offset, cut))
    ensures
      var k := Rank(c, SeedDay(SeriesOf(task, c)), LocalDay(task.offset, cut));
      CountedBefore(task, c, cut) == if k <= MAX_OCCURRENCES_PER_WINDOW then k else MAX_OCCURRENCES_PER_WINDOW
  {
    var s := SeriesOf(task, c);
    var lo, day := SeedDay(s), LocalDay(s.offset, cut);
    var wanted := WantedDays(s, Duration(task), map[], task.startAt.value - 1, cut);
    forall x | lo <= x < day + 1 ensures wanted(x) <==> RuleDays(c, lo)(x) && x < day {
      StepsGrow(c, lo, x, day);
      TruncationKeepsThePast(c, lo, day, x);
      SameRule(c, EndedBefore(c, day), lo);
      StartOnOrder(s, x, day);
    }
    hide Wanted, OnRule, InSeries, WithinSteps, StartOn, LocalDay, SeedDay;
    CountAgrees(wanted, RuleDays(c, lo), lo, day);
  }

  /** The new anchor of a split without changes: the same series from `cut` on. */
  predicate ContinuesAt(successor: Task, task: Task, cut: int) {
    && task.startAt.Some? && successor.startAt == Some(cut)
    && Duration(successor) == Duration(task)
    && successor.offset == task.offset
    && successor.title == task.title
  }

  ghost predicate CopiedFrom(copy: map<int, OccurrenceException>, exceptions: map<int, OccurrenceException>, cut: int) {
    forall t :: cut <= t ==> (t in copy <==> t in exceptions) && (t in copy ==> copy[t] == exceptions[t])
  }

  lemma OldSideWants(s: Series, length: Option<int>, exceptions: map<int, OccurrenceException>, from: int, to: int,
                     cut: int, d: int)
    requires Member(s, cut)
    ensures Wanted(s.(config := EndedBefore(s.config, LocalDay(s.offset, cut))), length, exceptions, from, to, d)
      <==> Wanted(s, length, exceptions, from, to, d) && d < LocalDay(s.offset, cut)
  {
    hide InSeries, IsSkipped;
    TruncationKeepsThePast(s.config, SeedDay(s), LocalDay(s.offset, cut), d);
  }

  lemma NewSideWants(s: Series, length: Option<int>, exceptions: map<int, OccurrenceException>,
                     copy: map<int, OccurrenceException>,
                     from: int, to: int, cut: int, before: nat, d: int)
    requires Member(s, cut) && CopiedFrom(copy, exceptions, cut)
    requires before == Rank(s.config, SeedDay(s), LocalDay(s.offset, cut))
    requires WithinSteps(s.config, SeedDay(s), LocalDay(s.offset, to))
    ensures
      var s' := Series(cut, s.offset, ContinuedAfter(s.config, before));
      && StartOn(s', d) == StartOn(s, d)
      && SeedDay(s') == LocalDay(s.offset, cut)
      && (Wanted(s', length, copy, from, to, d)
          <==> Wanted(s, length, exceptions, from, to, d) && LocalDay(s.offset, cut) <= d)
  {
    var s' := Series(cut, s.offset, ContinuedAfter(s.config, before));
    var seed, day, last := SeedDay(s), LocalDay(s.offset, cut), LocalDay(s.offset, to);
    assert seed <= day;
    assert StartOn(s', d) == StartOn(s, d);
    assert StartOn(s, d) < to ==> d <= last;
    StartOnOrder(s, d, day);
    hide InSeries, StartOn, LocalDay;
    ContinuationIsTheTail(s.config, seed, day, before, d);
    assert StepsTo(s'.config, day, d) == StepsTo(s.config, day, d);
    StepsFromLater(s.config, seed, day, d);
    if d <= last {
      StepsGrow(s.config, seed, d, last);
    }
  }

  /** Reads that list the same days at the same instants with the same exceptions show the same occurrences. */
  lemma SameViews(a: Task, sa: Series, ea: map<int, OccurrenceException>, b: Task, sb: Series,
                  eb: map<int, OccurrenceException>, days: seq<int>)
    requires Duration(a) == Duration(b) && a.title == b.title
    requires forall i :: 0 <= i < |days| ==>
      && StartOn(sa, days[i]) == StartOn(sb, days[i])
      && (StartOn(sa, days[i]) in ea <==> StartOn(sa, days[i]) in eb)
      && (StartOn(sa, days[i]) in ea ==> ea[StartOn(sa, days[i])] == eb[StartOn(sa, days[i])])
    ensures Views(BuildAll(a, sa, ea, days)) == Views(BuildAll(b, sb, eb, days))
  {
    hide StartOn;
  }

  lemma ViewsJoin(task: Task, s: Series, exceptions: map<int, OccurrenceException>, p: seq<int>, q: seq<int>)
    ensures Views(BuildAll(task, s, exceptions, p + q))
      == Views(BuildAll(task, s, exceptions, p)) + Views(BuildAll(task, s, exceptions, q))
  {
    hide StartOn, BuildOccurrence;
  }

  lemma UncappedExpansion(task: Task, c: Config, exceptions: map<int, OccurrenceException>, from: int, to: int,
                          days: seq<int>)
    requires task.startAt.Some? && |days| <= MAX_OCCURRENCES_PER_WINDOW
    requires days == AnswerDays(SeriesOf(task, c), Duration(task), exceptions, from, to)
    ensures Expansion(task, c, exceptions, from, to) == BuildAll(task, SeriesOf(task, c), exceptions, days)
  {
    hide BuildAll, AnswerDays, SeriesOf, Duration;
  }

  /** The days asked of the whole series are those asked of its old side, then those of its new side. */
  lemma SplitAnswers(s: Series, length: Option<int>, exceptions: map<int, OccurrenceException>,
                     copy: map<int, OccurrenceException>,
                     cut: int, before: nat, from: int, to: int)
    requires Member(s, cut) && CopiedFrom(copy, exceptions, cut)
    requires before == Rank(s.config, SeedDay(s), LocalDay(s.offset, cut))
    requires WithinSteps(s.config, SeedDay(s), LocalDay(s.offset, to))
    ensures
      var oldSide := s.(config := EndedBefore(s.config, LocalDay(s.offset, cut)));
      var newSide := Series(cut, s.offset, ContinuedAfter(s.config, before));
      var q := AnswerDays(newSide, length, copy, from, to);
      && AnswerDays(s, length, exceptions, from, to) == AnswerDays(oldSide, length, exceptions, from, to) + q
      && forall i :: 0 <= i < |q| ==> cut <= StartOn(s, q[i]) == StartOn(newSide, q[i])
  {
    var oldSide := s.(config := EndedBefore(s.config, LocalDay(s.offset, cut)));
    var newSide := Series(cut, s.offset, ContinuedAfter(s.config, before));
    var lo, day, hi := SeedDay(s), LocalDay(s.offset, cut), LocalDay(s.offset, to) + 1;
    var all := WantedDays(s, length, exceptions, from, to);
    var early, late := WantedDays(oldSide, length, exceptions, from, to), WantedDays(newSide, length, copy, from, to);
    hide Member, Wanted, StartOn, LocalDay, List, Rank, WithinSteps, CopiedFrom, EndedBefore, ContinuedAfter;
    MemberDay(s, cut);
    forall d ensures early(d) <==> all(d) && d < day {
      OldSideWants(s, length, exceptions, from, to, cut, d);
    }
    forall d ensures late(d) <==> all(d) && day <= d ensures StartOn(newSide, d) == StartOn(s, d) {
      NewSideWants(s, length, exceptions, copy, from, to, cut, before, d);
    }
    SplitLists(all, early, late, lo, day, hi);
    var q := List(late, day, hi);
    assert SeedDay(newSide) == day by {
      NewSideWants(s, length, exceptions, copy, from, to, cut, before, 0);
    }
    forall i | 0 <= i < |q| ensures cut <= StartOn(s, q[i]) == StartOn(newSide, q[i]) {
      RankIsIndex(late, day, hi, i);
      StartOnOrder(s, q[i], day);
    }
  }

  lemma MemberDay(s: Series, t: int)
    requires Member(s, t)
    ensures StartOn(s, LocalDay(s.offset, t)) == t && SeedDay(s) <= LocalDay(s.offset, t)
  {
  }

  /**
   * Splitting preserves meaning: at any member after the anchor, every cap-free
   * window shows the same occurrences - starts, ends, titles, completions, in order -
   * from the truncated series followed by the new one as from the original.
   */
  lemma SplitPreservesViews(task: Task, c: Config, exceptions: map<int, OccurrenceException>,
                            successor: Task, copy: map<int, OccurrenceException>, cut: int, before: nat, from: int,
                            to: int)
    requires ContinuesAt(successor, task, cut) && CopiedFrom(copy, exceptions, cut)
    requires Member(SeriesOf(task, c), cut)
    requires before == Rank(c, SeedDay(SeriesOf(task, c)), LocalDay(task.offset, cut))
    requires CapFree(task, c, exceptions, from, to)
    ensures Views(Expansion(task, c, exceptions, from, to)) ==
      Views(Expansion(task, EndedBefore(c, LocalDay(task.offset, cut)), exceptions, from, to))
      + Views(Expansion(successor, ContinuedAfter(c, before), copy, from, to))
  {
    var day := LocalDay(task.offset, cut);
    var s, length := SeriesOf(task, c), Duration(task);
    var oldSide, newSide := SeriesOf(task, EndedBefore(c, day)), SeriesOf(successor, ContinuedAfter(c, before));
    hide Member, WithinSteps, StartOn, LocalDay, BuildAll, AnswerDays, Expansion, Rank, EndedBefore, ContinuedAfter,
      Duration, Views;
    SplitAnswers(s, length, exceptions, copy, cut, before, from, to);
    var p := AnswerDays(oldSide, length, exceptions, from, to);
    var q := AnswerDays(newSide, length, copy, from, to);
    UncappedExpansion(task, c, exceptions, from, to, p + q);
    UncappedExpansion(task, EndedBefore(c, day), exceptions, from, to, p);
    UncappedExpansion(successor, ContinuedAfter(c, before), copy, from, to, q);
    ViewsJoin(task, s, exceptions, p, q);
    SameSeed(s, oldSide);
    SameViews(task, s, exceptions, task, oldSide, exceptions, p);
    SameViews(task, s, exceptions, successor, newSide, copy, q);
  }

  lemma SameSeed(a: Series, b: Series)
    requires a.startAt == b.startAt && a.offset == b.offset
    ensures forall d :: StartOn(a, d) == StartOn(b, d)
  {
  }

  lemma SplitLists(all: int -> bool, early: int -> bool, late: int -> bool, lo: int, cut: int, hi: int)
    requires lo <= cut
    requires forall d :: early(d) <==> all(d) && d < cut
    requires forall d :: late(d) <==> all(d) && cut <= d
    ensures List(all, lo, hi) == List(early, lo, hi) + List(late, cut, hi)
  {
    hide List, Count;
    if hi <= cut {
      CountAgrees(all, early, lo, hi);
      NoneInRange(late, cut, hi);
    } else {
      ListSplits(all, lo, cut, hi);
      ListSplits(early, lo, cut, hi);
      CountAgrees(all, early, lo, cut);
      NoneInRange(early, cut, hi);
      CountAgrees(all, late, cut, hi);
    }
  }

  ghost function SeriesDays(c: Config, seed: int): int -> bool {
    (d: int) => InSeries(c, seed, d)
  }

  /** The new side's rule as the split computes it. */
  ghost function SplitConfig(task: Task, c: Config, cut: int): Config
    requires task.startAt.Some?
  {
    ContinuedAfter(c, CountedBefore(task, c, cut))
  }

  predicate IsCounted(c: Config) {
    c.endType == AfterCount && c.count.Some?
  }

  function Min(a: int, b: int): int {
    if a < b then a else b
  }

  /** A counted rule generates its count, or as many days as there are. */
  lemma {:induction false} CountedDays(c: Config, seed: int, hi: int)
    requires IsCounted(c) && c.count.value >= 0
    ensures Count(SeriesDays(c, seed), seed, hi) == Min(c.count.value, Count(RuleDays(c, seed), seed, hi))
    decreases hi - seed
  {
    hide OnRule;
    if seed < hi {
      CountedDays(c, seed, hi - 1);
    }
  }

  /** The new side of a split that counted `before` of the `k` earlier days: how many days it generates. */
  lemma NewSideCount(c: Config, seed: int, day: int, before: nat, hi: int)
    requires InSeries(c, seed, day) && before <= Rank(c, seed, day) && IsCounted(c) && day <= hi
    ensures Count(SeriesDays(ContinuedAfter(c, before), day), day, hi)
      == Min(c.count.value - before, Count(RuleDays(c, seed), day, hi))
  {
    var c' := ContinuedAfter(c, before);
    CountedDays(c', day, hi);
    forall x | day <= x < hi ensures RuleDays(c', day)(x) == RuleDays(c, seed)(x) {
      RestartYieldsTail(c, seed, day, x);
      SameRule(c, c', day);
    }
    hide OnRule;
    CountAgrees(RuleDays(c', day), RuleDays(c, seed), day, hi);
  }

  /**
   * COUNT conservation: a rule of `n` split at its `k`-th occurrence leaves exactly `k`
   * days on the old side, and on the new side `n - k` (or as many as there are) while
   * the split can count the earlier ones; past the cap only 1000 of them are taken off.
   */
  lemma SplitConservesCount(task: Task, c: Config, cut: int)
    requires task.startAt.Some? && Duration(task).Or(0) >= 0
    requires Member(SeriesOf(task, c), cut)
    requires WithinSteps(c, SeedDay(SeriesOf(task, c)), LocalDay(task.offset, cut))
    requires IsCounted(c)
    ensures
      var seed, day := SeedDay(SeriesOf(task, c)), LocalDay(task.offset, cut);
      var k := Rank(c, seed, day);
      && (forall hi :: day <= hi ==> Count(SeriesDays(EndedBefore(c, day), seed), seed, hi) == k)
      && (forall hi :: day <= hi ==>
           Count(SeriesDays(SplitConfig(task, c, cut), day), day, hi)
           == Min(c.count.value - Min(k, MAX_OCCURRENCES_PER_WINDOW), Count(RuleDays(c, seed), day, hi)))
      && (k + SplitConfig(task, c, cut).count.value == c.count.value <==> k <= MAX_OCCURRENCES_PER_WINDOW)
  {
    var seed, day := SeedDay(SeriesOf(task, c)), LocalDay(task.offset, cut);
    CountedBeforeIsRank(task, c, cut);
    assert seed <= day && InSeries(c, seed, day);
    hide WithinSteps, Expansion;
    forall hi | day <= hi ensures Count(SeriesDays(EndedBefore(c, day), seed), seed, hi) == Rank(c, seed, day) {
      OldSideCount(c, seed, day, hi);
    }
    forall hi | day <= hi
      ensures Count(SeriesDays(SplitConfig(task, c, cut), day), day, hi)
        == Min(c.count.value - Min(Rank(c, seed, day), MAX_OCCURRENCES_PER_WINDOW), Count(RuleDays(c, seed), day, hi))
    {
      NewSideCount(c, seed, day, CountedBefore(task, c, cut), hi);
    }
  }

  lemma OldSideCount(c: Config, seed: int, day: int, hi: int)
    requires InSeries(c, seed, day) && day <= hi
    ensures Count(SeriesDays(EndedBefore(c, day), seed), seed, hi) == Rank(c, seed, day)
  {
    var early := SeriesDays(EndedBefore(c, day), seed);
    forall d ensures early(d) <==> RuleDays(c, seed)(d) && d < day {
      TruncationKeepsThePast(c, seed, day, d);
      SameRule(c, EndedBefore(c, day), seed);
    }
    assert seed <= day;
    hide InSeries, OnRule;
    NoneAfter(early, seed, day, hi);
    CountAgrees(early, RuleDays(c, seed), seed, day);
  }

  /** The days of the two sides of a split are, one after the other, those of the original. */
  ghost predicate Concatenate(c: Config, seed: int, day: int, oldSide: Config, newSide: Config) {
    forall hi :: List(SeriesDays(c, seed), seed, hi)
      == List(SeriesDays(oldSide, seed), seed, hi) + List(SeriesDays(newSide, day), day, hi)
  }

  lemma SidesConcatenate(c: Config, seed: int, day: int, newSide: Config)
    requires InSeries(c, seed, day)
    requires forall d :: InSeries(newSide, day, d) <==> InSeries(c, seed, d) && day <= d
    ensures Concatenate(c, seed, day, EndedBefore(c, day), newSide)
  {
    var all, early, late := SeriesDays(c, seed), SeriesDays(EndedBefore(c, day), seed), SeriesDays(newSide, day);
    assert seed <= day;
    hide InSeries, EndedBefore;
    forall d ensures early(d) <==> all(d) && d < day {
      TruncationKeepsThePast(c, seed, day, d);
    }
    forall hi ensures List(all, seed, hi) == List(early, seed, hi) + List(late, day, hi) {
      SplitLists(all, early, late, seed, day, hi);
    }
  }

  lemma SurplusBreaks(c: Config, seed: int, day: int, oldSide: Config, newSide: Config, d: int)
    requires seed <= day <= d && InSeries(newSide, day, d) && !InSeries(c, seed, d)
    ensures !Concatenate(c, seed, day, oldSide, newSide)
  {
    var late, all := SeriesDays(newSide, day), SeriesDays(c, seed);
    hide InSeries;
    ListMembers(all, seed, d + 1);
    ListMembers(late, day, d + 1);
    assert d in List(late, day, d + 1) && d !in List(all, seed, d + 1);
  }

  /** The `n`-th day of a rule, if the rule generates a day of rank `n` or more. */
  lemma DayOfRank(c: Config, seed: int, d: int, n: nat) returns (x: int)
    requires OnRule(c, seed, d) && n <= Rank(c, seed, d)
    ensures OnRule(c, seed, x) && Rank(c, seed, x) == n
  {
    assert seed <= d;
    hide OnRule;
    if n == Rank(c, seed, d) {
      return d;
    }
    RankIsIndex(RuleDays(c, seed), seed, d, n);
    x := List(RuleDays(c, seed), seed, d)[n];
  }

  /** A later rank is a later day. */
  lemma RankOrders(c: Config, seed: int, a: int, b: int)
    requires Rank(c, seed, a) < Rank(c, seed, b)
    ensures a < b
  {
    hide OnRule;
    if seed <= b <= a {
      CountGrows(RuleDays(c, seed), seed, b, a);
    }
  }

  /**
   * The days of the two sides of a split concatenate to the original's, in every
   * stretch, exactly when the rule is uncounted, or the split could count all earlier
   * occurrences, or the rule has no day after its `n`-th that the surplus could add.
   */
  lemma SplitConcatenates(task: Task, c: Config, cut: int)
    requires task.startAt.Some? && Duration(task).Or(0) >= 0
    requires Member(SeriesOf(task, c), cut)
    requires WithinSteps(c, SeedDay(SeriesOf(task, c)), LocalDay(task.offset, cut))
    ensures
      var seed, day := SeedDay(SeriesOf(task, c)), LocalDay(task.offset, cut);
      Concatenate(c, seed, day, EndedBefore(c, day), SplitConfig(task, c, cut))
      <==> !IsCounted(c) || Rank(c, seed, day) <= MAX_OCCURRENCES_PER_WINDOW
           || forall d :: OnRule(c, seed, d) ==> Rank(c, seed, d) < c.count.value
  {
    var seed, day := SeedDay(SeriesOf(task, c)), LocalDay(task.offset, cut);
    CountedBeforeIsRank(task, c, cut);
    assert seed <= day && InSeries(c, seed, day);
    hide WithinSteps, Expansion, LocalDay, SeedDay, Concatenate;
    ConcatenatesIf(c, seed, day, CountedBefore(task, c, cut));
  }

  lemma ConcatenatesIf(c: Config, seed: int, day: int, before: nat)
    requires InSeries(c, seed, day) && before <= Rank(c, seed, day)
    ensures Concatenate(c, seed, day, EndedBefore(c, day), ContinuedAfter(c, before))
      <==> !IsCounted(c) || Rank(c, seed, day) <= before || forall d :: OnRule(c, seed, d) ==>
        Rank(c, seed, d) < c.count.value
  {
    var c' := ContinuedAfter(c, before);
    assert seed <= day;
    hide OnRule, Rank, Concatenate;
    forall d ensures InSeries(c', day, d) <==>
      && day <= d && OnRule(c, seed, d) && WithinUntil(c, d)
      && (IsCounted(c) ==> Rank(c, seed, d) < c.count.value + (Rank(c, seed, day) - before))
    {
      ContinuationIsTheTail(c, seed, day, before, d);
    }
    if !IsCounted(c) || Rank(c, seed, day) <= before || forall d :: OnRule(c, seed, d) ==>
      Rank(c, seed, d) < c.count.value {
      SidesConcatenate(c, seed, day, c');
    } else {
      var late :| OnRule(c, seed, late) && Rank(c, seed, late) >= c.count.value;
      var d := DayOfRank(c, seed, late, c.count.value);
      RankOrders(c, seed, day, d);
      SurplusBreaks(c, seed, day, EndedBefore(c, day), c', d);
    }
  }

  lemma DailySlot(s: Series, k: nat)
    requires s.config == EVERY_DAY.(endType := AfterCount, count := s.config.count)
    requires k < MAX_GENERATION_STEPS && InSeries(s.config, SeedDay(s), SeedDay(s) + k)
    ensures
      var t := s.startAt + k * MILLIS_PER_DAY;
      Member(s, t) && LocalDay(s.offset, t) == SeedDay(s) + k && WithinSteps(s.config, SeedDay(s), SeedDay(s) + k)
  {
    hide InSeries;
    StartOnDay(s, SeedDay(s) + k);
    assert StepsTo(s.config, SeedDay(s), SeedDay(s) + k) == k;
  }

  lemma DailyCounts(c: Config, seed: int, k: nat, n: nat)
    requires c == EVERY_DAY.(endType := AfterCount, count := Some(n)) && k < n
    ensures InSeries(c, seed, seed + k) && Rank(c, seed, seed + k) == k
    ensures Count(SeriesDays(c, seed), seed, seed + k + n) == n
    ensures Count(RuleDays(c, seed), seed + k, seed + k + n) == n
  {
    DailyOnRule(c, seed, seed + k);
    DailyOnRule(c, seed, seed + k + n);
    assert InSeries(c, seed, seed + k);
    hide OnRule, InSeries, SeriesDays, Count;
    CountedDays(c, seed, seed + k + n);
    CountSplits(RuleDays(c, seed), seed, seed + k, seed + k + n);
  }

  /**
   * A plain daily rule of `n`, split at its `k`-th day beyond the first thousand: the
   * new side goes on for `n - 1000` days, so the two sides have `k - 1000` too many.
   */
  lemma LateSplitGains(task: Task, n: nat, k: nat)
    requires task.startAt.Some? && Duration(task).Or(0) >= 0
    requires MAX_OCCURRENCES_PER_WINDOW < k < n && k < MAX_GENERATION_STEPS
    ensures
      var c := EVERY_DAY.(endType := AfterCount, count := Some(n));
      var seed, cut := SeedDay(SeriesOf(task, c)), task.startAt.value + k * MILLIS_PER_DAY;
      && Member(SeriesOf(task, c), cut)
      && Count(SeriesDays(c, seed), seed, seed + k + n) == n
      && Count(SeriesDays(EndedBefore(c, seed + k), seed), seed, seed + k + n) == k
      && Count(SeriesDays(SplitConfig(task, c, cut), seed + k), seed + k, seed + k + n)
        == n - MAX_OCCURRENCES_PER_WINDOW > n - k
  {
    hide Member, WithinSteps, LocalDay, SeedDay, InSeries, SplitConfig, EndedBefore, Count, Rank, SeriesDays, RuleDays;
    var c := EVERY_DAY.(endType := AfterCount, count := Some(n));
    DailyCounts(c, SeedDay(SeriesOf(task, c)), k, n);
    DailySlot(SeriesOf(task, c), k);
    SplitConservesCount(task, c, task.startAt.value + k * MILLIS_PER_DAY);
  }
}
