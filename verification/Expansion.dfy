/**
 * The period-stepping engine. It walks the periods of a rule from the seed,
 * produces each period's candidates and applies COUNT, UNTIL, the window and the
 * skip rows under two caps; it is proved to return exactly the declarative answer.
 */
module Expansion {
  import opened Wrappers
  import opened Ranges
  import opened Division
  import opened CivilCalendar
  import opened RecurrenceRule
  import opened Candidates
  import opened TaskRows
  import opened Series

  /** Advances a period cursor by one `frequency x interval` step; the day of the month may be clamped. */
  function StepPeriod(cursor: int, c: Config): (next: int)
    ensures next > cursor
    ensures PeriodOf(c.frequency, next) == PeriodOf(c.frequency, cursor) + Interval(c)
    ensures c.frequency == Weekly ==> Weekday(next) == Weekday(cursor)
  {
    match c.frequency
    case Daily => cursor + Interval(c)
    case Weekly => cursor + 7 * Interval(c)
    case Monthly =>
      var next := PlusMonths(cursor, Interval(c));
      LaterMonthIsLater(cursor, next);
      next
    case Yearly =>
      var next := PlusMonths(cursor, 12 * Interval(c));
      LaterMonthIsLater(cursor, next);
      next
  }

  lemma LaterMonthIsLater(a: int, b: int)
    requires MonthOf(a) < MonthOf(b)
    ensures a < b
  {
    MonthStartGrows(MonthOf(a) + 1, MonthOf(b));
  }

  /** The inclusive UNTIL boundary: the last millisecond of the local end day. */
  function UntilBoundaryMillis(c: Config, offset: int): (r: Option<int>)
    ensures r.Some? <==> c.endType == UntilDate && c.endDate.Some?
    ensures r.Some? ==> forall t :: t <= r.value <==> LocalDay(offset, t) <= c.endDate.value
  {
    if c.endType != UntilDate || c.endDate.None? then None
    else Some((c.endDate.value + 1) * MILLIS_PER_DAY - 1 - offset)
  }

  /** The first day of period `p`. */
  function PeriodStart(f: Frequency, p: int): int {
    match f
    case Daily => p
    case Weekly => 7 * p - 5
    case Monthly => MonthStart(p)
    case Yearly => MonthStart(12 * p)
  }

  lemma BeforePeriod(f: Frequency, p: int, d: int)
    ensures PeriodOf(f, d) < p <==> d < PeriodStart(f, p)
  {
    hide MonthOf, MonthStart;
    var m := if f == Yearly then 12 * p else p;
    if MonthOf(d) < m {
      MonthStartGrows(MonthOf(d) + 1, m);
    } else {
      MonthStartGrows(m, MonthOf(d));
    }
  }

  /** What the engine has produced once every day before `b` is dealt with. */
  ghost predicate Progress(task: Task, s: Series, exceptions: map<int, OccurrenceException>, from: int, to: int,
                           b: int, generated: int, occurrences: seq<Occurrence>)
  {
    && generated == Count(RuleDays(s.config, SeedDay(s)), SeedDay(s), b)
    && occurrences == BuildAll(task, s, exceptions,
      List(WantedDays(s, Duration(task), exceptions, from, to), SeedDay(s), b))
  }

  lemma SkipIdleDays(task: Task, s: Series, exceptions: map<int, OccurrenceException>, from: int, to: int,
                     b: int, c: int, generated: int, occurrences: seq<Occurrence>)
    requires Progress(task, s, exceptions, from, to, b, generated, occurrences)
    requires b <= c && forall x :: b <= x < c ==> !OnRule(s.config, SeedDay(s), x)
    ensures Progress(task, s, exceptions, from, to, c, generated, occurrences)
  {
    hide OnRule, BuildAll;
    var rule, wanted := RuleDays(s.config, SeedDay(s)), WantedDays(s, Duration(task), exceptions, from, to);
    var lo := SeedDay(s);
    NoneBeyond(rule, lo, b, c);
    NoneBeyond(wanted, lo, b, c);
  }

  lemma PassDay(task: Task, s: Series, exceptions: map<int, OccurrenceException>, from: int, to: int,
                c: int, generated: int, occurrences: seq<Occurrence>)
    requires Progress(task, s, exceptions, from, to, c, generated, occurrences)
    requires OnRule(s.config, SeedDay(s), c)
    ensures Progress(task, s, exceptions, from, to, c + 1, generated + 1,
              if Wanted(s, Duration(task), exceptions, from, to, c)
              then occurrences + [BuildOccurrence(task, exceptions, StartOn(s, c))]
              else occurrences)
  {
    hide BuildOccurrence, StartOn, Wanted;
    assert OnRule(s.config, SeedDay(s), c) ==> SeedDay(s) <= c;
    hide OnRule;
  }

  /** Once no later day is wanted, what has been produced is the whole answer. */
  lemma NothingLeft(task: Task, s: Series, exceptions: map<int, OccurrenceException>, from: int, to: int,
                    b: int, generated: int, occurrences: seq<Occurrence>)
    requires task.startAt.Some? && s == SeriesOf(task, s.config)
    requires Progress(task, s, exceptions, from, to, b, generated, occurrences)
    requires |occurrences| <= MAX_OCCURRENCES_PER_WINDOW
    requires forall x :: b <= x ==> !Wanted(s, Duration(task), exceptions, from, to, x)
    ensures occurrences == Expansion(task, s.config, exceptions, from, to)
  {
    var wanted, lo, hi := WantedDays(s, Duration(task), exceptions, from, to), SeedDay(s), LocalDay(s.offset, to) + 1;
    forall x | hi <= x ensures !wanted(x) {
      assert StartOn(s, x) >= to;
    }
    hide Wanted, Count, List, BuildAll;
    if b <= hi {
      NoneBeyond(wanted, lo, b, hi);
    } else {
      NoneBeyond(wanted, lo, hi, b);
    }
  }

  /** A result that has reached the cap is the answer cut at the cap. */
  lemma CapReached(task: Task, s: Series, exceptions: map<int, OccurrenceException>, from: int, to: int,
                   b: int, generated: int, occurrences: seq<Occurrence>)
    requires task.startAt.Some? && s == SeriesOf(task, s.config)
    requires Progress(task, s, exceptions, from, to, b, generated, occurrences)
    requires |occurrences| == MAX_OCCURRENCES_PER_WINDOW
    requires SeedDay(s) <= b <= LocalDay(s.offset, to) + 1
    ensures occurrences == Expansion(task, s.config, exceptions, from, to)
  {
    var wanted, lo, hi := WantedDays(s, Duration(task), exceptions, from, to), SeedDay(s), LocalDay(s.offset, to) + 1;
    ListSplits(wanted, lo, b, hi);
    hide WantedDays, BuildOccurrence, BuildAll, StartOn, SeedDay, LocalDay, List, Count;
    assert FirstN(List(wanted, lo, hi), MAX_OCCURRENCES_PER_WINDOW) == List(wanted, lo, b);
  }

  /** The idle stretch between a dealt-with day and the next candidate of the same period. */
  lemma IdleBeforeCandidate(s: Series, p: int, b: int, candidates: seq<int>, i: nat)
    requires i < |candidates| && Increasing(candidates)
    requires forall d :: d in candidates <==>
      SeedDay(s) <= d && PeriodOf(s.config.frequency, d) == p
      && Selected(s.config, SeedDay(s), d) && PassesLimitFilters(s.config, d)
    requires PeriodStart(s.config.frequency, p) <= b && forall j :: 0 <= j < i ==> candidates[j] < b
    ensures forall x :: b <= x < candidates[i] ==> !OnRule(s.config, SeedDay(s), x)
  {
    hide PeriodOf, Selected, PassesLimitFilters, PeriodStart;
    forall x | b <= x < candidates[i] ensures !OnRule(s.config, SeedDay(s), x) {
      assert candidates[i] in candidates;
      BeforePeriod(s.config.frequency, p, x);
      PeriodGrows(s.config.frequency, x, candidates[i]);
      assert forall j :: i <= j < |candidates| ==> x < candidates[j];
      assert x !in candidates;
    }
  }

  /** After the last candidate of an active period nothing is generated until the next active one. */
  lemma IdleUntilNextPeriod(s: Series, steps: nat, p: int, b: int, candidates: seq<int>)
    requires p == PeriodOf(s.config.frequency, SeedDay(s)) + steps * Interval(s.config)
    requires forall d :: d in candidates <==>
      SeedDay(s) <= d && PeriodOf(s.config.frequency, d) == p
      && Selected(s.config, SeedDay(s), d) && PassesLimitFilters(s.config, d)
    requires PeriodStart(s.config.frequency, p) <= b && forall j :: 0 <= j < |candidates| ==> candidates[j] < b
    ensures forall x :: b <= x < PeriodStart(s.config.frequency, p + Interval(s.config)) ==>
      !OnRule(s.config, SeedDay(s), x)
  {
    hide PeriodOf, Selected, PassesLimitFilters, PeriodStart, Interval;
    var f, n := s.config.frequency, Interval(s.config);
    forall x | b <= x < PeriodStart(f, p + n) ensures !OnRule(s.config, SeedDay(s), x) {
      BeforePeriod(f, p, x);
      BeforePeriod(f, p + n, x);
      var delta := PeriodOf(f, x) - PeriodOf(f, SeedDay(s));
      if PeriodOf(f, x) != p {
        DivisionIsUnique(delta, n, steps, delta - steps * n);
      }
    }
  }

  lemma CandidateIsOnRule(s: Series, steps: nat, p: int, d: int)
    requires p == PeriodOf(s.config.frequency, SeedDay(s)) + steps * Interval(s.config)
    requires SeedDay(s) <= d && PeriodOf(s.config.frequency, d) == p
    requires Selected(s.config, SeedDay(s), d) && PassesLimitFilters(s.config, d)
    ensures OnRule(s.config, SeedDay(s), d)
    ensures StepsTo(s.config, SeedDay(s), d) == steps
  {
    hide PeriodOf, Selected, PassesLimitFilters, Interval;
    DivisionIsUnique(steps * Interval(s.config), Interval(s.config), steps, 0);
  }

  lemma CandidateWithinSteps(s: Series, steps: nat, d: int)
    requires StepsTo(s.config, SeedDay(s), d) == steps < MAX_GENERATION_STEPS
    ensures WithinSteps(s.config, SeedDay(s), d)
  {
  }

  lemma LastDayBeforeNextPeriod(s: Series, p: int, b: int, candidates: seq<int>)
    requires forall d :: d in candidates ==> PeriodOf(s.config.frequency, d) == p
    requires b == PeriodStart(s.config.frequency, p) || exists d :: d in candidates && b == d + 1
    ensures b <= PeriodStart(s.config.frequency, p + Interval(s.config))
  {
    hide PeriodOf, PeriodStart, Interval;
    var f, n := s.config.frequency, Interval(s.config);
    if exists d :: d in candidates && b == d + 1 {
      var d :| d in candidates && b == d + 1;
      BeforePeriod(f, p + n, d);
    } else {
      BeforePeriod(f, p, b - 1);
      BeforePeriod(f, p + n, b - 1);
    }
  }

  /** The cursor after `steps` steps: in the right period, whatever clamping did to its day. */
  predicate OnStep(cursor: int, seed: int, c: Config, steps: int) {
    && PeriodOf(c.frequency, cursor) == PeriodOf(c.frequency, seed) + steps * Interval(c)
    && CursorOnPhase(cursor, seed, c)
  }

  lemma StepKeepsPhase(cursor: int, seed: int, c: Config, steps: nat)
    requires OnStep(cursor, seed, c, steps)
    ensures OnStep(StepPeriod(cursor, c), seed, c, steps + 1)
  {
    hide PeriodOf, Interval, StepPeriod;
    assert (steps + 1) * Interval(c) == steps * Interval(c) + Interval(c);
  }

  lemma StartUp(task: Task, s: Series, exceptions: map<int, OccurrenceException>, from: int, to: int)
    ensures Progress(task, s, exceptions, from, to,
              PeriodStart(s.config.frequency, PeriodOf(s.config.frequency, SeedDay(s))), 0, [])
  {
    hide PeriodOf, PeriodStart, WantedDays, RuleDays;
    BeforePeriod(s.config.frequency, PeriodOf(s.config.frequency, SeedDay(s)), SeedDay(s));
  }

  /** Once a day breaks the window's end, UNTIL or COUNT, so does every later one. */
  lemma LaterDaysUnwanted(s: Series, length: Option<int>, exceptions: map<int, OccurrenceException>, from: int, to: int,
                          c: int)
    requires SeedDay(s) <= c
    requires !WithinUntil(s.config, c) || !WithinCount(s.config, SeedDay(s), c) || StartOn(s, c) >= to
    ensures forall x :: c <= x ==> !Wanted(s, length, exceptions, from, to, x)
  {
    hide OnRule, IsSkipped, WithinSteps;
    forall x | c <= x ensures !Wanted(s, length, exceptions, from, to, x) {
      CountGrows(RuleDays(s.config, SeedDay(s)), SeedDay(s), c, x);
      assert StartOn(s, c) <= StartOn(s, x);
    }
  }

  /**
   * Runs one candidate: `done` when UNTIL, COUNT, the window's end or the cap stops
   * the engine, and the result is then final.
   */
  method TakeCandidate(task: Task, c: Config, exceptions: map<int, OccurrenceException>, from: int, to: int,
                       until: Option<int>, candidate: int, generated: int, occurrences: seq<Occurrence>)
    returns (generated': int, occurrences': seq<Occurrence>, done: bool)
    requires task.startAt.Some?
    requires until == UntilBoundaryMillis(c, task.offset)
    requires OnRule(c, SeedDay(SeriesOf(task, c)), candidate) && WithinSteps(c, SeedDay(SeriesOf(task, c)), candidate)
    requires Progress(task, SeriesOf(task, c), exceptions, from, to, candidate, generated, occurrences)
    requires |occurrences| < MAX_OCCURRENCES_PER_WINDOW
    ensures done ==> occurrences' == Expansion(task, c, exceptions, from, to)
    ensures !done ==>
      && Progress(task, SeriesOf(task, c), exceptions, from, to, candidate + 1, generated', occurrences')
      && |occurrences'| < MAX_OCCURRENCES_PER_WINDOW
  {
    generated', occurrences', done := generated, occurrences, true;
    var s := SeriesOf(task, c);
    var length := Duration(task);
    var candidateMillis := StartOn(s, candidate);
    StartOnDay(s, candidate);
    assert SeedDay(s) <= candidate;
    assert generated == Rank(c, SeedDay(s), candidate);
    if until.Some? && candidateMillis > until.value {
      LaterDaysUnwanted(s, length, exceptions, from, to, candidate);
      NothingLeft(task, s, exceptions, from, to, candidate, generated, occurrences);
      return;
    }
    assert WithinUntil(c, candidate);
    hide WithinUntil, OnRule, WithinSteps, Expansion, BuildOccurrence, Progress, UntilBoundaryMillis, Rank;
    if c.endType == AfterCount && c.count.Some? && generated >= c.count.value {
      LaterDaysUnwanted(s, length, exceptions, from, to, candidate);
      NothingLeft(task, s, exceptions, from, to, candidate, generated, occurrences);
      return;
    }
    generated' := generated + 1;
    if candidateMillis >= to {
      LaterDaysUnwanted(s, length, exceptions, from, to, candidate);
      NothingLeft(task, s, exceptions, from, to, candidate, generated, occurrences);
      return;
    }
    PassDay(task, s, exceptions, from, to, candidate, generated, occurrences);
    var occurrenceEndMillis := if length.Some? then candidateMillis + length.value else candidateMillis;
    if occurrenceEndMillis <= from {
      return generated', occurrences, false;
    }
    if candidateMillis in exceptions && exceptions[candidateMillis].isSkipped {
      return generated', occurrences, false;
    }
    occurrences' := occurrences + [BuildOccurrence(task, exceptions, candidateMillis)];
    done := |occurrences'| >= MAX_OCCURRENCES_PER_WINDOW;
    if done {
      CapReached(task, s, exceptions, from, to, candidate + 1, generated', occurrences');
    }
  }

  /** The period that the cursor is in is dealt with, too. */
  ghost predicate Passed(task: Task, c: Config, exceptions: map<int, OccurrenceException>, from: int, to: int,
                         cursor: int, generated: int, occurrences: seq<Occurrence>)
    requires task.startAt.Some?
  {
    && |occurrences| < MAX_OCCURRENCES_PER_WINDOW
    && Progress(task, SeriesOf(task, c), exceptions, from, to,
         PeriodStart(c.frequency, PeriodOf(c.frequency, cursor) + Interval(c)), generated, occurrences)
  }

  /** The cursor of the task's expansion, `steps` steps from its seed. */
  ghost predicate InPeriod(task: Task, c: Config, cursor: int, steps: int)
    requires task.startAt.Some?
  {
    OnStep(cursor, SeedDay(SeriesOf(task, c)), c, steps)
  }

  /** Before period number `steps`: the cursor is in it, and every earlier day is dealt with. */
  ghost predicate Between(task: Task, c: Config, exceptions: map<int, OccurrenceException>, from: int, to: int,
                          cursor: int, steps: int, generated: int, occurrences: seq<Occurrence>)
    requires task.startAt.Some?
  {
    && InPeriod(task, c, cursor, steps) && |occurrences| < MAX_OCCURRENCES_PER_WINDOW
    && Progress(task, SeriesOf(task, c), exceptions, from, to,
         PeriodStart(c.frequency, PeriodOf(c.frequency, cursor)), generated, occurrences)
  }

  lemma StartsBetween(task: Task, c: Config, exceptions: map<int, OccurrenceException>, from: int, to: int)
    requires task.startAt.Some?
    ensures Between(task, c, exceptions, from, to, LocalDay(task.offset, task.startAt.value), 0, 0, [])
  {
    hide Progress, PeriodOf, PeriodStart, LocalDay;
    StartUp(task, SeriesOf(task, c), exceptions, from, to);
  }

  /** Advances the cursor; the engine's guard against one that does not advance never fires. */
  method Advance(ghost task: Task, c: Config, ghost exceptions: map<int, OccurrenceException>, ghost from: int,
                 ghost to: int, cursor: int, ghost steps: nat, ghost generated: int, ghost occurrences: seq<Occurrence>)
    returns (next: int)
    requires task.startAt.Some? && InPeriod(task, c, cursor, steps)
    requires Passed(task, c, exceptions, from, to, cursor, generated, occurrences)
    ensures next > cursor && Between(task, c, exceptions, from, to, next, steps + 1, generated, occurrences)
  {
    hide Progress, PeriodOf, PeriodStart, OnStep, StepPeriod, SeedDay, Interval;
    next := StepPeriod(cursor, c);
    StepKeepsPhase(cursor, SeedDay(SeriesOf(task, c)), c, steps);
  }

  /** The step backstop: no day of a later period is wanted, so the result is final. */
  lemma StepBackstop(task: Task, c: Config, exceptions: map<int, OccurrenceException>, from: int, to: int,
                     cursor: int, generated: int, occurrences: seq<Occurrence>)
    requires task.startAt.Some?
    requires Between(task, c, exceptions, from, to, cursor, MAX_GENERATION_STEPS, generated, occurrences)
    ensures occurrences == Expansion(task, c, exceptions, from, to)
  {
    hide PeriodOf, PeriodStart, InSeries, Interval, Progress, Expansion;
    var f, s := c.frequency, SeriesOf(task, c);
    var b := PeriodStart(f, PeriodOf(f, cursor));
    forall x | b <= x ensures !Wanted(s, Duration(task), exceptions, from, to, x) {
      BeforePeriod(f, PeriodOf(f, cursor), x);
      QuotientAtLeast(MAX_GENERATION_STEPS, Interval(c), PeriodOf(f, x) - PeriodOf(f, SeedDay(s)));
    }
    NothingLeft(task, s, exceptions, from, to, b, generated, occurrences);
  }

  /** Runs the candidates of one period. */
  method TakePeriod(task: Task, c: Config, exceptions: map<int, OccurrenceException>, from: int, to: int,
                    until: Option<int>, cursor: int, ghost steps: nat, generated: int, occurrences: seq<Occurrence>)
    returns (generated': int, occurrences': seq<Occurrence>, done: bool)
    requires task.startAt.Some? && ValidAxes(c)
    requires until == UntilBoundaryMillis(c, task.offset)
    requires steps < MAX_GENERATION_STEPS
    requires Between(task, c, exceptions, from, to, cursor, steps, generated, occurrences)
    ensures done ==> occurrences' == Expansion(task, c, exceptions, from, to)
    ensures !done ==>
      InPeriod(task, c, cursor, steps) && Passed(task, c, exceptions, from, to, cursor, generated', occurrences')
  {
    hide PeriodOf, Selected, PassesLimitFilters, PeriodStart, OnRule, Interval, Expansion, WithinSteps,
      ValidAxes, UntilBoundaryMillis, Progress, CursorOnPhase;
    var s := SeriesOf(task, c);
    ghost var p := PeriodOf(c.frequency, cursor);
    ghost var b := PeriodStart(c.frequency, p);
    generated', occurrences', done := generated, occurrences, false;
    var candidates := CandidatesForPeriod(cursor, SeedDay(s), c);
    if |candidates| > 0 {
      assert candidates[0] in candidates;
      BeforePeriod(c.frequency, p, candidates[0]);
    }
    var i := 0;
    while i < |candidates|
      invariant 0 <= i <= |candidates|
      invariant PeriodStart(c.frequency, p) <= b
      invariant forall j :: 0 <= j < i ==> candidates[j] < b
      invariant i < |candidates| ==> b <= candidates[i]
      invariant b == PeriodStart(c.frequency, p) || exists d :: d in candidates && b == d + 1
      invariant Progress(task, s, exceptions, from, to, b, generated', occurrences')
      invariant |occurrences'| < MAX_OCCURRENCES_PER_WINDOW
    {
      var candidate := candidates[i];
      assert candidate in candidates;
      CandidateIsOnRule(s, steps, p, candidate);
      CandidateWithinSteps(s, steps, candidate);
      IdleBeforeCandidate(s, p, b, candidates, i);
      SkipIdleDays(task, s, exceptions, from, to, b, candidate, generated', occurrences');
      generated', occurrences', done :=
        TakeCandidate(task, c, exceptions, from, to, until, candidate, generated', occurrences');
      if done {
        return;
      }
      b := candidate + 1;
      i := i + 1;
    }
    IdleUntilNextPeriod(s, steps, p, b, candidates);
    LastDayBeforeNextPeriod(s, p, b, candidates);
    SkipIdleDays(task, s, exceptions, from, to, b, PeriodStart(c.frequency, p + Interval(c)), generated', occurrences');
  }

  /**
   * Expands `task` by rule `c` over `[from, to)`: the occurrences returned are the
   * declarative answer, cut at `MAX_OCCURRENCES_PER_WINDOW`.
   */
  method ExpandOccurrences(task: Task, c: Config, exceptions: map<int, OccurrenceException>, from: int, to: int)
    returns (occurrences: seq<Occurrence>)
    requires ValidAxes(c)
    ensures occurrences == Expansion(task, c, exceptions, from, to)
  {
    if task.startAt.None? {
      return [];
    }
    hide *;
    var until := UntilBoundaryMillis(c, task.offset);
    occurrences := [];
    var cursor, generated, steps := LocalDay(task.offset, task.startAt.value), 0, 0;
    StartsBetween(task, c, exceptions, from, to);
    while steps < MAX_GENERATION_STEPS
      invariant 0 <= steps <= MAX_GENERATION_STEPS
      invariant Between(task, c, exceptions, from, to, cursor, steps, generated, occurrences)
    {
      var done;
      generated, occurrences, done :=
        TakePeriod(task, c, exceptions, from, to, until, cursor, steps, generated, occurrences);
      if done {
        return;
      }
      cursor := Advance(task, c, exceptions, from, to, cursor, steps, generated, occurrences);
      steps := steps + 1;
    }
    StepBackstop(task, c, exceptions, from, to, cursor, generated, occurrences);
  }
}
