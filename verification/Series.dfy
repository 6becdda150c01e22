/**
 * A recurring series on the time line, and the declarative answer to a window
 * query: which generated starts a read of `[from, to)` must return.
 */
module Series {
  import opened Wrappers
  import opened Ranges
  import opened CivilCalendar
  import opened RecurrenceRule
  import opened TaskRows

  const MILLIS_PER_DAY := 86_400_000
  const MAX_OCCURRENCES_PER_WINDOW := 1000
  const MAX_GENERATION_STEPS := MAX_OCCURRENCES_PER_WINDOW * 64

  datatype Series = Series(startAt: int, offset: int, config: Config)

  function LocalDay(offset: int, t: int): int {
    (t + offset) / MILLIS_PER_DAY
  }

  function SeedDay(s: Series): int {
    LocalDay(s.offset, s.startAt)
  }

  /** The instant of local day `d` at the seed's wall-clock time. */
  function StartOn(s: Series, d: int): int {
    s.startAt + (d - SeedDay(s)) * MILLIS_PER_DAY
  }

  /** `t` carries the seed's wall-clock time. */
  predicate AtSeedTime(s: Series, t: int) {
    StartOn(s, LocalDay(s.offset, t)) == t
  }

  /** The series has an occurrence starting at `t`. */
  ghost predicate Member(s: Series, t: int) {
    AtSeedTime(s, t) && InSeries(s.config, SeedDay(s), LocalDay(s.offset, t))
  }

  /** How many engine steps away from the seed's period day `d` lies. */
  function StepsTo(c: Config, seed: int, d: int): int {
    (PeriodOf(c.frequency, d) - PeriodOf(c.frequency, seed)) / Interval(c)
  }

  /** The engine walks at most `MAX_GENERATION_STEPS` periods. */
  predicate WithinSteps(c: Config, seed: int, d: int) {
    StepsTo(c, seed, d) < MAX_GENERATION_STEPS
  }

  predicate IsSkipped(exceptions: map<int, OccurrenceException>, t: int) {
    t in exceptions && exceptions[t].isSkipped
  }

  /** The span `[t, t + length)` meets the window; an end-less occurrence is a point. */
  predicate MeetsWindow(length: Option<int>, t: int, from: int, to: int) {
    t < to && t + length.Or(0) > from
  }

  ghost predicate Wanted(s: Series, length: Option<int>, exceptions: map<int, OccurrenceException>, from: int, to: int,
                         d: int) {
    && InSeries(s.config, SeedDay(s), d)
    && WithinSteps(s.config, SeedDay(s), d)
    && MeetsWindow(length, StartOn(s, d), from, to)
    && !IsSkipped(exceptions, StartOn(s, d))
  }

  ghost function WantedDays(s: Series, length: Option<int>, exceptions: map<int, OccurrenceException>, from: int,
                            to: int): int -> bool {
    (d: int) => Wanted(s, length, exceptions, from, to, d)
  }

  /** The days a window query asks for, ascending. */
  ghost function AnswerDays(s: Series, length: Option<int>, exceptions: map<int, OccurrenceException>, from: int,
                            to: int): seq<int> {
    List(WantedDays(s, length, exceptions, from, to), SeedDay(s), LocalDay(s.offset, to) + 1)
  }

  function FirstN(q: seq<int>, n: nat): seq<int> {
    if |q| <= n then q else q[..n]
  }

  function BuildOccurrence(task: Task, exceptions: map<int, OccurrenceException>, t: int): Occurrence {
    var e := if t in exceptions then Some(exceptions[t]) else None;
    var start := if e.Some? then e.value.overrideStartAt.Or(t) else t;
    var defaultEnd := if Duration(task).Some? then Some(start + Duration(task).value) else None;
    Occurrence(
      task.id,
      Some(t),
      Some(start),
      if e.Some? && e.value.overrideEndAt.Some? then e.value.overrideEndAt else defaultEnd,
      if e.Some? then e.value.overrideTitle.Or(task.title) else task.title,
      if e.Some? then e.value.completedAt else None,
      true,
      e.Some?,
      task.parentTaskId,
      task.detachedAt.Some?)
  }

  function BuildAll(task: Task, s: Series, exceptions: map<int, OccurrenceException>,
                    days: seq<int>): (r: seq<Occurrence>)
    ensures |r| == |days|
  {
    seq(|days|, i requires 0 <= i < |days| => BuildOccurrence(task, exceptions, StartOn(s, days[i])))
  }

  function SeriesOf(task: Task, c: Config): Series
    requires task.startAt.Some?
  {
    Series(task.startAt.value, task.offset, c)
  }

  /** What expanding `task` by rule `c` over `[from, to)` must return. */
  ghost function Expansion(task: Task, c: Config, exceptions: map<int, OccurrenceException>, from: int,
                           to: int): seq<Occurrence> {
    if task.startAt.None? then []
    else
      var s := SeriesOf(task, c);
      var days := AnswerDays(s, Duration(task), exceptions, from, to);
      BuildAll(task, s, exceptions, FirstN(days, MAX_OCCURRENCES_PER_WINDOW))
  }

  lemma StartOnDay(s: Series, d: int)
    ensures LocalDay(s.offset, StartOn(s, d)) == d
    ensures AtSeedTime(s, StartOn(s, d))
  {
  }

  lemma StartOnOrder(s: Series, a: int, b: int)
    ensures a < b <==> StartOn(s, a) < StartOn(s, b)
  {
  }
}
