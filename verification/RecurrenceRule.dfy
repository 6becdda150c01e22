/**
 * What a recurrence rule means: a day belongs to a series when it lies in an
 * active period (every `interval`-th one, counted from the seed's), the rule's
 * selectors pick it inside that period, and the remaining axes let it through.
 * Every generated instant carries the seed's wall-clock time, so in a zone of
 * fixed offset a series is a set of local day numbers.
 */
module RecurrenceRule {
  import opened Wrappers
  import opened Ranges
  import opened CivilCalendar

  datatype Frequency = Daily | Weekly | Monthly | Yearly

  datatype EndType = Never | UntilDate | AfterCount

  datatype MonthlyAnchor = FirstWorkday | LastWorkday | DayBeforeLastWorkday

  /** The inline rule of a task or group. A null axis and an empty one mean the same. */
  datatype Config = Config(
    frequency: Frequency,
    interval: int,
    byWeekday: seq<int>,
    byMonthDay: seq<int>,
    byMonth: seq<int>,
    bySetPos: seq<int>,
    monthlyAnchor: Option<MonthlyAnchor>,
    endType: EndType,
    endDate: Option<int>,
    count: Option<int>)

  /** The ranges the request validators enforce on the axes. */
  predicate ValidAxes(c: Config) {
    && (forall w :: w in c.byWeekday ==> 0 <= w <= 6)
    && (forall n :: n in c.byMonthDay ==> 1 <= n <= 31)
    && (forall k :: k in c.byMonth ==> 1 <= k <= 12)
  }

  function Interval(c: Config): (n: int)
    ensures n >= 1
  {
    if c.interval >= 1 then c.interval else 1
  }

  /** The number of the period of frequency `f` that holds day `d`. */
  function PeriodOf(f: Frequency, d: int): int {
    match f
    case Daily => d
    case Weekly => WeekOf(d)
    case Monthly => MonthOf(d)
    case Yearly => YearOf(d)
  }

  predicate SameMonth(x: int, d: int) {
    MonthOf(x) == MonthOf(d)
  }

  /** Day `d` is the working day of its month that `mode` names. */
  ghost predicate IsAnchorDay(mode: MonthlyAnchor, d: int) {
    IsWorkday(d) &&
    match mode
    case FirstWorkday => forall x :: SameMonth(x, d) && IsWorkday(x) ==> d <= x
    case LastWorkday => forall x :: SameMonth(x, d) && IsWorkday(x) ==> x <= d
    case DayBeforeLastWorkday =>
      exists z :: z > d && SameMonth(z, d) && IsWorkday(z)
        && forall x :: SameMonth(x, d) && IsWorkday(x) && x > d ==> x == z
  }

  ghost function OnWeekdays(weekdays: seq<int>): int -> bool {
    (x: int) => Weekday(x) in weekdays
  }

  /** Day `d` is the `p`-th day of its month on one of `weekdays`, counted from the end when `p` is negative. */
  ghost predicate IsNthWeekday(weekdays: seq<int>, p: int, d: int) {
    && Weekday(d) in weekdays
    && (p > 0 ==> Count(OnWeekdays(weekdays), MonthStart(MonthOf(d)), d) == p - 1)
    && (p < 0 ==> Count(OnWeekdays(weekdays), d + 1, MonthStart(MonthOf(d) + 1)) == -p - 1)
    && p != 0
  }

  ghost predicate SelectedInMonth(c: Config, seed: int, d: int) {
    if c.monthlyAnchor.Some? then IsAnchorDay(c.monthlyAnchor.value, d)
    else if c.bySetPos != [] && c.byWeekday != [] then
      exists i :: 0 <= i < |c.bySetPos| && IsNthWeekday(c.byWeekday, c.bySetPos[i], d)
    else if c.byMonthDay != [] then DayOfMonth(d) in c.byMonthDay
    else DayOfMonth(d) == DayOfMonth(seed)
  }

  /** The selectors that expand a period of the rule's own frequency. */
  ghost predicate Selected(c: Config, seed: int, d: int) {
    match c.frequency
    case Daily => true
    case Weekly => if c.byWeekday != [] then Weekday(d) in c.byWeekday else Weekday(d) == Weekday(seed)
    case Monthly => SelectedInMonth(c, seed, d)
    case Yearly =>
      && (if c.byMonth != [] then MonthOfYear(d) in c.byMonth else MonthOfYear(d) == MonthOfYear(seed))
      && (if c.byMonthDay != [] then DayOfMonth(d) in c.byMonthDay else DayOfMonth(d) == DayOfMonth(seed))
  }

  /** The axes that only limit: those the frequency does not expand on. */
  predicate PassesLimitFilters(c: Config, d: int) {
    && (c.frequency != Weekly && c.byWeekday != [] ==> Weekday(d) in c.byWeekday)
    && (c.frequency != Monthly && c.frequency != Yearly && c.byMonthDay != [] ==> DayOfMonth(d) in c.byMonthDay)
    && (c.frequency != Yearly && c.byMonth != [] ==> MonthOfYear(d) in c.byMonth)
  }

  predicate ActivePeriod(c: Config, seed: int, d: int) {
    (PeriodOf(c.frequency, d) - PeriodOf(c.frequency, seed)) % Interval(c) == 0
  }

  /** The rule without its end: day `d` is generated from `seed`. */
  ghost predicate OnRule(c: Config, seed: int, d: int) {
    && seed <= d
    && ActivePeriod(c, seed, d)
    && Selected(c, seed, d)
    && PassesLimitFilters(c, d)
  }

  ghost function RuleDays(c: Config, seed: int): int -> bool {
    (d: int) => OnRule(c, seed, d)
  }

  /** How many days the rule generates before `d`, counted from the seed. */
  ghost function Rank(c: Config, seed: int, d: int): nat {
    Count(RuleDays(c, seed), seed, d)
  }

  predicate WithinUntil(c: Config, d: int) {
    c.endType == UntilDate && c.endDate.Some? ==> d <= c.endDate.value
  }

  ghost predicate WithinCount(c: Config, seed: int, d: int) {
    c.endType == AfterCount && c.count.Some? ==> Rank(c, seed, d) < c.count.value
  }

  /** Day `d` belongs to the series: generated by the rule and not past its end. */
  ghost predicate InSeries(c: Config, seed: int, d: int) {
    OnRule(c, seed, d) && WithinUntil(c, d) && WithinCount(c, seed, d)
  }

  lemma PeriodGrows(f: Frequency, a: int, b: int)
    requires a <= b
    ensures PeriodOf(f, a) <= PeriodOf(f, b)
  {
    MonthOfGrows(a, b);
  }

  /** A month has at most one `p`-th such day. */
  lemma NthWeekdayIsUnique(weekdays: seq<int>, p: int, d: int, e: int)
    requires IsNthWeekday(weekdays, p, d) && IsNthWeekday(weekdays, p, e) && SameMonth(d, e)
    ensures d == e
  {
    hide MonthStart, MonthOf, Weekday;
    var lo, hi := MonthStart(MonthOf(d)), MonthStart(MonthOf(d) + 1);
    var on := OnWeekdays(weekdays);
    IndexIsRank(on, lo, hi, d);
    IndexIsRank(on, lo, hi, e);
  }
}
