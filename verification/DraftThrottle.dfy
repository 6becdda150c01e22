/**
 * The draft throttle: a leading edge, then at most one send per interval, keeping
 * only the newest job while the window is closed. Its methods are proved to take the
 * steps of a small timed machine, and the machine to keep the rate, the order and
 * the last word.
 */
module DraftThrottle {
  import opened Wrappers
  import opened Division

  /** One vendor send: when, and which submission it carries. */
  datatype Send = Send(at: int, job: nat)

  /**
   * `lastRunAt` is none before the first send. `timer` holds the instant an armed
   * flush is due. `lost` records that the latest submission was cancelled unsent.
   */
  datatype Throttle = Throttle(
    minInterval: nat,
    clock: int,
    lastRunAt: Option<int>,
    pending: Option<nat>,
    timer: Option<int>,
    sends: seq<Send>,
    submitted: nat,
    lost: bool)

  datatype Event = Submit(now: int) | Flush(now: int) | Cancel(now: int)

  function Max(a: int, b: int): int {
    if a < b then b else a
  }

  function RunNow(s: Throttle, now: int, job: nat): Throttle {
    s.(lastRunAt := Some(now), sends := s.sends + [Send(now, job)])
  }

  predicate WindowOpen(s: Throttle, now: int) {
    s.lastRunAt.Some? ==> now - s.lastRunAt.value >= s.minInterval
  }

  /** The clock never goes back and a timer never fires early. */
  predicate Enabled(s: Throttle, e: Event) {
    e.now >= s.clock && (e.Flush? ==> s.timer.Some? && e.now >= s.timer.value)
  }

  function Next(s: Throttle, e: Event): Throttle {
    var s := s.(clock := e.now);
    match e
    case Submit(now) =>
      var job, s := s.submitted, s.(submitted := s.submitted + 1, lost := false);
      if WindowOpen(s, now) && s.timer.None? then RunNow(s, now, job)
      else if s.timer.Some? then s.(pending := Some(job))
      else s.(pending := Some(job), timer := Some(now + Max(0, s.minInterval - (now - s.lastRunAt.Or(now)))))
    case Flush(now) =>
      var idle := s.(timer := None, pending := None);
      if s.pending.Some? then RunNow(idle, now, s.pending.value) else idle
    case Cancel(_) => s.(timer := None, pending := None, lost := s.lost || s.pending.Some?)
  }

  // --- the interval -----------------------------------------------------------------

  function Ceil(x: real): int {
    -((-x).Floor)
  }

  /** The cap is clamped to two to five sends a second. */
  function MinInterval(updatesPerSecond: real): (ms: nat)
    ensures 200 <= ms <= 500
  {
    var atLeastTwo := if updatesPerSecond > 2.0 then updatesPerSecond else 2.0;
    var clamped := if atLeastTwo < 5.0 then atLeastTwo else 5.0;
    IntervalBounds(clamped);
    Ceil(1000.0 / clamped)
  }

  lemma ScaleReal(a: real, b: real, c: real)
    requires a < b && c > 0.0
    ensures a * c < b * c
  {
  }

  lemma IntervalBounds(clamped: real)
    requires 2.0 <= clamped <= 5.0
    ensures 200 <= Ceil(1000.0 / clamped) <= 500
  {
    var x := 1000.0 / clamped;
    assert x * clamped == 1000.0;
    if x < 200.0 {
      ScaleReal(x, 200.0, clamped);
    }
    if x > 500.0 {
      ScaleReal(500.0, x, clamped);
    }
  }

  lemma CeilIsLeast(x: real, m: int)
    ensures m as real >= x <==> m >= Ceil(x)
  {
  }

  /** Within the clamped band the interval is the least whole number of milliseconds that keeps the rate. */
  lemma IntervalIsLeast(updatesPerSecond: real, ms: int)
    requires 2.0 <= updatesPerSecond <= 5.0
    ensures ms as real >= 1000.0 / updatesPerSecond <==> ms >= MinInterval(updatesPerSecond)
  {
    assert MinInterval(updatesPerSecond) == Ceil(1000.0 / updatesPerSecond);
    hide MinInterval, Ceil;
    CeilIsLeast(1000.0 / updatesPerSecond, ms);
  }

  // --- invariants over timed runs -----------------------------------------------------

  predicate Spaced(s: Throttle) {
    forall i :: 0 <= i < |s.sends| - 1 ==> s.sends[i + 1].at - s.sends[i].at >= s.minInterval
  }

  predicate InSubmitOrder(s: Throttle) {
    forall i :: 0 <= i < |s.sends| - 1 ==> s.sends[i].job < s.sends[i + 1].job
  }

  /** The job of the last send. */
  predicate LastSent(s: Throttle, job: nat) {
    s.sends != [] && s.sends[|s.sends| - 1].job == job
  }

  ghost predicate Inv(s: Throttle) {
    Spaced(s) && InSubmitOrder(s) && Bookkept(s)
  }

  predicate Bookkept(s: Throttle) {
    && (s.lastRunAt.None? <==> s.sends == [])
    && (s.sends != [] ==>
         var last := s.sends[|s.sends| - 1];
         s.lastRunAt == Some(last.at) && last.at <= s.clock && last.job < s.submitted)
    // A job is pending exactly when a flush is armed, one interval after the last send.
    && (s.pending.Some? <==> s.timer.Some?)
    && (s.timer.Some? ==> s.lastRunAt.Some? && s.timer.value == s.lastRunAt.value + s.minInterval)
    // The pending job is the newest submission and has not been sent.
    && (s.pending.Some? ==> s.submitted == s.pending.value + 1 && !s.lost && !LastSent(s, s.pending.value))
    && (s.submitted > 0 ==> (LastSent(s, s.submitted - 1) <==> s.timer.None? && !s.lost))
    && (s.lost ==> s.submitted > 0)
  }

  /** A send that is an interval later than the last one, of a later job, keeps the spacing and the order. */
  lemma SendExtends(s: Throttle, now: int, job: nat)
    requires Spaced(s) && InSubmitOrder(s)
    requires s.sends != [] ==> now - s.sends[|s.sends| - 1].at >= s.minInterval && s.sends[|s.sends| - 1].job < job
    ensures Spaced(RunNow(s, now, job)) && InSubmitOrder(RunNow(s, now, job))
  {
  }

  lemma SameSends(s: Throttle, s': Throttle)
    requires s'.sends == s.sends && s'.minInterval == s.minInterval
    ensures Spaced(s') == Spaced(s) && InSubmitOrder(s') == InSubmitOrder(s)
  {
  }

  lemma SubmitKeepsInv(s: Throttle, now: int)
    requires Inv(s) && Enabled(s, Submit(now))
    ensures Inv(Next(s, Submit(now))) && Next(s, Submit(now)).minInterval == s.minInterval
  {
    hide Spaced, InSubmitOrder;
    if WindowOpen(s, now) && s.timer.None? {
      var taken := s.(clock := now, submitted := s.submitted + 1, lost := false);
      SameSends(s, taken);
      SendExtends(taken, now, s.submitted);
    } else {
      SameSends(s, Next(s, Submit(now)));
    }
  }

  lemma FlushKeepsInv(s: Throttle, now: int)
    requires Inv(s) && Enabled(s, Flush(now))
    ensures Inv(Next(s, Flush(now))) && Next(s, Flush(now)).minInterval == s.minInterval
  {
    hide Spaced, InSubmitOrder;
    var idle := s.(clock := now, timer := None, pending := None);
    SameSends(s, idle);
    SendExtends(idle, now, s.pending.value);
  }

  lemma StepKeepsInv(s: Throttle, e: Event)
    requires Inv(s) && Enabled(s, e)
    ensures Inv(Next(s, e)) && Next(s, e).minInterval == s.minInterval
  {
    hide Spaced, InSubmitOrder;
    match e
    case Submit(now) =>
      hide Next, Inv;
      SubmitKeepsInv(s, now);
    case Flush(now) =>
      hide Next, Inv;
      FlushKeepsInv(s, now);
    case Cancel(now) => SameSends(s, Next(s, e));
  }

  ghost predicate IsRun(states: seq<Throttle>, events: seq<Event>) {
    && |states| == |events| + 1
    && states[0].sends == [] && states[0].lastRunAt.None? && states[0].pending.None? && states[0].timer.None?
    && states[0].submitted == 0 && !states[0].lost
    && forall i :: 0 <= i < |events| ==> Enabled(states[i], events[i]) && states[i + 1] == Next(states[i], events[i])
  }

  lemma {:induction false} RunsKeepInv(states: seq<Throttle>, events: seq<Event>, i: nat)
    requires IsRun(states, events) && i <= |events|
    ensures Inv(states[i]) && states[i].minInterval == states[0].minInterval
  {
    if i > 0 {
      hide Inv, Next;
      RunsKeepInv(states, events, i - 1);
      StepKeepsInv(states[i - 1], events[i - 1]);
    }
  }

  lemma {:induction false} SendsApart(s: Throttle, i: nat, j: nat)
    requires Spaced(s) && i <= j < |s.sends|
    ensures s.sends[j].at - s.sends[i].at >= (j - i) * s.minInterval
    decreases j
  {
    if i < j {
      SendsApart(s, i, j - 1);
      assert s.sends[j - 1 + 1].at - s.sends[j - 1].at >= s.minInterval;
      assert (j - i) * s.minInterval == (j - 1 - i) * s.minInterval + s.minInterval;
    }
  }

  /** Rate: in any run, any span of `length` ms holds at most `length / minInterval + 1` sends. */
  lemma RateIsCapped(states: seq<Throttle>, events: seq<Event>, k: nat, i: nat, j: nat, length: nat)
    requires IsRun(states, events) && k <= |events| && i <= j < |states[k].sends| && states[0].minInterval > 0
    requires states[k].sends[j].at - states[k].sends[i].at <= length
    ensures j - i + 1 <= length / states[0].minInterval + 1
  {
    RunsKeepInv(states, events, k);
    SendsApart(states[k], i, j);
    hide IsRun, Inv;
    QuotientAtLeast(j - i, states[k].minInterval, length);
  }

  lemma {:induction false} SendsInOrder(s: Throttle, i: nat, j: nat)
    requires InSubmitOrder(s) && i < j < |s.sends|
    ensures s.sends[i].job < s.sends[j].job
    decreases j
  {
    assert s.sends[j - 1].job < s.sends[j - 1 + 1].job;
    if i < j - 1 {
      SendsInOrder(s, i, j - 1);
    }
  }

  /** Order: in every run, jobs are sent in strictly increasing order of submission. */
  lemma RunsSendInOrder(states: seq<Throttle>, events: seq<Event>, k: nat, i: nat, j: nat)
    requires IsRun(states, events) && k <= |events| && i < j < |states[k].sends|
    ensures states[k].sends[i].job < states[k].sends[j].job
  {
    RunsKeepInv(states, events, k);
    hide IsRun;
    SendsInOrder(states[k], i, j);
  }

  /** The last word: a submission is the last thing sent exactly when no flush is armed and no cancel dropped it. */
  lemma LastWordIsSent(states: seq<Throttle>, events: seq<Event>, i: nat)
    requires IsRun(states, events) && i <= |events| && states[i].submitted > 0
    ensures LastSent(states[i], states[i].submitted - 1) <==> states[i].timer.None? && !states[i].lost
    ensures states[i].pending.Some? <==> states[i].timer.Some?
    ensures states[i].timer.Some? ==> states[i].pending == Some(states[i].submitted - 1)
  {
    RunsKeepInv(states, events, i);
  }

  /** The leading edge: with the window open and nothing armed, a submission is sent at once. */
  lemma OpenWindowSendsAtOnce(s: Throttle, now: int)
    requires Enabled(s, Submit(now)) && s.timer.None?
    requires s.lastRunAt.Some? ==> now - s.lastRunAt.value >= s.minInterval
    ensures Next(s, Submit(now)).sends == s.sends + [Send(now, s.submitted)]
  {
  }

  /** A pending job is due within one interval, in every run. */
  lemma PendingIsDueSoon(states: seq<Throttle>, events: seq<Event>, i: nat)
    requires IsRun(states, events) && i <= |events| && states[i].pending.Some?
    ensures states[i].timer.Some? && states[i].timer.value <= states[i].clock + states[i].minInterval
  {
    RunsKeepInv(states, events, i);
  }

  /** Everything sent from the `n`-th send on, or still to be sent, was submitted as job `m` or later. */
  predicate FreshSince(s: Throttle, n: nat, m: nat) {
    && n <= |s.sends| && m <= s.submitted
    && (forall i :: n <= i < |s.sends| ==> m <= s.sends[i].job)
    && (s.pending.Some? ==> m <= s.pending.value)
  }

  lemma StepKeepsFresh(s: Throttle, e: Event, n: nat, m: nat)
    requires FreshSince(s, n, m)
    ensures FreshSince(Next(s, e), n, m)
  {
  }

  lemma CancelIsFresh(s: Throttle, now: int)
    ensures FreshSince(Next(s, Cancel(now)), |s.sends|, s.submitted)
  {
  }

  /** Cancel: in every run, nothing submitted before a cancel is sent after it. */
  lemma {:induction false} CancelledIsNotSent(states: seq<Throttle>, events: seq<Event>, c: nat, k: nat)
    requires IsRun(states, events) && c < k <= |events| && events[c].Cancel?
    ensures FreshSince(states[k], |states[c].sends|, states[c].submitted)
    ensures forall i :: |states[c].sends| <= i < |states[k].sends| ==> states[k].sends[i].job >= states[c].submitted
    decreases k
  {
    if k == c + 1 {
      CancelIsFresh(states[c], events[c].now);
    } else {
      CancelledIsNotSent(states, events, c, k - 1);
      hide Next, FreshSince;
      StepKeepsFresh(states[k - 1], events[k - 1], |states[c].sends|, states[c].submitted);
    }
  }

  // --- the class ------------------------------------------------------------------------

  class DraftThrottle {
    const minIntervalMs: nat
    var lastRunAt: Option<int>
    var pendingJob: Option<nat>
    var flushTimer: Option<int>
    ghost var clock: int
    ghost var sends: seq<Send>
    var submitted: nat
    ghost var lost: bool

    ghost function State(): Throttle
      reads this
    {
      Throttle(minIntervalMs, clock, lastRunAt, pendingJob, flushTimer, sends, submitted, lost)
    }

    constructor (updatesPerSecond: real)
      ensures Inv(State()) && State().sends == [] && submitted == 0
      ensures minIntervalMs == MinInterval(updatesPerSecond)
    {
      minIntervalMs := MinInterval(updatesPerSecond);
      lastRunAt, pendingJob, flushTimer := None, None, None;
      clock, sends, submitted, lost := 0, [], 0, false;
    }

    method RunJob(now: int, job: nat)
      modifies `lastRunAt, `sends
      ensures State() == RunNow(old(State()), now, job)
    {
      lastRunAt := Some(now);
      sends := sends + [Send(now, job)];
    }

    /** Runs at once when the window is open; otherwise the newest job replaces any pending one. */
    method Submit(now: int) returns (job: nat)
      requires Inv(State()) && now >= clock
      modifies this
      ensures Inv(State()) && State() == Next(old(State()), Event.Submit(now)) && job == old(submitted)
    {
      StepKeepsInv(State(), Event.Submit(now));
      assert flushTimer.None? || lastRunAt.Some?;
      hide Inv, Enabled;
      job := submitted;
      clock, submitted, lost := now, submitted + 1, false;
      var open := lastRunAt.None? || now - lastRunAt.value >= minIntervalMs;
      if open && flushTimer.None? {
        RunJob(now, job);
        return;
      }
      pendingJob := Some(job);
      if flushTimer.Some? {
        return;
      }
      var elapsed := now - lastRunAt.Or(now);
      flushTimer := Some(now + Max(0, minIntervalMs - elapsed));
    }

    /** The timer's callback. */
    method OnFlush(now: int)
      requires Inv(State()) && Enabled(State(), Flush(now))
      modifies this
      ensures Inv(State()) && State() == Next(old(State()), Flush(now))
    {
      StepKeepsInv(State(), Flush(now));
      hide Inv;
      clock := now;
      flushTimer := None;
      var next := pendingJob;
      pendingJob := None;
      if next.Some? {
        RunJob(now, next.value);
      }
    }

    /** Drops the armed flush and the pending job. */
    method CancelFlush(now: int)
      requires Inv(State()) && now >= clock
      modifies this
      ensures Inv(State()) && State() == Next(old(State()), Cancel(now))
    {
      StepKeepsInv(State(), Cancel(now));
      hide Inv;
      clock, lost := now, lost || pendingJob.Some?;
      flushTimer := None;
      pendingJob := None;
    }
  }
}
