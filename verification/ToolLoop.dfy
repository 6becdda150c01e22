/**
 * The bounded tool loop of one user turn, against any model and any dispatcher: both
 * are arbitrary, answering each call as they please or failing it. The log records
 * what the loop asked of them, which the loop's promises are about.
 */
module ToolLoop {
  import opened Wrappers
  import opened TurnHonesty

  datatype ToolCall = ToolCall(id: string, name: string)

  /** A tool's own text, or the fixed notice that the schedule-fetch cap is reached. */
  datatype ResultContent = FromTool(text: string) | ScheduleCapNotice
  datatype ToolResult = ToolResult(toolCallId: string, content: ResultContent, isError: bool)
  datatype ToolRound = ToolRound(calls: seq<ToolCall>, results: seq<ToolResult>, assistantText: Option<string>)

  /** A conversation block; the correction is a fixed user message. */
  datatype Block = FromAssistant(content: string) | FromUser(content: string) | CorrectiveNudge

  datatype Limits = Limits(maxToolRoundtrips: nat, maxScheduleFetches: nat, maxCorrections: nat)
  datatype Registry = Registry(scheduleFetch: set<string>, write: set<string>)

  /** One model call; `forced` is `tool_choice: any`. */
  datatype Request = Request(messages: seq<Block>, toolRounds: seq<ToolRound>, forced: bool)
  datatype Response = Response(stop: StopReason, text: Option<string>, calls: seq<ToolCall>)

  datatype Dispatched = Dispatched(
    content: string,
    isError: bool,
    question: Option<string>,
    attemptedCount: Option<int>,
    committedCount: Option<int>)

  /** The n-th call of each oracle; `None` is a thrown error. */
  type Model = (nat, Request) -> Option<Response>
  type Dispatcher = (nat, ToolCall) -> Option<Dispatched>

  datatype AuditRound = AuditRound(round: nat, stop: StopReason, text: Option<string>, steps: nat,
    correction: Option<CorrectionReason>)

  datatype Outcome =
    | Reply(text: ReplyText)
    | Ask(toolRounds: seq<ToolRound>, askToolUseId: string, question: string)
    | Unresolved(corrections: nat)
    | Failed

  datatype Result = Result(outcome: Outcome, rounds: seq<AuditRound>, committedWrites: int, attemptedWrites: int)

  // --- what the loop asked of its oracles -------------------------------------------------

  /** A dispatch and what came of it. */
  datatype Dispatch = Dispatch(call: ToolCall, outcome: Option<Dispatched>)

  /** `marks[i]` is how many dispatches had been made when response `i` came in. */
  datatype Log = Log(requests: seq<Request>, responses: seq<Response>, dispatches: seq<Dispatch>, marks: seq<nat>)

  function ScheduleFetches(registry: Registry, ds: seq<Dispatch>): nat {
    if ds == [] then 0
    else ScheduleFetches(registry, ds[..|ds| - 1]) + if ds[|ds| - 1].call.name in registry.scheduleFetch then 1 else 0
  }

  /** What one dispatch adds to the ledger: nothing unless a write tool came back with a result. */
  function DeltaOf(registry: Registry, d: Dispatch): LedgerDelta {
    if d.outcome.Some? && d.outcome.value.question.None? && d.call.name in registry.write then
      WriteLedgerDelta(d.outcome.value.attemptedCount, d.outcome.value.committedCount, d.outcome.value.isError)
    else LedgerDelta(0, 0)
  }

  function Ledger(registry: Registry, ds: seq<Dispatch>): LedgerDelta {
    if ds == [] then LedgerDelta(0, 0)
    else
      var before, d := Ledger(registry, ds[..|ds| - 1]), DeltaOf(registry, ds[|ds| - 1]);
      LedgerDelta(before.attempted + d.attempted, before.committed + d.committed)
  }

  /** A dispatcher whose write counts never commit more than they attempt. */
  ghost predicate CountsObey(registry: Registry, dispatcher: Dispatcher) {
    forall n, call :: var d := DeltaOf(registry, Dispatch(call, dispatcher(n, call))); 0 <= d.committed <= d.attempted
  }

  /** Each dispatch is one answer of the dispatcher. */
  ghost predicate Genuinely(dispatcher: Dispatcher, ds: seq<Dispatch>) {
    forall i :: 0 <= i < |ds| ==> ds[i].outcome == dispatcher(i, ds[i].call)
  }

  lemma {:induction false} LedgerObeys(registry: Registry, dispatcher: Dispatcher, ds: seq<Dispatch>)
    requires CountsObey(registry, dispatcher) && Genuinely(dispatcher, ds)
    ensures 0 <= Ledger(registry, ds).committed <= Ledger(registry, ds).attempted
  {
    if ds != [] {
      LedgerObeys(registry, dispatcher, ds[..|ds| - 1]);
      var d := ds[|ds| - 1];
      assert d == Dispatch(d.call, dispatcher(|ds| - 1, d.call));
    }
  }

  // --- pairing ---------------------------------------------------------------------------------

  /** The results answer the calls one to one, in order. */
  predicate Pairs(calls: seq<ToolCall>, results: seq<ToolResult>) {
    |results| == |calls| && forall i :: 0 <= i < |calls| ==> results[i].toolCallId == calls[i].id
  }

  predicate AllPaired(rounds: seq<ToolRound>) {
    forall i :: 0 <= i < |rounds| ==> Pairs(rounds[i].calls, rounds[i].results)
  }

  // --- one round of tool calls --------------------------------------------------------------------

  /** Everything a turn is run against. */
  datatype Env = Env(limits: Limits, registry: Registry, patterns: Patterns, model: Model, dispatcher: Dispatcher)

  /** The loop's counters. */
  datatype Tally = Tally(fetches: nat, attempted: int, committed: int, dispatched: nat)

  /** The counters are those of the dispatches made. */
  ghost predicate Tallied(env: Env, ds: seq<Dispatch>, t: Tally) {
    && |ds| == t.dispatched && Genuinely(env.dispatcher, ds)
    && t.fetches == ScheduleFetches(env.registry, ds) <= env.limits.maxScheduleFetches
    && Ledger(env.registry, ds) == LedgerDelta(t.attempted, t.committed)
  }

  /** One more dispatch: what it adds to the log and its tallies. */
  lemma DispatchAdds(registry: Registry, dispatcher: Dispatcher, ds: seq<Dispatch>, d: Dispatch)
    requires Genuinely(dispatcher, ds) && d.outcome == dispatcher(|ds|, d.call)
    ensures Genuinely(dispatcher, ds + [d])
    ensures ScheduleFetches(registry, ds + [d])
      == ScheduleFetches(registry, ds) + if d.call.name in registry.scheduleFetch then 1 else 0
    ensures Ledger(registry, ds + [d]) == LedgerDelta(
      Ledger(registry, ds).attempted + DeltaOf(registry, d).attempted,
      Ledger(registry, ds).committed + DeltaOf(registry, d).committed)
  {
    assert (ds + [d])[..|ds|] == ds;
  }

  /** The result is what dispatch `n` of this very call returned. */
  predicate ReportsDispatch(call: ToolCall, result: ToolResult, ds: seq<Dispatch>, n: nat) {
    && n < |ds| && ds[n].call == call && ds[n].outcome.Some?
    && result == ToolResult(call.id, FromTool(ds[n].outcome.value.content), ds[n].outcome.value.isError)
  }

  /** A result is the cap notice of a schedule fetch, or reports a dispatch of this round. */
  ghost predicate Reports(registry: Registry, call: ToolCall, result: ToolResult, ds: seq<Dispatch>, from: nat) {
    || (result == ToolResult(call.id, ScheduleCapNotice, false) && call.name in registry.scheduleFetch)
    || (exists n :: from <= n && ReportsDispatch(call, result, ds, n))
  }

  ghost predicate AllReported(registry: Registry, calls: seq<ToolCall>, results: seq<ToolResult>, ds: seq<Dispatch>,
                              from: nat) {
    |results| <= |calls| && forall i :: 0 <= i < |results| ==> Reports(registry, calls[i], results[i], ds, from)
  }

  /** The cap notice is only given out once the cap is used up. */
  predicate CapBitesLate(results: seq<ToolResult>, fetches: nat, limits: Limits) {
    forall i :: 0 <= i < |results| && results[i].content == ScheduleCapNotice ==> fetches == limits.maxScheduleFetches
  }

  lemma NoCapNotice(fetches: nat, limits: Limits)
    ensures CapBitesLate([], fetches, limits)
  {
  }

  lemma CapStillBites(results: seq<ToolResult>, fetches: nat, later: nat, limits: Limits)
    requires CapBitesLate(results, fetches, limits) && fetches <= later <= limits.maxScheduleFetches
    ensures CapBitesLate(results, later, limits)
  {
  }

  lemma OneMoreNotice(results: seq<ToolResult>, result: ToolResult, fetches: nat, limits: Limits)
    requires CapBitesLate(results, fetches, limits)
    requires result.content == ScheduleCapNotice ==> fetches == limits.maxScheduleFetches
    ensures CapBitesLate(results + [result], fetches, limits)
  {
  }

  lemma LaterDispatchesReport(registry: Registry, calls: seq<ToolCall>, results: seq<ToolResult>, ds: seq<Dispatch>,
                              from: nat, ds': seq<Dispatch>)
    requires AllReported(registry, calls, results, ds, from) && ds <= ds'
    ensures AllReported(registry, calls, results, ds', from)
  {
    forall i | 0 <= i < |results| ensures Reports(registry, calls[i], results[i], ds', from) {
      assert Reports(registry, calls[i], results[i], ds, from);
      if n :| from <= n && ReportsDispatch(calls[i], results[i], ds, n) {
        assert ReportsDispatch(calls[i], results[i], ds', n);
      }
    }
  }

  lemma OneMoreResult(registry: Registry, calls: seq<ToolCall>, results: seq<ToolResult>, ds: seq<Dispatch>, from: nat,
                      result: ToolResult)
    requires AllReported(registry, calls, results, ds, from)
    requires |results| < |calls| && Pairs(calls[..|results|], results)
    requires Reports(registry, calls[|results|], result, ds, from)
    ensures AllReported(registry, calls, results + [result], ds, from)
    ensures Pairs(calls[..|results| + 1], results + [result])
  {
  }

  function CallsOf(ds: seq<Dispatch>): (r: seq<ToolCall>)
    ensures |r| == |ds|
  {
    seq(|ds|, i requires 0 <= i < |ds| => ds[i].call)
  }

  /** Which of a round's calls are dispatched: all but the schedule fetches past the cap. */
  function Dispatchable(registry: Registry, cap: nat, fetches: nat, calls: seq<ToolCall>): seq<ToolCall> {
    if calls == [] then []
    else
      var before, call := Dispatchable(registry, cap, fetches, calls[..|calls| - 1]), calls[|calls| - 1];
      if call.name in registry.scheduleFetch && fetches + FetchesIn(registry, before) >= cap then before
        else before + [call]
  }

  function FetchesIn(registry: Registry, calls: seq<ToolCall>): nat {
    if calls == [] then 0 else FetchesIn(registry, calls[..|calls| - 1]) + if calls[|calls| - 1].name
      in registry.scheduleFetch then 1 else 0
  }

  lemma {:induction false} FetchesSplit(registry: Registry, before: seq<Dispatch>, ds: seq<Dispatch>)
    requires before <= ds
    ensures ScheduleFetches(registry, ds)
      == ScheduleFetches(registry, before) + FetchesIn(registry, CallsOf(ds[|before|..]))
    decreases |ds|
  {
    if before == ds {
      assert ds[|before|..] == [];
    } else {
      var shorter := ds[..|ds| - 1];
      FetchesSplit(registry, before, shorter);
      assert CallsOf(ds[|before|..])[..|ds| - |before| - 1] == CallsOf(shorter[|before|..]);
    }
  }

  datatype CallEnd = Answered(result: ToolResult) | AsksUser(question: string) | Throws

  /** Dispatches one call under the schedule-fetch cap. */
  method DispatchCall(env: Env, call: ToolCall, before: Tally, ds: seq<Dispatch>)
    returns (end: CallEnd, t: Tally, ds': seq<Dispatch>)
    requires Tallied(env, ds, before)
    ensures Tallied(env, ds', t) && ds <= ds' && before.fetches <= t.fetches
    ensures ds' == ds || (|ds'| == |ds| + 1 && ds'[|ds|].call == call)
    ensures ds' == ds <==> call.name in env.registry.scheduleFetch && before.fetches >= env.limits.maxScheduleFetches
    ensures end.Answered? ==> Reports(env.registry, call, end.result, ds', |ds|)
    ensures end.Answered? && end.result.content == ScheduleCapNotice ==> t.fetches == env.limits.maxScheduleFetches
    ensures end.AsksUser? ==> |ds'| == |ds| + 1 && ds'[|ds|].call == call
    ensures end.Throws? ==> |ds'| == |ds| + 1 && ds'[|ds|].outcome.None?
    ensures end.AsksUser? ==> ds'[|ds|].outcome.Some? && ds'[|ds|].outcome.value.question == Some(end.question)
  {
    t, ds' := before, ds;
    if call.name in env.registry.scheduleFetch {
      if t.fetches >= env.limits.maxScheduleFetches {
        return Answered(ToolResult(call.id, ScheduleCapNotice, false)), t, ds';
      }
      t := t.(fetches := t.fetches + 1);
    }
    var outcome := env.dispatcher(t.dispatched, call);
    DispatchAdds(env.registry, env.dispatcher, ds, Dispatch(call, outcome));
    hide Genuinely, ScheduleFetches, Ledger;
    t, ds' := t.(dispatched := t.dispatched + 1), ds + [Dispatch(call, outcome)];
    if outcome.None? {
      return Throws, t, ds';
    }
    var o := outcome.value;
    if o.question.Some? {
      return AsksUser(o.question.value), t, ds';
    }
    if call.name in env.registry.write {
      var delta := WriteLedgerDelta(o.attemptedCount, o.committedCount, o.isError);
      t := t.(attempted := t.attempted + delta.attempted, committed := t.committed + delta.committed);
    }
    var result := ToolResult(call.id, FromTool(o.content), o.isError);
    assert ReportsDispatch(call, result, ds', |ds|);
    return Answered(result), t, ds';
  }

  datatype RoundEnd = Completed | Asked(k: nat, question: string) | Threw

  /** The last dispatch is the ask or the error that ended the round. */
  predicate EndedLast(calls: seq<ToolCall>, end: RoundEnd, ds: seq<Dispatch>) {
    && (end.Threw? ==> ds != [] && ds[|ds| - 1].outcome.None?)
    && (end.Asked? ==>
         && end.k < |calls| && ds != []
         && var d := ds[|ds| - 1];
            d.call == calls[end.k] && d.outcome.Some? && d.outcome.value.question == Some(end.question))
  }

  /** The first `i` calls of a round have been answered. */
  ghost predicate SoFar(env: Env, ds: seq<Dispatch>, calls: seq<ToolCall>, i: nat, results: seq<ToolResult>,
                        ds': seq<Dispatch>, t: Tally)
  {
    && ds <= ds' && Tallied(env, ds', t) && |results| == i <= |calls| && Pairs(calls[..i], results)
    && RanCalls(env, ds, ds', calls, i, Threw)
    && AllReported(env.registry, calls, results, ds', |ds|) && CapBitesLate(results, t.fetches, env.limits)
  }

  lemma NothingRun(env: Env, ds: seq<Dispatch>, calls: seq<ToolCall>, t: Tally)
    requires Tallied(env, ds, t)
    ensures SoFar(env, ds, calls, 0, [], ds, t)
  {
    hide Tallied;
    assert ds[|ds|..] == [];
  }

  /** One more call has been dispatched, or capped, whatever comes of it. */
  lemma CallMade(env: Env, ds: seq<Dispatch>, calls: seq<ToolCall>, results: seq<ToolResult>, earlier: seq<Dispatch>,
                 before: Tally, ds': seq<Dispatch>, t: Tally)
    requires SoFar(env, ds, calls, |results|, results, earlier, before) && |results| < |calls|
    requires Tallied(env, ds', t) && earlier <= ds' && before.fetches <= t.fetches
    requires ds' == earlier || (|ds'| == |earlier| + 1 && ds'[|earlier|].call == calls[|results|])
    requires ds' == earlier <==>
      calls[|results|].name in env.registry.scheduleFetch && before.fetches >= env.limits.maxScheduleFetches
    ensures ds <= ds' && Pairs(calls[..|results|], results) && RanCalls(env, ds, ds', calls, |results| + 1, Threw)
    ensures AllReported(env.registry, calls, results, ds', |ds|) && CapBitesLate(results, t.fetches, env.limits)
  {
    hide Pairs, AllReported, Reports, RanCalls, CapBitesLate;
    FetchesCapped(env, ds', t);
    hide Tallied;
    OneMoreCall(env, ds, earlier, ds', calls, |results|, before);
    CapStillBites(results, before.fetches, t.fetches, env.limits);
    LaterDispatchesReport(env.registry, calls, results, earlier, |ds|, ds');
  }

  lemma CallAnswered(env: Env, ds: seq<Dispatch>, calls: seq<ToolCall>, results: seq<ToolResult>, ds': seq<Dispatch>,
                     t: Tally, result: ToolResult, from: nat)
    requires |results| < |calls| && ds <= ds' && Tallied(env, ds', t) && Pairs(calls[..|results|], results)
    requires RanCalls(env, ds, ds', calls, |results| + 1, Threw) && |ds| <= from
    requires AllReported(env.registry, calls, results, ds', |ds|) && CapBitesLate(results, t.fetches, env.limits)
    requires Reports(env.registry, calls[|results|], result, ds', from)
    requires result.content == ScheduleCapNotice ==> t.fetches == env.limits.maxScheduleFetches
    ensures SoFar(env, ds, calls, |results| + 1, results + [result], ds', t)
  {
    hide Tallied, Pairs, AllReported, Reports, RanCalls, CapBitesLate;
    ReportedSince(env.registry, calls[|results|], result, ds', from, |ds|);
    OneMoreResult(env.registry, calls, results, ds', |ds|, result);
    OneMoreNotice(results, result, t.fetches, env.limits);
  }

  /** All calls have been answered. */
  lemma AllAnswered(env: Env, ds: seq<Dispatch>, calls: seq<ToolCall>, results: seq<ToolResult>, ds': seq<Dispatch>,
                    t: Tally)
    requires SoFar(env, ds, calls, |calls|, results, ds', t)
    ensures ds <= ds' && Tallied(env, ds', t) && Pairs(calls, results)
    ensures RanCalls(env, ds, ds', calls, |calls|, Completed)
    ensures AllReported(env.registry, calls, results, ds', |ds|) && CapBitesLate(results, t.fetches, env.limits)
  {
    assert calls[..|calls|] == calls;
    hide Tallied, Pairs, AllReported, Reports, CapBitesLate;
    RanTo(env, ds, ds', calls, |calls|, Completed);
  }

  lemma SoFarTallied(env: Env, ds: seq<Dispatch>, calls: seq<ToolCall>, i: nat, results: seq<ToolResult>,
                     ds': seq<Dispatch>, t: Tally)
    requires SoFar(env, ds, calls, i, results, ds', t)
    ensures Tallied(env, ds', t) && |results| == i && ds <= ds'
  {
    hide Tallied;
  }

  /** Dispatches a round's calls in order until one asks or fails. */
  method RunCalls(env: Env, calls: seq<ToolCall>, before: Tally, ds: seq<Dispatch>)
    returns (end: RoundEnd, results: seq<ToolResult>, steps: nat, t: Tally, ds': seq<Dispatch>)
    requires Tallied(env, ds, before)
    ensures Tallied(env, ds', t) && ds <= ds'
    ensures end.Completed? ==> Pairs(calls, results)
    ensures end.Asked? ==> end.k < |calls| && Pairs(calls[..end.k], results)
    ensures EndedLast(calls, end, ds')
    ensures AllReported(env.registry, calls, results, ds', |ds|) && CapBitesLate(results, t.fetches, env.limits)
    ensures exists n :: RanCalls(env, ds, ds', calls, n, end)
  {
    end, results, steps, t, ds' := Completed, [], 0, before, ds;
    hide Tallied, Pairs, AllReported, Reports, RanCalls, CapBitesLate, SoFar;
    NothingRun(env, ds, calls, before);
    for i := 0 to |calls|
      invariant end == Completed && SoFar(env, ds, calls, i, results, ds', t)
    {
      SoFarTallied(env, ds, calls, i, results, ds', t);
      ghost var earlier, tally := ds', t;
      var answer;
      answer, t, ds' := DispatchCall(env, calls[i], t, ds');
      CallMade(env, ds, calls, results, earlier, tally, ds', t);
      match answer {
        case Throws =>
          end := Threw;
          return;
        case AsksUser(question) =>
          steps := steps + 1;
          end := Asked(i, question);
          RanTo(env, ds, ds', calls, i + 1, end);
          return;
        case Answered(result) =>
          CallAnswered(env, ds, calls, results, ds', t, result, |earlier|);
          results := results + [result];
          steps := steps + 1;
      }
    }
    AllAnswered(env, ds, calls, results, ds', t);
  }

  /** The dispatches of a round are its first `n` calls, less the capped ones: all of them unless it ended early. */
  ghost predicate RanCalls(env: Env, before: seq<Dispatch>, ds: seq<Dispatch>, calls: seq<ToolCall>, n: nat,
                           end: RoundEnd) {
    && before <= ds && n <= |calls|
    && CallsOf(ds[|before|..]) ==
       Dispatchable(env.registry, env.limits.maxScheduleFetches, ScheduleFetches(env.registry, before), calls[..n])
    && (end.Completed? ==> n == |calls|)
    && (end.Asked? ==> n == end.k + 1)
  }

  lemma RanTo(env: Env, before: seq<Dispatch>, ds: seq<Dispatch>, calls: seq<ToolCall>, n: nat, end: RoundEnd)
    requires RanCalls(env, before, ds, calls, n, Threw)
    requires (end.Completed? ==> n == |calls|) && (end.Asked? ==> n == end.k + 1)
    ensures RanCalls(env, before, ds, calls, n, end)
  {
  }

  lemma OneMoreCall(env: Env, before: seq<Dispatch>, earlier: seq<Dispatch>, ds: seq<Dispatch>, calls: seq<ToolCall>,
                    n: nat, t: Tally)
    requires RanCalls(env, before, earlier, calls, n, Threw) && n < |calls| && Tallied(env, earlier, t) && earlier <= ds
    requires ds == earlier || (|ds| == |earlier| + 1 && ds[|earlier|].call == calls[n])
    requires ds == earlier
      <==> calls[n].name in env.registry.scheduleFetch && t.fetches >= env.limits.maxScheduleFetches
    ensures RanCalls(env, before, ds, calls, n + 1, Threw)
  {
    FetchesSplit(env.registry, before, earlier);
    assert calls[..n + 1][..n] == calls[..n];
    if ds != earlier {
      assert CallsOf(ds[|before|..]) == CallsOf(earlier[|before|..]) + [calls[n]];
    }
    hide ScheduleFetches, FetchesIn, Ledger, Genuinely;
  }

  lemma FetchesCapped(env: Env, ds: seq<Dispatch>, t: Tally)
    requires Tallied(env, ds, t)
    ensures t.fetches <= env.limits.maxScheduleFetches
  {
  }

  lemma ReportedSince(registry: Registry, call: ToolCall, result: ToolResult, ds: seq<Dispatch>, later: nat, from: nat)
    requires Reports(registry, call, result, ds, later) && from <= later
    ensures Reports(registry, call, result, ds, from)
  {
  }

  function Max(a: nat, b: int): nat {
    if a < b then b else a
  }

  // --- the turn ----------------------------------------------------------------------------------------

  /** What a nudge adds to the conversation: the model's own words, if any, and the correction. */
  function Nudged(messages: seq<Block>, text: Option<string>): seq<Block> {
    messages + (if text.Some? && text.value != "" then [FromAssistant(text.value)] else []) + [CorrectiveNudge]
  }

  function ForcedRequests(requests: seq<Request>): nat {
    if requests == [] then 0
    else ForcedRequests(requests[..|requests| - 1]) + if requests[|requests| - 1].forced then 1 else 0
  }

  /** Request `i` follows from what came before it. */
  predicate Follows(log: Log, prompt: seq<Block>, resumed: seq<ToolRound>, i: nat)
    requires i < |log.requests| && i <= |log.responses|
  {
    var request := log.requests[i];
    if i == 0 then request == Request(prompt, resumed, false)
    else
      var last, reply := log.requests[i - 1], log.responses[i - 1];
      // Forced choice holds in the round right after a nudge and in no other.
      && request.forced == (reply.calls == [])
      && (if reply.calls == [] then request.messages == Nudged(last.messages, reply.text)
        && request.toolRounds == last.toolRounds
          else
            && request.messages == last.messages
            && |request.toolRounds| == |last.toolRounds| + 1 && last.toolRounds <= request.toolRounds
            && var round := request.toolRounds[|last.toolRounds|];
               round.calls == reply.calls && round.assistantText == reply.text && Pairs(round.calls, round.results))
  }

  /** The log of a turn so far: every request follows, every response answers it. */
  ghost predicate Sound(log: Log, model: Model, dispatcher: Dispatcher, prompt: seq<Block>, resumed: seq<ToolRound>) {
    && |log.responses| <= |log.requests| <= |log.responses| + 1
    && (forall i :: 0 <= i < |log.requests| ==> Follows(log, prompt, resumed, i))
    && (forall i :: 0 <= i < |log.responses| ==> model(i, log.requests[i]) == Some(log.responses[i]))
    && Genuinely(dispatcher, log.dispatches)
  }

  /** What a suspended turn carries: the earlier rounds, then one that pairs exactly the calls before the ask. */
  predicate Suspends(log: Log, ask: Outcome)
    requires ask.Ask?
  {
    && |log.requests| == |log.responses| > 0
    && var last, reply := log.requests[|log.requests| - 1], log.responses[|log.responses| - 1];
       && |ask.toolRounds| == |last.toolRounds| + 1 && last.toolRounds <= ask.toolRounds
       && var round := ask.toolRounds[|last.toolRounds|];
          && round.calls == reply.calls && |round.results| < |round.calls|
          && Pairs(round.calls[..|round.results|], round.results)
          && round.calls[|round.results|].id == ask.askToolUseId
  }

  /** A reply to a clean end of turn, whether the model's own words or the ceiling line. */
  predicate RepliesToEndTurn(log: Log, r: Result) {
    r.outcome.Reply? && log.responses != [] && log.responses[|log.responses| - 1].calls == []
    && log.responses[|log.responses| - 1].stop == EndTurn
  }

  /** The audit trail: one row per answered request, in order, marking the narrations. */
  predicate Audited(log: Log, rounds: seq<AuditRound>) {
    && |rounds| <= |log.responses| <= |rounds| + 1
    && forall i :: 0 <= i < |rounds| ==>
         && rounds[i].round == i && rounds[i].stop == log.responses[i].stop && rounds[i].text == log.responses[i].text
         && (rounds[i].correction.Some? <==> log.responses[i].calls == [])
  }

  /** How many narrations the audit trail marks. */
  function Corrections(rounds: seq<AuditRound>): nat {
    if rounds == [] then 0
    else Corrections(rounds[..|rounds| - 1]) + if rounds[|rounds| - 1].correction.Some? then 1 else 0
  }

  lemma CorrectionsGrow(rounds: seq<AuditRound>, row: AuditRound)
    ensures Corrections(rounds + [row]) == Corrections(rounds) + if row.correction.Some? then 1 else 0
  {
    assert (rounds + [row])[..|rounds|] == rounds;
  }

  /** Nothing is dispatched before the first answer. */
  predicate Opened(log: Log) {
    if log.marks == [] then log.dispatches == [] else log.marks[0] == 0
  }

  /** Each marked narration was one, by what had been written when its answer came in. */
  ghost predicate Judged(env: Env, log: Log, rounds: seq<AuditRound>) {
    && |rounds| <= |log.responses| == |log.marks|
    && forall i :: 0 <= i < |rounds| ==> JudgedRight(env, log, i, rounds[i].correction)
  }

  ghost predicate JudgedRight(env: Env, log: Log, i: nat, correction: Option<CorrectionReason>)
    requires i < |log.responses| == |log.marks|
  {
    correction.Some? ==>
      && log.marks[i] <= |log.dispatches|
      && var before := Ledger(env.registry, log.dispatches[..log.marks[i]]);
         ClassifyTerminalTurn(env.patterns, log.responses[i].stop, log.responses[i].text, before.committed,
           before.attempted)
         == NarrationWithoutWrite(correction.value)
  }

  lemma JudgedStands(env: Env, log: Log, rounds: seq<AuditRound>, requests: seq<Request>, response: Response,
                     ds: seq<Dispatch>)
    requires Judged(env, log, rounds) && log.dispatches <= ds
    ensures Judged(env, log.(requests := requests), rounds) && Judged(env, log.(dispatches := ds), rounds)
    ensures Judged(env, AnsweredBy(log.(requests := requests), response), rounds)
  {
    hide Ledger, ClassifyTerminalTurn;
    forall i | 0 <= i < |rounds|
      ensures JudgedRight(env, log.(requests := requests), i, rounds[i].correction)
      ensures JudgedRight(env, log.(dispatches := ds), i, rounds[i].correction)
      ensures JudgedRight(env, AnsweredBy(log.(requests := requests), response), i, rounds[i].correction)
    {
      assert JudgedRight(env, log, i, rounds[i].correction);
      if rounds[i].correction.Some? {
        assert ds[..log.marks[i]] == log.dispatches[..log.marks[i]];
      }
    }
  }

  lemma JudgedGrows(env: Env, log: Log, rounds: seq<AuditRound>, row: AuditRound)
    requires Judged(env, log, rounds) && |rounds| < |log.responses| && JudgedRight(env, log, |rounds|, row.correction)
    ensures Judged(env, log, rounds + [row])
  {
    hide JudgedRight;
  }

  /** The next request, and the log once it has been sent and answered. */
  function Sent(log: Log, request: Request): Log {
    log.(requests := log.requests + [request])
  }

  function AnsweredBy(log: Log, response: Response): Log {
    log.(responses := log.responses + [response], marks := log.marks + [|log.dispatches|])
  }

  /** What holds between rounds: the next request would follow. */
  ghost predicate Ready(log: Log, model: Model, dispatcher: Dispatcher, prompt: seq<Block>, resumed: seq<ToolRound>,
                        next: Request) {
    && Sound(log, model, dispatcher, prompt, resumed) && |log.requests| == |log.responses|
    && Follows(Sent(log, next), prompt, resumed, |log.requests|)
  }

  lemma SendKeepsSound(log: Log, model: Model, dispatcher: Dispatcher, prompt: seq<Block>, resumed: seq<ToolRound>,
                       next: Request)
    requires Ready(log, model, dispatcher, prompt, resumed, next)
    ensures Sound(Sent(log, next), model, dispatcher, prompt, resumed)
    ensures ForcedRequests(Sent(log, next).requests) == ForcedRequests(log.requests) + if next.forced then 1 else 0
  {
    var sent := Sent(log, next);
    assert sent.requests[..|log.requests|] == log.requests;
    forall i | 0 <= i < |sent.requests| ensures Follows(sent, prompt, resumed, i) {
      if i < |log.requests| {
        assert Follows(log, prompt, resumed, i);
      }
    }
  }

  lemma AnswerKeepsSound(log: Log, model: Model, dispatcher: Dispatcher, prompt: seq<Block>, resumed: seq<ToolRound>,
                         response: Response)
    requires Sound(log, model, dispatcher, prompt, resumed) && |log.requests| == |log.responses| + 1
    requires model(|log.responses|, log.requests[|log.responses|]) == Some(response)
    ensures Sound(AnsweredBy(log, response), model, dispatcher, prompt, resumed)
  {
    var answered := AnsweredBy(log, response);
    forall i | 0 <= i < |answered.requests| ensures Follows(answered, prompt, resumed, i) {
      assert Follows(log, prompt, resumed, i);
    }
  }

  lemma DispatchesKeepSound(log: Log, model: Model, dispatcher: Dispatcher, prompt: seq<Block>, resumed: seq<ToolRound>,
                            ds: seq<Dispatch>)
    requires Sound(log, model, dispatcher, prompt, resumed) && Genuinely(dispatcher, ds)
    ensures Sound(log.(dispatches := ds), model, dispatcher, prompt, resumed)
  {
    forall i | 0 <= i < |log.requests| ensures Follows(log.(dispatches := ds), prompt, resumed, i) {
      assert Follows(log, prompt, resumed, i);
    }
  }

  /** After a nudge, or after a completed round, the next request follows. */
  lemma NextFollows(log: Log, model: Model, dispatcher: Dispatcher, prompt: seq<Block>, resumed: seq<ToolRound>,
                    next: Request, round: ToolRound)
    requires Sound(log, model, dispatcher, prompt, resumed) && |log.requests| == |log.responses| > 0
    requires
      var last, reply := log.requests[|log.requests| - 1], log.responses[|log.responses| - 1];
      && (reply.calls == [] ==> next == Request(Nudged(last.messages, reply.text), last.toolRounds, true))
      && (reply.calls != [] ==>
           && next == Request(last.messages, last.toolRounds + [round], false)
           && round.calls == reply.calls && round.assistantText == reply.text && Pairs(round.calls, round.results))
    ensures Ready(log, model, dispatcher, prompt, resumed, next)
  {
    assert Sent(log, next).requests[|log.requests|] == next;
    assert Sent(log, next).requests[|log.requests| - 1] == log.requests[|log.requests| - 1];
  }

  /** What becomes of a response without tool calls. */
  datatype Verdict = Send(text: ReplyText) | GiveUp(reason: CorrectionReason) | Correct(reason: CorrectionReason)

  method JudgeTerminalTurn(limits: Limits, patterns: Patterns, response: Response, committed: int, attempted: int,
                           corrections: nat)
    returns (verdict: Verdict)
    requires VetoesCeiling(patterns)
    ensures verdict.Send? && response.stop == EndTurn && limits.maxCorrections > 0 ==>
      !IsFalseSuccessReply(patterns, verdict.text, committed, attempted)
    ensures
      limits.maxCorrections == 0
      && ClassifyTerminalTurn(patterns, response.stop, response.text, committed, attempted) != Genuine
      ==> verdict.Send? && (response.text.Some? ==> IsFalseSuccessReply(patterns, verdict.text, committed, attempted))
    ensures verdict.GiveUp? ==> corrections >= limits.maxCorrections > 0
    ensures verdict.Correct? ==> corrections < limits.maxCorrections
    ensures !verdict.Send? ==>
      ClassifyTerminalTurn(patterns, response.stop, response.text, committed, attempted)
        == NarrationWithoutWrite(verdict.reason)
    ensures verdict.GiveUp? || verdict.Correct? ==>
      response.stop == EndTurn && committed <= 0
        && IsFalseSuccessReply(patterns, FromModel(response.text.Or("")), committed, attempted)
    ensures verdict.Send? ==> verdict.text == TerminalReplyText(response.stop, response.text)
  {
    ClassifierMatchesGuard(patterns, response.stop, response.text, committed, attempted);
    var classification := ClassifyTerminalTurn(patterns, response.stop, response.text, committed, attempted);
    if classification == Genuine {
      if response.stop == EndTurn {
        GenuineReplyPassesGuard(patterns, response.text, committed, attempted);
      }
      return Send(TerminalReplyText(response.stop, response.text));
    }
    if IsCorrectionBudgetExhausted(corrections, limits.maxCorrections) {
      if limits.maxCorrections == 0 {
        // The kill-switch: the caller's guard masks the text.
        return Send(TerminalReplyText(response.stop, response.text));
      }
      return GiveUp(classification.reason);
    }
    return Correct(classification.reason);
  }

  /** An audit row for the answer just logged keeps the trail. */
  lemma AuditGrows(log: Log, rounds: seq<AuditRound>, row: AuditRound)
    requires Audited(log, rounds) && |log.responses| == |rounds| + 1
    requires
      var response := log.responses[|rounds|];
      row.round == |rounds| && row.stop == response.stop && row.text == response.text
        && (row.correction.Some? <==> response.calls == [])
    ensures Audited(log, rounds + [row])
  {
  }

  lemma AnswerKeepsAudit(log: Log, rounds: seq<AuditRound>, request: Request, response: Response,
                         dispatches: seq<Dispatch>)
    requires Audited(log, rounds) && |log.responses| == |rounds|
    ensures Audited(Sent(log, request), rounds) && Audited(AnsweredBy(Sent(log, request), response), rounds)
    ensures Audited(AnsweredBy(Sent(log, request), response).(dispatches := dispatches), rounds)
  {
  }

  /** A round that stopped at an ask is what a suspended turn needs. */
  lemma AskSuspends(log: Log, round: ToolRound, k: nat, question: string)
    requires |log.requests| == |log.responses| > 0
    requires
      var reply := log.responses[|log.responses| - 1];
      round.calls == reply.calls && k < |reply.calls| && Pairs(reply.calls[..k], round.results)
    ensures Suspends(log, Ask(log.requests[|log.requests| - 1].toolRounds + [round], round.calls[k].id, question))
  {
  }

  /** The loop's variables. */
  datatype LoopState = LoopState(
    messages: seq<Block>,
    toolRounds: seq<ToolRound>,
    forced: bool,
    rounds: seq<AuditRound>,
    corrections: nat,
    tally: Tally)

  /** Between two round trips. */
  ghost predicate Between(env: Env, log: Log, prompt: seq<Block>, resumed: seq<ToolRound>, s: LoopState) {
    && |log.requests| == |log.responses| == |s.rounds| <= env.limits.maxToolRoundtrips && Audited(log, s.rounds)
    && Ready(log, env.model, env.dispatcher, prompt, resumed, Request(s.messages, s.toolRounds, s.forced))
    && Tallied(env, log.dispatches, s.tally)
    && ForcedRequests(log.requests) + (if s.forced then 1 else 0) == s.corrections <= env.limits.maxCorrections
    && Corrections(s.rounds) == s.corrections && Opened(log) && Judged(env, log, s.rounds)
    && RoundsRan(env, log, log.requests + [Request(s.messages, s.toolRounds, s.forced)], |log.responses|)
  }

  /** Where the dispatches of round `i` end. */
  function EndOf(log: Log, i: nat): nat {
    if i + 1 < |log.marks| then log.marks[i + 1] else |log.dispatches|
  }

  /** The dispatches made in round `i` are its first `n` calls in order, less the capped ones. */
  ghost predicate RoundRan(env: Env, log: Log, i: nat, n: nat)
    requires i < |log.responses| == |log.marks|
  {
    var from, to, calls := log.marks[i], EndOf(log, i), log.responses[i].calls;
    && from <= to <= |log.dispatches| && n <= |calls|
    && CallsOf(log.dispatches[from..to]) ==
       Dispatchable(env.registry, env.limits.maxScheduleFetches, ScheduleFetches(env.registry, log.dispatches[..from]),
         calls[..n])
  }

  /** The results fed back after round `i` report what its own dispatches returned. */
  ghost predicate RoundReported(env: Env, log: Log, i: nat, results: seq<ToolResult>)
    requires i < |log.responses| == |log.marks|
  {
    && EndOf(log, i) <= |log.dispatches|
    && AllReported(env.registry, log.responses[i].calls, results, log.dispatches[..EndOf(log, i)], log.marks[i])
  }

  ghost predicate FedBack(env: Env, log: Log, i: nat, request: Request, next: Request)
    requires i < |log.responses| == |log.marks|
  {
    log.responses[i].calls != [] && |request.toolRounds| < |next.toolRounds| ==>
      RoundReported(env, log, i, next.toolRounds[|request.toolRounds|].results)
  }

  /** Rounds `0 .. count` ran all their calls, and request `i + 1` of `requests` feeds round `i` back. */
  ghost predicate RoundsRan(env: Env, log: Log, requests: seq<Request>, count: nat) {
    && count <= |log.responses| == |log.marks|
    && (forall i :: 0 <= i < count ==> RoundRan(env, log, i, |log.responses[i].calls|))
    && (forall i :: 0 <= i < count && i + 1 < |requests| ==> FedBack(env, log, i, requests[i], requests[i + 1]))
  }

  /** The last round ran all its calls, unless it ended in an ask or an error. */
  ghost predicate LastRan(env: Env, log: Log, r: Result) {
    log.responses != [] && |log.marks| == |log.responses| ==>
      var last := |log.responses| - 1;
      && (exists n ::
           && RoundRan(env, log, last, n)
           && (r.outcome.Reply? || r.outcome.Unresolved? ==> n == |log.responses[last].calls|))
      && (r.outcome.Ask? && r.outcome.toolRounds != [] ==>
           RoundReported(env, log, last, r.outcome.toolRounds[|r.outcome.toolRounds| - 1].results))
  }

  /** An error is one of the oracles' own. */
  ghost predicate FailsRight(env: Env, log: Log, r: Result) {
    r.outcome.Failed? ==>
      || (|log.requests| == |log.responses| + 1 && env.model(|log.responses|, log.requests[|log.responses|]).None?)
      || (log.dispatches != [] && log.dispatches[|log.dispatches| - 1].outcome.None?)
  }

  /** A reply is the terminal text of the last answer, or the ceiling line once the round trips are used up. */
  predicate RepliesRight(env: Env, log: Log, r: Result) {
    r.outcome.Reply? ==>
      || (r.outcome.text == CeilingLine && |r.rounds| == |log.responses| == env.limits.maxToolRoundtrips)
      || (log.responses != [] && |r.rounds| == |log.responses| - 1 && log.responses[|log.responses| - 1].calls == []
          && r.outcome.text == TerminalReplyText(log.responses[|log.responses| - 1].stop,
            log.responses[|log.responses| - 1].text))
  }

  /** What was asked of the user is what the last dispatch asked, under that call's id. */
  predicate AsksRight(log: Log, r: Result) {
    r.outcome.Ask? ==>
      && log.dispatches != []
      && var d := log.dispatches[|log.dispatches| - 1];
         d.call.id == r.outcome.askToolUseId && d.outcome.Some? && d.outcome.value.question == Some(r.outcome.question)
  }

  /** Giving up answers a clean end of turn whose text falsely claims success. */
  predicate GivesUpRight(env: Env, log: Log, r: Result) {
    r.outcome.Unresolved? ==>
      && log.responses != []
      && var last := log.responses[|log.responses| - 1];
         last.calls == [] && last.stop == EndTurn
         && IsFalseSuccessReply(env.patterns, FromModel(last.text.Or("")), r.committedWrites, r.attemptedWrites)
  }

  /** What a turn promises, however it ends. */
  ghost predicate Kept(env: Env, log: Log, prompt: seq<Block>, resumed: seq<ToolRound>, r: Result) {
    && Sound(log, env.model, env.dispatcher, prompt, resumed)
    && |log.requests| <= env.limits.maxToolRoundtrips
    && ScheduleFetches(env.registry, log.dispatches) <= env.limits.maxScheduleFetches
    && ForcedRequests(log.requests) <= env.limits.maxCorrections
    && Ledger(env.registry, log.dispatches) == LedgerDelta(r.attemptedWrites, r.committedWrites)
    && Audited(log, r.rounds) && Opened(log) && Judged(env, log, r.rounds)
    && Corrections(r.rounds) <= env.limits.maxCorrections + (if r.outcome.Unresolved? then 1 else 0)
    && (r.outcome.Ask? ==> Suspends(log, r.outcome)) && AsksRight(log, r) && RepliesRight(env, log, r)
      && GivesUpRight(env, log, r)
    && FailsRight(env, log, r)
    && RoundsRan(env, log, log.requests, Max(0, |log.responses| - 1)) && LastRan(env, log, r)
    && (r.outcome.Unresolved? ==> r.outcome.corrections == env.limits.maxCorrections > 0 && r.committedWrites <= 0)
    && (RepliesToEndTurn(log, r) && env.limits.maxCorrections > 0 ==>
         !IsFalseSuccessReply(env.patterns, r.outcome.text, r.committedWrites, r.attemptedWrites))
  }

  /** A request that has been sent and answered, with the rest of the bookkeeping as it was before. */
  ghost predicate InRound(env: Env, log: Log, prompt: seq<Block>, resumed: seq<ToolRound>, s: LoopState,
                          response: Response) {
    && Sound(log, env.model, env.dispatcher, prompt, resumed)
    && |log.requests| == |log.responses| == |s.rounds| + 1 <= env.limits.maxToolRoundtrips && Audited(log, s.rounds)
    && log.responses[|s.rounds|] == response && log.requests[|s.rounds|] == Request(s.messages, s.toolRounds, s.forced)
    && Tallied(env, log.dispatches, s.tally)
    && ForcedRequests(log.requests) == s.corrections <= env.limits.maxCorrections
    && Corrections(s.rounds) == s.corrections && Opened(log) && Judged(env, log, s.rounds)
    && RoundsRan(env, log, log.requests, |s.rounds|) && log.marks[|s.rounds|] == |log.dispatches|
  }

  lemma MarksMatch(env: Env, log: Log, requests: seq<Request>, count: nat)
    requires RoundsRan(env, log, requests, count)
    ensures |log.marks| == |log.responses|
  {
    hide RoundRan, FedBack;
  }

  /** A response comes in: the rounds before it are as they were. */
  lemma RoundsStand(env: Env, log: Log, request: Request, response: Response)
    requires RoundsRan(env, log, log.requests + [request], |log.responses|) && |log.requests| == |log.responses|
    ensures RoundsRan(env, Sent(log, request), Sent(log, request).requests, |log.responses|)
    ensures RoundsRan(env, AnsweredBy(Sent(log, request), response), Sent(log, request).requests, |log.responses|)
  {
    hide AllReported, Dispatchable, ScheduleFetches, CallsOf;
    var sent := Sent(log, request);
    var answered := AnsweredBy(sent, response);
    forall i | 0 <= i < |log.responses|
      ensures EndOf(answered, i) == EndOf(sent, i) == EndOf(log, i) && answered.marks[i] == log.marks[i] {}
    forall i | 0 <= i < |log.responses|
      ensures RoundRan(env, answered, i, |answered.responses[i].calls|)
      ensures RoundRan(env, sent, i, |sent.responses[i].calls|)
    {
      assert RoundRan(env, log, i, |log.responses[i].calls|);
    }
    forall i | 0 <= i < |log.responses| && i + 1 < |sent.requests|
      ensures FedBack(env, answered, i, sent.requests[i], sent.requests[i + 1])
      ensures FedBack(env, sent, i, sent.requests[i], sent.requests[i + 1])
    {
      assert FedBack(env, log, i, sent.requests[i], sent.requests[i + 1]);
    }
  }

  /** Dispatching the last round's calls leaves the earlier rounds as they were. */
  lemma RoundsStandBefore(env: Env, log: Log, requests: seq<Request>, count: nat, ds: seq<Dispatch>)
    requires RoundsRan(env, log, requests, count) && count < |log.responses| && log.dispatches <= ds
    ensures RoundsRan(env, log.(dispatches := ds), requests, count)
  {
    hide AllReported, Dispatchable, ScheduleFetches, CallsOf;
    var log' := log.(dispatches := ds);
    forall i | 0 <= i < count
      ensures EndOf(log', i) == EndOf(log, i) <= |log.dispatches| && log.marks[i] <= EndOf(log, i)
      ensures ds[log.marks[i]..EndOf(log, i)] == log.dispatches[log.marks[i]..EndOf(log, i)]
      ensures ds[..log.marks[i]] == log.dispatches[..log.marks[i]]
      ensures ds[..EndOf(log, i)] == log.dispatches[..EndOf(log, i)]
      ensures RoundRan(env, log', i, |log'.responses[i].calls|)
    {
      assert RoundRan(env, log, i, |log.responses[i].calls|);
    }
    forall i | 0 <= i < count && i + 1 < |requests| ensures FedBack(env, log', i, requests[i], requests[i + 1]) {
      assert FedBack(env, log, i, requests[i], requests[i + 1]);
    }
  }

  /** The last round has run and is fed back by the next request. */
  lemma OneMoreRound(env: Env, log: Log, requests: seq<Request>, next: Request)
    requires |requests| == |log.responses| > 0 && RoundsRan(env, log, requests, |log.responses| - 1)
    requires RoundRan(env, log, |log.responses| - 1, |log.responses[|log.responses| - 1].calls|)
    requires FedBack(env, log, |log.responses| - 1, requests[|requests| - 1], next)
    ensures RoundsRan(env, log, requests + [next], |log.responses|)
  {
    hide RoundRan, FedBack;
    var all := requests + [next];
    forall i | 0 <= i < |log.responses| && i + 1 < |all| ensures FedBack(env, log, i, all[i], all[i + 1]) {
      if i < |log.responses| - 1 {
        assert FedBack(env, log, i, requests[i], requests[i + 1]);
      }
    }
  }

  lemma FewerRounds(env: Env, log: Log, requests: seq<Request>, more: seq<Request>, count: nat, fewer: nat)
    requires RoundsRan(env, log, requests + more, count) && fewer <= count
    ensures RoundsRan(env, log, requests, fewer)
    ensures forall i :: 0 <= i < count ==> RoundRan(env, log, i, |log.responses[i].calls|)
  {
    hide RoundRan, FedBack;
    forall i | 0 <= i < fewer && i + 1 < |requests| ensures FedBack(env, log, i, requests[i], requests[i + 1]) {
      assert FedBack(env, log, i, (requests + more)[i], (requests + more)[i + 1]);
    }
  }

  /** A response without calls dispatches nothing. */
  lemma QuietRound(env: Env, log: Log)
    requires log.responses != [] && |log.marks| == |log.responses|
    requires log.responses[|log.responses| - 1].calls == [] && log.marks[|log.marks| - 1] == |log.dispatches|
    ensures RoundRan(env, log, |log.responses| - 1, 0)
  {
    hide ScheduleFetches;
  }

  /** A round's dispatches as the log records them. */
  lemma RoundLogged(env: Env, log: Log, ds: seq<Dispatch>, calls: seq<ToolCall>, n: nat, end: RoundEnd,
                    results: seq<ToolResult>)
    requires log.responses != [] && |log.marks| == |log.responses|
    requires log.responses[|log.responses| - 1].calls == calls && log.marks[|log.marks| - 1] == |log.dispatches|
    requires RanCalls(env, log.dispatches, ds, calls, n, end)
    requires AllReported(env.registry, calls, results, ds, |log.dispatches|)
    ensures RoundRan(env, log.(dispatches := ds), |log.responses| - 1, n)
    ensures RoundReported(env, log.(dispatches := ds), |log.responses| - 1, results)
  {
    hide ScheduleFetches, Dispatchable, CallsOf, AllReported;
    assert ds[..|log.dispatches|] == log.dispatches && ds[..|ds|] == ds
      && ds[|log.dispatches|..|ds|] == ds[|log.dispatches|..];
  }

  /** A response without tool calls: the turn ends, or the model is nudged once more. */
  method EndOrCorrect(env: Env, ghost log: Log, ghost prompt: seq<Block>, ghost resumed: seq<ToolRound>, s: LoopState,
                      response: Response)
    returns (next: LoopState, r: Option<Result>)
    requires VetoesCeiling(env.patterns) && InRound(env, log, prompt, resumed, s, response) && response.calls == []
    ensures r.Some? ==> Kept(env, log, prompt, resumed, r.value)
    ensures r.None? ==> Between(env, log, prompt, resumed, next) && |next.rounds| == |s.rounds| + 1
  {
    hide Sound, Ready, Audited, Suspends, Nudged, ForcedRequests, ScheduleFetches, Ledger, Genuinely, VetoesCeiling,
      TerminalReplyText, Corrections, Opened, ClassifyTerminalTurn, IsFalseSuccessReply;
    next := s;
    QuietRound(env, log);
    hide RoundsRan, RoundRan, RoundReported;
    var verdict := JudgeTerminalTurn(env.limits, env.patterns, response, s.tally.committed, s.tally.attempted,
      s.corrections);
    if verdict.Send? {
      return s, Some(Result(Reply(verdict.text), s.rounds, s.tally.committed, s.tally.attempted));
    }
    var row := AuditRound(|s.rounds|, response.stop, response.text, 0, Some(verdict.reason));
    AuditGrows(log, s.rounds, row);
    CorrectionsGrow(s.rounds, row);
    assert log.dispatches[..|log.dispatches|] == log.dispatches;
    JudgedGrows(env, log, s.rounds, row);
    if verdict.GiveUp? {
      return s, Some(Result(Unresolved(s.corrections), s.rounds + [row], s.tally.committed, s.tally.attempted));
    }
    next := s.(messages := Nudged(s.messages, response.text), forced := true, rounds := s.rounds + [row],
      corrections := s.corrections + 1);
    NextFollows(log, env.model, env.dispatcher, prompt, resumed, Request(next.messages, next.toolRounds, true),
      ToolRound([], [], None));
    OneMoreRound(env, log, log.requests, Request(next.messages, next.toolRounds, true));
    return next, None;
  }

  /** A round whose first `n` calls have been dispatched, with the rest of the bookkeeping as it was before. */
  ghost predicate RoundDone(env: Env, log: Log, prompt: seq<Block>, resumed: seq<ToolRound>, s: LoopState,
                            response: Response,
                            n: nat, results: seq<ToolResult>, t: Tally)
  {
    && Sound(log, env.model, env.dispatcher, prompt, resumed)
    && |log.requests| == |log.responses| == |log.marks| == |s.rounds| + 1 <= env.limits.maxToolRoundtrips
    && Audited(log, s.rounds)
    && log.responses[|s.rounds|] == response && log.requests[|s.rounds|] == Request(s.messages, s.toolRounds, s.forced)
    && Tallied(env, log.dispatches, t)
    && ForcedRequests(log.requests) == s.corrections <= env.limits.maxCorrections
    && Corrections(s.rounds) == s.corrections && Opened(log) && Judged(env, log, s.rounds)
    && RoundsRan(env, log, log.requests, |s.rounds|)
    && RoundRan(env, log, |s.rounds|, n) && RoundReported(env, log, |s.rounds|, results)
  }

  lemma RoundIsDone(env: Env, log: Log, prompt: seq<Block>, resumed: seq<ToolRound>, s: LoopState, response: Response,
                    ds: seq<Dispatch>, n: nat, end: RoundEnd, results: seq<ToolResult>, t: Tally)
    requires InRound(env, log, prompt, resumed, s, response) && Tallied(env, ds, t) && log.dispatches <= ds
    requires RanCalls(env, log.dispatches, ds, response.calls, n, end)
    requires AllReported(env.registry, response.calls, results, ds, |log.dispatches|)
    ensures RoundDone(env, log.(dispatches := ds), prompt, resumed, s, response, n, results, t)
  {
    hide Sound, Audited, ForcedRequests, ScheduleFetches, Ledger, Genuinely, Corrections, RanCalls, AllReported;
    MarksMatch(env, log, log.requests, |s.rounds|);
    RoundLogged(env, log, ds, response.calls, n, end, results);
    RoundsStandBefore(env, log, log.requests, |s.rounds|, ds);
    hide RoundsRan, RoundRan, RoundReported;
    DispatchesKeepSound(log, env.model, env.dispatcher, prompt, resumed, ds);
    DispatchesKeepAudit(log, s.rounds, ds);
    JudgedStands(env, log, s.rounds, log.requests, response, ds);
    hide Judged;
  }

  /** An error of the dispatcher ends the turn. */
  lemma ErrorKeeps(env: Env, log: Log, prompt: seq<Block>, resumed: seq<ToolRound>, s: LoopState, response: Response,
                   n: nat, results: seq<ToolResult>, t: Tally)
    requires RoundDone(env, log, prompt, resumed, s, response, n, results, t)
    requires log.dispatches != [] && log.dispatches[|log.dispatches| - 1].outcome.None?
    ensures Kept(env, log, prompt, resumed, Result(Failed, s.rounds, t.committed, t.attempted))
  {
    hide Sound, Audited, ForcedRequests, ScheduleFetches, Ledger, Genuinely, Corrections, Opened, RoundsRan, RoundRan,
      RoundReported;
  }

  /** An ask suspends the turn. */
  lemma AskKeeps(env: Env, log: Log, prompt: seq<Block>, resumed: seq<ToolRound>, s: LoopState, response: Response,
                 n: nat, results: seq<ToolResult>, t: Tally, row: AuditRound, k: nat, question: string)
    requires RoundDone(env, log, prompt, resumed, s, response, n, results, t) && response.calls != []
    requires EndedLast(response.calls, Asked(k, question), log.dispatches) && Pairs(response.calls[..k], results)
    requires row == AuditRound(|s.rounds|, response.stop, response.text, row.steps, None)
    ensures
      var round := ToolRound(response.calls, results, response.text);
      Kept(env, log, prompt, resumed,
        Result(Ask(s.toolRounds + [round], response.calls[k].id, question), s.rounds + [row], t.committed, t.attempted))
  {
    hide Sound, Audited, Suspends, ForcedRequests, ScheduleFetches, Ledger, Genuinely, Pairs, Corrections, Opened,
      RoundsRan, RoundRan, RoundReported;
    AuditGrows(log, s.rounds, row);
    CorrectionsGrow(s.rounds, row);
    JudgedGrows(env, log, s.rounds, row);
    AskSuspends(log, ToolRound(response.calls, results, response.text), k, question);
  }

  /** A completed round is fed back. */
  lemma RoundGoesOn(env: Env, log: Log, prompt: seq<Block>, resumed: seq<ToolRound>, s: LoopState, response: Response,
                    results: seq<ToolResult>, t: Tally, row: AuditRound)
    requires RoundDone(env, log, prompt, resumed, s, response, |response.calls|, results, t) && response.calls != []
    requires Pairs(response.calls, results)
    requires row == AuditRound(|s.rounds|, response.stop, response.text, row.steps, None)
    ensures
      var round := ToolRound(response.calls, results, response.text);
      Between(env, log, prompt, resumed,
        LoopState(s.messages, s.toolRounds + [round], false, s.rounds + [row], s.corrections, t))
  {
    hide Sound, Ready, Audited, ForcedRequests, ScheduleFetches, Ledger, Genuinely, Pairs, Corrections, Opened,
      RoundsRan, RoundRan, RoundReported;
    var round := ToolRound(response.calls, results, response.text);
    var request := Request(s.messages, s.toolRounds + [round], false);
    AuditGrows(log, s.rounds, row);
    CorrectionsGrow(s.rounds, row);
    JudgedGrows(env, log, s.rounds, row);
    NextFollows(log, env.model, env.dispatcher, prompt, resumed, request, round);
    OneMoreRound(env, log, log.requests, request);
  }

  /** A response with tool calls: they are dispatched, and the round is fed back or suspended. */
  method DispatchRound(env: Env, log: Log, ghost prompt: seq<Block>, ghost resumed: seq<ToolRound>, s: LoopState,
                       response: Response)
    returns (next: LoopState, r: Option<Result>, after: Log)
    requires InRound(env, log, prompt, resumed, s, response) && response.calls != []
    ensures r.Some? ==> Kept(env, after, prompt, resumed, r.value)
    ensures r.None? ==> Between(env, after, prompt, resumed, next) && |next.rounds| == |s.rounds| + 1
  {
    next, after := s, log;
    var end, results, steps, t;
    var dispatches;
    end, results, steps, t, dispatches := RunCalls(env, response.calls, s.tally, log.dispatches);
    ghost var n :| RanCalls(env, log.dispatches, dispatches, response.calls, n, end);
    assert end.Completed? ==> n == |response.calls|;
    assert end.Asked? ==> end.k < |response.calls|;
    hide InRound, RoundDone, Kept, Between, Tallied, RanCalls, AllReported, Pairs;
    RoundIsDone(env, log, prompt, resumed, s, response, dispatches, n, end, results, t);
    after := log.(dispatches := dispatches);
    if end.Threw? {
      ErrorKeeps(env, after, prompt, resumed, s, response, n, results, t);
      r := Some(Result(Failed, s.rounds, t.committed, t.attempted));
      return;
    }
    var row := AuditRound(|s.rounds|, response.stop, response.text, steps, None);
    var round := ToolRound(response.calls, results, response.text);
    if end.Asked? {
      AskKeeps(env, after, prompt, resumed, s, response, n, results, t, row, end.k, end.question);
      r := Some(Result(Ask(s.toolRounds + [round], response.calls[end.k].id, end.question), s.rounds + [row],
        t.committed, t.attempted));
      return;
    }
    RoundGoesOn(env, after, prompt, resumed, s, response, results, t, row);
    next := LoopState(s.messages, s.toolRounds + [round], false, s.rounds + [row], s.corrections, t);
    r := None;
  }

  lemma DispatchesKeepAudit(log: Log, rounds: seq<AuditRound>, dispatches: seq<Dispatch>)
    requires Audited(log, rounds)
    ensures Audited(log.(dispatches := dispatches), rounds)
    ensures Opened(log) && log.marks != [] ==> Opened(log.(dispatches := dispatches))
  {
  }

  /** An answer opens the round. */
  lemma AnswerEnters(env: Env, log: Log, prompt: seq<Block>, resumed: seq<ToolRound>, s: LoopState, response: Response)
    requires Between(env, log, prompt, resumed, s) && |s.rounds| < env.limits.maxToolRoundtrips
    requires env.model(|s.rounds|, Request(s.messages, s.toolRounds, s.forced)) == Some(response)
    ensures InRound(env, AnsweredBy(Sent(log, Request(s.messages, s.toolRounds, s.forced)), response), prompt, resumed,
      s, response)
  {
    hide Sound, Ready, Audited, ForcedRequests, ScheduleFetches, Ledger, Genuinely, Corrections;
    var request := Request(s.messages, s.toolRounds, s.forced);
    MarksMatch(env, log, log.requests + [request], |log.responses|);
    SendKeepsSound(log, env.model, env.dispatcher, prompt, resumed, request);
    AnswerKeepsSound(Sent(log, request), env.model, env.dispatcher, prompt, resumed, response);
    AnswerKeepsAudit(log, s.rounds, request, response, log.dispatches);
    JudgedStands(env, log, s.rounds, log.requests + [request], response, log.dispatches);
    hide RoundRan, FedBack, Judged;
    RoundsStand(env, log, request, response);
    hide RoundsRan;
  }

  /** An error of the model ends the turn. */
  lemma NoAnswerKeeps(env: Env, log: Log, prompt: seq<Block>, resumed: seq<ToolRound>, s: LoopState)
    requires Between(env, log, prompt, resumed, s) && |s.rounds| < env.limits.maxToolRoundtrips
    requires env.model(|s.rounds|, Request(s.messages, s.toolRounds, s.forced)).None?
    ensures Kept(env, Sent(log, Request(s.messages, s.toolRounds, s.forced)), prompt, resumed,
      Result(Failed, s.rounds, s.tally.committed, s.tally.attempted))
  {
    hide Sound, Ready, Audited, ForcedRequests, ScheduleFetches, Ledger, Genuinely, Corrections, RoundRan, FedBack;
    var request := Request(s.messages, s.toolRounds, s.forced);
    var after := Sent(log, request);
    SendKeepsSound(log, env.model, env.dispatcher, prompt, resumed, request);
    AnswerKeepsAudit(log, s.rounds, request, Response(EndTurn, None, []), log.dispatches);
    JudgedStands(env, log, s.rounds, log.requests + [request], Response(EndTurn, None, []), log.dispatches);
    hide Judged;
    RoundsStand(env, log, request, Response(EndTurn, None, []));
    assert after.requests + [] == after.requests;
    FewerRounds(env, after, after.requests, [], |log.responses|, Max(0, |log.responses| - 1));
    assert after.responses != [] ==> RoundRan(env, after, |after.responses| - 1,
      |after.responses[|after.responses| - 1].calls|);
    hide RoundsRan;
  }

  /** Sends the next request; a thrown model call ends the turn. */
  method AskModel(env: Env, log: Log, ghost prompt: seq<Block>, ghost resumed: seq<ToolRound>, s: LoopState)
    returns (response: Option<Response>, after: Log)
    requires Between(env, log, prompt, resumed, s) && |s.rounds| < env.limits.maxToolRoundtrips
    ensures response.Some? ==> InRound(env, after, prompt, resumed, s, response.value)
    ensures response.None? ==>
      Kept(env, after, prompt, resumed, Result(Failed, s.rounds, s.tally.committed, s.tally.attempted))
  {
    hide Between, InRound, Kept;
    var request := Request(s.messages, s.toolRounds, s.forced);
    response := env.model(|s.rounds|, request);
    after := Sent(log, request);
    if response.Some? {
      AnswerEnters(env, log, prompt, resumed, s, response.value);
      after := AnsweredBy(after, response.value);
    } else {
      NoAnswerKeeps(env, log, prompt, resumed, s);
    }
  }

  /**
   * One turn. Whatever the model and the dispatcher do: the round trips, schedule
   * fetches and corrections stay within their limits; forced choice only follows a
   * nudge; every completed round pairs its results to its calls, and a suspended one
   * pairs exactly the calls before the ask; the ledger is the dispatches'; and a clean
   * end of turn is never answered with a false claim while re-drive is on.
   */
  method Run(env: Env, prompt: Option<seq<Block>>, resumed: seq<ToolRound>) returns (r: Result, log: Log)
    requires VetoesCeiling(env.patterns)
    ensures prompt.None? ==> r.outcome == Failed && log == Log([], [], [], [])
    ensures prompt.Some? ==> Kept(env, log, prompt.value, resumed, r)
  {
    log := Log([], [], [], []);
    if prompt.None? {
      return Result(Failed, [], 0, 0), log;
    }
    var s := LoopState(prompt.value, resumed, false, [], 0, Tally(0, 0, 0, 0));
    hide Sound, Ready, Audited, Suspends, ForcedRequests, ScheduleFetches, Ledger, Genuinely, InRound, Kept, Tallied,
      VetoesCeiling;
    StartsBetween(env, prompt.value, resumed);
    while |s.rounds| < env.limits.maxToolRoundtrips
      invariant Between(env, log, prompt.value, resumed, s)
      decreases env.limits.maxToolRoundtrips - |s.rounds|
    {
      var response;
      response, log := AskModel(env, log, prompt.value, resumed, s);
      if response.None? {
        return Result(Failed, s.rounds, s.tally.committed, s.tally.attempted), log;
      }
      var done;
      if response.value.calls == [] {
        s, done := EndOrCorrect(env, log, prompt.value, resumed, s, response.value);
      } else {
        s, done, log := DispatchRound(env, log, prompt.value, resumed, s, response.value);
      }
      if done.Some? {
        return done.value, log;
      }
    }
    CeilingKeeps(env, log, prompt.value, resumed, s);
    return Result(Reply(CeilingLine), s.rounds, s.tally.committed, s.tally.attempted), log;
  }

  lemma StartsBetween(env: Env, prompt: seq<Block>, resumed: seq<ToolRound>)
    ensures Between(env, Log([], [], [], []), prompt, resumed,
      LoopState(prompt, resumed, false, [], 0, Tally(0, 0, 0, 0)))
  {
    FirstFollows(env.model, env.dispatcher, prompt, resumed);
    hide Ready;
  }

  lemma CeilingKeeps(env: Env, log: Log, prompt: seq<Block>, resumed: seq<ToolRound>, s: LoopState)
    requires VetoesCeiling(env.patterns) && Between(env, log, prompt, resumed, s)
    requires |s.rounds| == env.limits.maxToolRoundtrips
    ensures Kept(env, log, prompt, resumed, Result(Reply(CeilingLine), s.rounds, s.tally.committed, s.tally.attempted))
  {
    hide Sound, Audited, ForcedRequests, ScheduleFetches, Ledger, Genuinely, RoundsRan, RoundRan;
    FewerRounds(env, log, log.requests, [Request(s.messages, s.toolRounds, s.forced)], |log.responses|,
      Max(0, |log.responses| - 1));
    ReadyIsSound(log, env.model, env.dispatcher, prompt, resumed, Request(s.messages, s.toolRounds, s.forced));
  }

  lemma FirstFollows(model: Model, dispatcher: Dispatcher, prompt: seq<Block>, resumed: seq<ToolRound>)
    ensures Ready(Log([], [], [], []), model, dispatcher, prompt, resumed, Request(prompt, resumed, false))
    ensures Genuinely(dispatcher, [])
  {
  }

  lemma ReadyIsSound(log: Log, model: Model, dispatcher: Dispatcher, prompt: seq<Block>, resumed: seq<ToolRound>,
                     next: Request)
    requires Ready(log, model, dispatcher, prompt, resumed, next)
    ensures Sound(log, model, dispatcher, prompt, resumed)
  {
  }

  /**
   * With a dispatcher that counts honestly, a turn never has more commits than
   * attempts, and one given up as unresolved has saved nothing at all.
   */
  lemma CommittedWithinAttempted(env: Env, log: Log, prompt: seq<Block>, resumed: seq<ToolRound>, r: Result)
    requires CountsObey(env.registry, env.dispatcher) && Kept(env, log, prompt, resumed, r)
    ensures 0 <= r.committedWrites <= r.attemptedWrites
    ensures r.outcome.Unresolved? ==> r.committedWrites == 0
  {
    LedgerObeys(env.registry, env.dispatcher, log.dispatches);
  }

  // --- the kill-switch: a correction budget of 0 -----------------------------------------------

  /** A model that ends every turn with these words and no tool call. */
  function Insisting(words: string): Model {
    (n: nat, request: Request) => Some(Response(EndTurn, Some(words), []))
  }

  /** Against a model that never calls a tool nothing is dispatched. */
  lemma QuietTurn(env: Env, log: Log, prompt: seq<Block>, resumed: seq<ToolRound>, r: Result)
    requires Kept(env, log, prompt, resumed, r)
    requires forall i :: 0 <= i < |log.responses| ==> log.responses[i].calls == []
    requires |log.responses| <= 1
    ensures log.dispatches == []
  {
    hide Sound, Audited, Suspends, ForcedRequests, ScheduleFetches, Ledger, RoundReported, RoundsRan, Corrections;
    assert |log.marks| == |log.responses| by { MarksMatch(env, log, log.requests, Max(0, |log.responses| - 1)); }
    if log.responses != [] {
      var n :| RoundRan(env, log, 0, n);
      assert CallsOf(log.dispatches[0..|log.dispatches|]) == [];
    }
  }

  /** With a budget of 0 such a turn is one round trip, whose words are relayed as the reply. */
  lemma KillSwitchRelays(env: Env, words: string, log: Log, prompt: seq<Block>, resumed: seq<ToolRound>, r: Result)
    requires env.limits.maxCorrections == 0 < env.limits.maxToolRoundtrips && env.model == Insisting(words)
    requires Kept(env, log, prompt, resumed, r)
    ensures r.outcome == Reply(FromModel(words)) && RepliesToEndTurn(log, r)
    ensures r.committedWrites == r.attemptedWrites == 0
  {
    hide RoundsRan, LastRan, RoundRan, Suspends;
    SecondIsForced(log, env.model, env.dispatcher, prompt, resumed);
    FirstIsMarked(r.rounds);
    forall i | 0 <= i < |log.responses| ensures log.responses[i] == Response(EndTurn, Some(words), []) {
      assert env.model(i, log.requests[i]) == Some(log.responses[i]);
    }
    QuietTurn(env, log, prompt, resumed, r);
  }

  lemma SecondIsForced(log: Log, model: Model, dispatcher: Dispatcher, prompt: seq<Block>, resumed: seq<ToolRound>)
    requires Sound(log, model, dispatcher, prompt, resumed)
    ensures |log.requests| > 1 && log.responses[0].calls == [] ==> ForcedRequests(log.requests) > 0
  {
    if |log.requests| > 1 && log.responses[0].calls == [] {
      assert Follows(log, prompt, resumed, 1);
      ForcedOnce(log.requests, 1);
    }
  }

  lemma {:induction false} FirstIsMarked(rounds: seq<AuditRound>)
    ensures rounds != [] && rounds[0].correction.Some? ==> Corrections(rounds) > 0
  {
    if |rounds| > 1 {
      FirstIsMarked(rounds[..|rounds| - 1]);
    }
  }

  lemma {:induction false} ForcedOnce(requests: seq<Request>, i: nat)
    requires i < |requests| && requests[i].forced
    ensures ForcedRequests(requests) > 0
  {
    if i < |requests| - 1 {
      ForcedOnce(requests[..|requests| - 1], i);
    }
  }

  /** The reply to a clean end of turn does not falsely claim success. */
  predicate EndsHonestly(env: Env, log: Log, r: Result) {
    RepliesToEndTurn(log, r) ==>
      !IsFalseSuccessReply(env.patterns, r.outcome.text, r.committedWrites, r.attemptedWrites)
  }

  /**
   * Every such reply is honest, whatever the model and the dispatcher do, exactly when
   * corrections are allowed (or no round trip is): `words` is any text that reads as a
   * claim and matches no veto.
   */
  lemma HonestExactlyWithBudget(limits: Limits, registry: Registry, patterns: Patterns, prompt: seq<Block>,
                                resumed: seq<ToolRound>, words: string)
    requires patterns.claim(FromModel(words)) && !patterns.veto(FromModel(words))
    ensures
      (forall model, dispatcher, log, r ::
        Kept(Env(limits, registry, patterns, model, dispatcher), log, prompt, resumed, r)
        ==> EndsHonestly(Env(limits, registry, patterns, model, dispatcher), log, r))
      <==> limits.maxCorrections > 0 || limits.maxToolRoundtrips == 0
  {
    if limits.maxCorrections == 0 < limits.maxToolRoundtrips {
      var env := Env(limits, registry, patterns, Insisting(words), (n: nat, call: ToolCall) => None);
      var log, r := OneTripTurn(env, prompt, resumed, words);
      assert !EndsHonestly(env, log, r) by {
        hide Kept;
      }
    }
    forall model, dispatcher, log, r | Kept(Env(limits, registry, patterns, model, dispatcher), log, prompt, resumed, r)
      && (limits.maxCorrections > 0 || limits.maxToolRoundtrips == 0)
      ensures EndsHonestly(Env(limits, registry, patterns, model, dispatcher), log, r)
    {
      hide RoundsRan, LastRan, Suspends, Audited;
    }
  }

  /** The turn `KillSwitchRelays` speaks of, written out. */
  lemma OneTripTurn(env: Env, prompt: seq<Block>, resumed: seq<ToolRound>, words: string) returns (log: Log, r: Result)
    requires env.limits.maxCorrections == 0 < env.limits.maxToolRoundtrips && env.model == Insisting(words)
    ensures Kept(env, log, prompt, resumed, r)
    ensures r == Result(Reply(FromModel(words)), [], 0, 0) && RepliesToEndTurn(log, r)
  {
    log := Log([Request(prompt, resumed, false)], [Response(EndTurn, Some(words), [])], [], [0]);
    r := Result(Reply(FromModel(words)), [], 0, 0);
    QuietRound(env, log);
    assert ForcedRequests(log.requests[..0]) == 0;
    assert Follows(log, prompt, resumed, 0);
    hide RoundRan;
  }

  /** Every round of a sound log's requests is paired, if the resumed ones were. */
  lemma {:induction false} RequestsArePaired(model: Model, dispatcher: Dispatcher, prompt: seq<Block>,
                                             resumed: seq<ToolRound>, log: Log, i: nat)
    requires Sound(log, model, dispatcher, prompt, resumed) && AllPaired(resumed) && i < |log.requests|
    ensures AllPaired(log.requests[i].toolRounds)
  {
    assert Follows(log, prompt, resumed, i);
    if i > 0 {
      RequestsArePaired(model, dispatcher, prompt, resumed, log, i - 1);
      var rounds, last := log.requests[i].toolRounds, log.requests[i - 1].toolRounds;
      forall j | 0 <= j < |rounds| ensures Pairs(rounds[j].calls, rounds[j].results) {
        if j < |last| {
          assert rounds[j] == last[j];
        }
      }
    }
  }
}
