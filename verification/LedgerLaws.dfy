/**
 * What the counters of a turn count, and what a saved write settles: once a change is
 * made, nothing the model says about it is taken for a false claim.
 */
module LedgerLaws {
  import opened Wrappers
  import opened TurnHonesty
  import opened ToolLoop

  // --- what a dispatch adds -------------------------------------------------------------------

  /** A call of a write tool that came back with a result. */
  predicate IsWrite(registry: Registry, d: Dispatch) {
    d.call.name in registry.write && d.outcome.Some? && d.outcome.value.question.None?
  }

  /** A write tool that makes one change and reports no counts. */
  predicate IsSingle(d: Dispatch) {
    d.outcome.Some? && d.outcome.value.attemptedCount.None? && d.outcome.value.committedCount.None?
  }

  /** A single write is saved when its result is no error. */
  predicate IsSaved(registry: Registry, d: Dispatch) {
    IsWrite(registry, d) && IsSingle(d) && !d.outcome.value.isError
  }

  /** A saved single write is one attempt and one commit, a failed one is one attempt; a batch counts as it says. */
  lemma DispatchCounts(registry: Registry, d: Dispatch)
    ensures IsSaved(registry, d) ==> DeltaOf(registry, d) == LedgerDelta(1, 1)
    ensures IsWrite(registry, d) && IsSingle(d) && !IsSaved(registry, d) ==> DeltaOf(registry, d) == LedgerDelta(1, 0)
    ensures IsWrite(registry, d) && d.outcome.value.attemptedCount.Some? ==>
      DeltaOf(registry, d).attempted == d.outcome.value.attemptedCount.value
    ensures IsWrite(registry, d) && d.outcome.value.committedCount.Some? ==>
      DeltaOf(registry, d).committed == d.outcome.value.committedCount.value
    ensures !IsWrite(registry, d) ==> DeltaOf(registry, d) == LedgerDelta(0, 0)
  {
  }

  // --- counters as sizes of sets ------------------------------------------------------------------

  lemma OneMoreIndex(small: set<int>, all: set<int>, n: int, hit: bool)
    requires n !in small && all == if hit then small + {n} else small
    ensures |all| == |small| + if hit then 1 else 0
  {
  }

  ghost function Fetches(registry: Registry, ds: seq<Dispatch>): set<int> {
    set i | 0 <= i < |ds| && ds[i].call.name in registry.scheduleFetch
  }

  /** The fetch counter is the number of dispatched calls of schedule-fetch tools. */
  lemma {:induction false} FetchesCounted(registry: Registry, ds: seq<Dispatch>)
    ensures ScheduleFetches(registry, ds) == |Fetches(registry, ds)|
  {
    if ds != [] {
      var n := |ds| - 1;
      FetchesCounted(registry, ds[..n]);
      assert Fetches(registry, ds[..n]) + (if ds[n].call.name in registry.scheduleFetch then {n} else {})
        == Fetches(registry, ds);
      OneMoreIndex(Fetches(registry, ds[..n]), Fetches(registry, ds), n, ds[n].call.name in registry.scheduleFetch);
    }
  }

  ghost function Forced(requests: seq<Request>): set<int> {
    set i | 0 <= i < |requests| && requests[i].forced
  }

  /** The forced-choice counter is the number of forced requests. */
  lemma {:induction false} ForcedCounted(requests: seq<Request>)
    ensures ForcedRequests(requests) == |Forced(requests)|
  {
    if requests != [] {
      var n := |requests| - 1;
      ForcedCounted(requests[..n]);
      assert Forced(requests[..n]) + (if requests[n].forced then {n} else {}) == Forced(requests);
      OneMoreIndex(Forced(requests[..n]), Forced(requests), n, requests[n].forced);
    }
  }

  ghost function Narrations(rounds: seq<AuditRound>): set<int> {
    set i | 0 <= i < |rounds| && rounds[i].correction.Some?
  }

  /** The correction counter is the number of narrations marked in the audit trail. */
  lemma {:induction false} CorrectionsCounted(rounds: seq<AuditRound>)
    ensures Corrections(rounds) == |Narrations(rounds)|
  {
    if rounds != [] {
      var n := |rounds| - 1;
      CorrectionsCounted(rounds[..n]);
      assert Narrations(rounds[..n]) + (if rounds[n].correction.Some? then {n} else {}) == Narrations(rounds);
      OneMoreIndex(Narrations(rounds[..n]), Narrations(rounds), n, rounds[n].correction.Some?);
    }
  }

  ghost function Writes(registry: Registry, ds: seq<Dispatch>): set<int> {
    set i | 0 <= i < |ds| && IsWrite(registry, ds[i])
  }

  ghost function Saves(registry: Registry, ds: seq<Dispatch>): set<int> {
    set i | 0 <= i < |ds| && IsSaved(registry, ds[i])
  }

  lemma OneMoreWrite(registry: Registry, ds: seq<Dispatch>, d: Dispatch)
    ensures |Writes(registry, ds + [d])| == |Writes(registry, ds)| + if IsWrite(registry, d) then 1 else 0
    ensures |Saves(registry, ds + [d])| == |Saves(registry, ds)| + if IsSaved(registry, d) then 1 else 0
  {
    hide IsWrite, IsSaved;
    OneMoreIndex(Writes(registry, ds), Writes(registry, ds + [d]), |ds|, IsWrite(registry, d));
    OneMoreIndex(Saves(registry, ds), Saves(registry, ds + [d]), |ds|, IsSaved(registry, d));
  }

  /** With single writes only, the ledger is the number of writes that came back and the number of those saved. */
  lemma {:induction false} SingleWritesCounted(registry: Registry, ds: seq<Dispatch>)
    requires forall i :: 0 <= i < |ds| && IsWrite(registry, ds[i]) ==> IsSingle(ds[i])
    ensures Ledger(registry, ds) == LedgerDelta(|Writes(registry, ds)|, |Saves(registry, ds)|)
  {
    if ds != [] {
      hide IsWrite, IsSingle, DeltaOf, Writes, Saves;
      var before, d := ds[..|ds| - 1], ds[|ds| - 1];
      SingleWritesCounted(registry, before);
      OneMoreWrite(registry, before, d);
      assert ds == before + [d];
      SingleWriteDelta(registry, d);
    }
  }

  lemma SingleWriteDelta(registry: Registry, d: Dispatch)
    requires IsWrite(registry, d) ==> IsSingle(d)
    ensures DeltaOf(registry, d) ==
      LedgerDelta(if IsWrite(registry, d) then 1 else 0, if IsSaved(registry, d) then 1 else 0)
  {
    DispatchCounts(registry, d);
  }

  // --- a saved write settles the turn -----------------------------------------------------------------

  /** From a saved single write on, the ledger has a commit. */
  lemma {:induction false} SavedWriteCommits(registry: Registry, dispatcher: Dispatcher, ds: seq<Dispatch>, i: nat)
    requires CountsObey(registry, dispatcher) && Genuinely(dispatcher, ds) && i < |ds| && IsSaved(registry, ds[i])
    ensures Ledger(registry, ds).committed >= 1
  {
    var n := |ds| - 1;
    LedgerObeys(registry, dispatcher, ds[..n]);
    DispatchCounts(registry, ds[n]);
    assert ds[n] == Dispatch(ds[n].call, dispatcher(n, ds[n].call));
    if i < n {
      SavedWriteCommits(registry, dispatcher, ds[..n], i);
    }
  }

  /** With a commit every end of turn is genuine, and no text a false success. */
  lemma CommitIsGenuine(patterns: Patterns, stop: StopReason, text: Option<string>, reply: ReplyText, committed: int,
                        attempted: int)
    requires committed >= 1
    ensures ClassifyTerminalTurn(patterns, stop, text, committed, attempted) == Genuine
    ensures !IsFalseSuccessReply(patterns, reply, committed, attempted)
  {
  }

  /**
   * Once a single write of the turn was saved, the turn counts it, is never given up as
   * unresolved, nudges the model no more, and no text it could be answered with is a
   * false success.
   */
  lemma SavedWriteSettlesTurn(env: Env, log: Log, prompt: seq<Block>, resumed: seq<ToolRound>, r: ToolLoop.Result,
                              i: nat)
    requires CountsObey(env.registry, env.dispatcher) && Kept(env, log, prompt, resumed, r)
    requires i < |log.dispatches| && IsSaved(env.registry, log.dispatches[i])
    ensures r.committedWrites >= 1 && !r.outcome.Unresolved?
    ensures forall text :: !IsFalseSuccessReply(env.patterns, text, r.committedWrites, r.attemptedWrites)
    ensures |log.marks| == |log.responses| >= |r.rounds|
    ensures forall j :: 0 <= j < |r.rounds| && log.marks[j] > i ==> r.rounds[j].correction.None?
  {
    hide Audited, Suspends, RoundsRan, LastRan, RepliesRight, AsksRight, GivesUpRight, FailsRight, ForcedRequests,
      ScheduleFetches;
    SavedWriteCommits(env.registry, env.dispatcher, log.dispatches, i);
    forall j | 0 <= j < |r.rounds| && log.marks[j] > i ensures r.rounds[j].correction.None? {
      assert JudgedRight(env, log, j, r.rounds[j].correction);
      if r.rounds[j].correction.Some? {
        var before := log.dispatches[..log.marks[j]];
        SavedWriteCommits(env.registry, env.dispatcher, before, i);
        assert false;
      }
    }
  }

  /**
   * On a clean end of turn without a commit,
   * a text is false unless it is vetoed or there was no attempt and no claim.
   */
  lemma FalseWithoutCommit(patterns: Patterns, text: ReplyText, committed: int, attempted: int)
    ensures IsFalseSuccessReply(patterns, text, committed, attempted) <==>
      committed <= 0 && !patterns.veto(text) && (attempted > 0 || patterns.claim(text))
  {
  }

  lemma SomeWrite(registry: Registry, ds: seq<Dispatch>, i: nat)
    requires i < |ds| && IsWrite(registry, ds[i])
    ensures |Writes(registry, ds)| > 0
  {
    assert i in Writes(registry, ds);
  }

  lemma NoSave(registry: Registry, ds: seq<Dispatch>)
    requires forall i :: 0 <= i < |ds| ==> !IsSaved(registry, ds[i])
    ensures |Saves(registry, ds)| == 0
  {
    assert Saves(registry, ds) == {};
  }

  /**
   * When single writes came back and none was saved, a turn that may correct the model
   * answers a clean end of turn only with a text that the veto matches: one that owns up.
   */
  lemma FailedWritesAreOwned(env: Env, log: Log, prompt: seq<Block>, resumed: seq<ToolRound>, r: ToolLoop.Result,
                             i: nat)
    requires Kept(env, log, prompt, resumed, r) && env.limits.maxCorrections > 0
    requires forall j :: 0 <= j < |log.dispatches| && IsWrite(env.registry, log.dispatches[j]) ==>
      IsSingle(log.dispatches[j])
    requires forall j :: 0 <= j < |log.dispatches| ==> !IsSaved(env.registry, log.dispatches[j])
    requires i < |log.dispatches| && IsWrite(env.registry, log.dispatches[i])
    ensures r.committedWrites == 0 < r.attemptedWrites
    ensures RepliesToEndTurn(log, r) ==> env.patterns.veto(r.outcome.text)
  {
    hide Sound, Audited, Judged, Suspends, RoundsRan, LastRan, RepliesRight, AsksRight, GivesUpRight, FailsRight,
      ForcedRequests, ScheduleFetches, Ledger, IsWrite, IsSaved, IsSingle, IsFalseSuccessReply, Corrections, Writes,
      Saves;
    SingleWritesCounted(env.registry, log.dispatches);
    SomeWrite(env.registry, log.dispatches, i);
    NoSave(env.registry, log.dispatches);
    if RepliesToEndTurn(log, r) {
      FalseWithoutCommit(env.patterns, r.outcome.text, r.committedWrites, r.attemptedWrites);
    }
  }

  // --- the words of a turn ------------------------------------------------------------------------------

  /** A nudge adds to the conversation the model's own words, when there are any, and the correction; no more. */
  lemma NudgeAdds(messages: seq<Block>, text: Option<string>)
    ensures messages <= Nudged(messages, text)
    ensures Nudged(messages, text)[|Nudged(messages, text)| - 1] == CorrectiveNudge
    ensures text.Some? && text.value != "" ==>
      |Nudged(messages, text)| == |messages| + 2 && Nudged(messages, text)[|messages|] == FromAssistant(text.value)
    ensures text.None? || text.value == "" ==> |Nudged(messages, text)| == |messages| + 1
  {
  }

  /** The model's words are relayed only as they stand, and never when they were cut off or refused. */
  lemma RelayedAsSaid(stop: StopReason, text: Option<string>, words: string)
    ensures TerminalReplyText(stop, text) == FromModel(words)
      <==> text == Some(words) && stop != MaxTokens && stop != Refusal
    ensures stop == MaxTokens ==> TerminalReplyText(stop, text) == TruncatedLine
    ensures stop == Refusal ==> TerminalReplyText(stop, text) == RefusalLine
    ensures text.None? && stop != MaxTokens && stop != Refusal ==> TerminalReplyText(stop, text) == CeilingLine
  {
  }
}
