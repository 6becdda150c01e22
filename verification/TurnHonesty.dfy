/**
 * When a turn ends without a tool call: is the model's text a genuine reply, or
 * does it narrate a change that was never made? The loop's classifier and the guard
 * that masks false success are two readings of the same signals.
 */
module TurnHonesty {
  import opened Wrappers

  datatype StopReason = EndTurn | ToolUse | MaxTokens | StopSequence | Refusal | OtherReason

  /** What the user is sent: the model's words, or one of the loop's fixed lines. */
  datatype ReplyText = FromModel(text: string) | CeilingLine | TruncatedLine | RefusalLine

  /** The two lexical patterns, as predicates on a reply. */
  datatype Patterns = Patterns(veto: ReplyText -> bool, claim: ReplyText -> bool)

  datatype CorrectionReason = WritesErrored | ClaimWithoutWrites
  datatype Classification = Genuine | NarrationWithoutWrite(reason: CorrectionReason)

  /** All that is used of the patterns: the ceiling line ends in a question mark, which the veto matches. */
  predicate VetoesCeiling(patterns: Patterns) {
    patterns.veto(CeilingLine)
  }

  function TerminalReplyText(stop: StopReason, text: Option<string>): ReplyText {
    match stop
    case MaxTokens => TruncatedLine
    case Refusal => RefusalLine
    case _ => if text.Some? then FromModel(text.value) else CeilingLine
  }

  function ClassifyTerminalTurn(patterns: Patterns, stop: StopReason, text: Option<string>, committed: int,
                                attempted: int): Classification {
    var reply := FromModel(text.Or(""));
    if committed > 0 then Genuine
    else if stop != EndTurn then Genuine
    else if patterns.veto(reply) then Genuine
    else if attempted > 0 then NarrationWithoutWrite(WritesErrored)
    else if patterns.claim(reply) then NarrationWithoutWrite(ClaimWithoutWrites)
    else Genuine
  }

  function IsFalseSuccessReply(patterns: Patterns, text: ReplyText, committed: int, attempted: int): bool {
    if committed > 0 then false
    else if patterns.veto(text) then false
    else if attempted > 0 then true
    else patterns.claim(text)
  }

  /** On a clean end of turn the classifier re-drives exactly what the guard would mask. */
  lemma ClassifierMatchesGuard(patterns: Patterns, stop: StopReason, text: Option<string>, committed: int,
                               attempted: int)
    ensures stop == EndTurn ==>
      (ClassifyTerminalTurn(patterns, stop, text, committed, attempted).NarrationWithoutWrite?
       <==> IsFalseSuccessReply(patterns, FromModel(text.Or("")), committed, attempted))
    ensures stop != EndTurn ==> ClassifyTerminalTurn(patterns, stop, text, committed, attempted) == Genuine
  {
  }

  /**
   * A genuine end of turn is relayed with text the guard lets through, also when the
   * model said nothing and the ceiling line stands in for it - which is classified as
   * an empty text but guarded as that line.
   */
  lemma GenuineReplyPassesGuard(patterns: Patterns, text: Option<string>, committed: int, attempted: int)
    requires VetoesCeiling(patterns)
    requires ClassifyTerminalTurn(patterns, EndTurn, text, committed, attempted) == Genuine
    ensures !IsFalseSuccessReply(patterns, TerminalReplyText(EndTurn, text), committed, attempted)
  {
  }

  // --- the write ledger ---------------------------------------------------------------

  datatype LedgerDelta = LedgerDelta(attempted: int, committed: int)

  /** A batch tool's own counts, or one attempt and - unless it errored - one commit. */
  function WriteLedgerDelta(attemptedCount: Option<int>, committedCount: Option<int>, isError: bool): LedgerDelta {
    LedgerDelta(attemptedCount.Or(1), committedCount.Or(if isError then 0 else 1))
  }

  predicate IsCorrectionBudgetExhausted(corrections: nat, maxCorrections: nat) {
    corrections >= maxCorrections
  }
}
