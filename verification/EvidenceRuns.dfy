/** Which runs of the paid resource leave evidence that can be issued and verified: over every interleaving, a paid
    request fits the presence contract when it finishes exactly if its handler returned and every outcome it was
    owed was reported. */
module EvidenceRuns {
  import opened Wrappers
  import opened CodeUnits
  import opened Lifecycle
  import opened Operations
  import opened Protocol
  import opened ProtocolRecords
  import opened Presence
  import opened Issuance
  import opened IssueThenVerify
  import opened ProtocolInvariant
  import opened ProtocolNecessity
  import Documents
  import Evidence

  /** The payment was refused before verification or by it, or its handler returned and the outcome that followed,
      a cancellation or a settlement answer, was reported. */
  predicate OutcomeReported(q: Progress) {
    || q.phase.Presented? || q.phase.VerificationEnded? || q.phase.SettleReported?
    || (q.phase.Canceled? && q.produced.Some?)
  }

  /** The terminal state as the finish listener leaves it. */
  function TerminalAtFinish(q: Progress, status: nat): TerminalState {
    ObservationOf(FinishRecord(q.record, status)).terminalState
  }

  /** A presented payment field and the result there is are what the terminal state calls for. */
  predicate FitsContract(q: Progress, status: nat) {
    && Contract(TerminalAtFinish(q, status), PaymentSignatureText) == Required
    && (Contract(TerminalAtFinish(q, status), OriginResultBody) == Required <==> q.produced.Some?)
  }

  /** In every reachable state, a paid request about to finish fits the contract exactly when its outcome was
      reported: not when its handler threw, and not when the response ends while an outcome is still owed. */
  lemma FinishFitsContract(config: Config, run: Protocol.Run, i: nat, r: nat, status: nat)
    requires StartsAndFollows(config, run) && i < |run.states| && r < |config.requests|
    requires config.requests[r].payment != Absent && !run.states[i].progress[r].finished
    ensures FitsContract(run.states[i].progress[r], status) <==> OutcomeReported(run.states[i].progress[r])
  {
    RunsFit(config, run, i);
    FitWhenReported(config.requests[r], run.states[i].progress[r], status);
  }

  lemma FitWhenReported(request: Request, q: Progress, status: nat)
    requires PhaseFits(request, q) && request.payment != Absent && !q.finished
    ensures FitsContract(q, status) <==> OutcomeReported(q)
    ensures TerminalAtFinish(q, status) == WriteAttempted <==> q.phase.SettleReported? && q.phase.outcome.Succeeded?
  {
  }

  /** One paid request, alone. */
  const ALONE := Config([Request([], Decoded(true, Some(KEY), Some(AUTH_A)))], 1)

  /** Such a request does occur: a payment that verified and a handler that threw, its cancellation reported. The
      terminal state then requires a result, and there is none. */
  lemma ThrownHandlerFitsNothing(status: nat) returns (run: Protocol.Run)
    ensures IsRun(ALONE, run)
    ensures
      var q := run.Last().progress[0];
      && q.phase == Canceled && !q.finished && q.produced.None?
      && TerminalAtFinish(q, status) == HandlerErrorStatus && !FitsContract(q, status)
  {
    var start := Protocol.Run([Initial(ALONE)], []);
    assert start.Last().progress == [FRESH];
    var passed := Grow(ALONE, start, Read(0));
    assert passed.Last().progress == [FRESH.(place := Passed, claimed := true)];
    var verified := GrowToVerified(ALONE, passed, 0);
    run := GrowToThrown(verified);
    NoSettlementIsRun(ALONE, run);
    FinishFitsContract(ALONE, run, |run.states| - 1, 0, status);
    ThrownTerminal(run, status);
  }

  lemma GrowToThrown(run: Protocol.Run) returns (longer: Protocol.Run)
    requires StartsAndFollows(ALONE, run) && run.Last().progress[0].phase == Verified
    requires !run.Last().progress[0].finished
    ensures StartsAndFollows(ALONE, longer)
    ensures longer.actions == run.actions + [HandlerThrows(0)] + [Cancel(0, None, None)]
    ensures
      var q := longer.Last().progress[0];
      q.phase == Canceled && !q.finished && q.produced.None?
  {
    RunsFit(ALONE, run, |run.states| - 1);
    var thrown := Grow(ALONE, run, HandlerThrows(0));
    longer := Grow(ALONE, thrown, Cancel(0, None, None));
  }

  lemma ThrownTerminal(run: Protocol.Run, status: nat)
    requires StartsAndFollows(ALONE, run)
    requires run.Last().progress[0].phase == Canceled && !run.Last().progress[0].finished
    ensures TerminalAtFinish(run.Last().progress[0], status) == HandlerErrorStatus
  {
    RunsFit(ALONE, run, |run.states| - 1);
  }

  /** A run record of a request that finished from this progress. */
  predicate RecordsFinish(run: Issuance.Run, q: Progress, status: nat) {
    && run.terminal == TerminalAtFinish(q, status)
    && run.signature.Some? && (run.result.Some? <==> q.produced.Some?)
  }

  /** What the payment middleware and the client add: a settlement field for a settlement that succeeded and none
      for one never reached, and a decoded success that names its transaction. */
  predicate MiddlewareFits(run: Issuance.Run, options: Options) {
    && (run.terminal == WriteAttempted ==> run.response.Some?)
    && (run.terminal != WriteAttempted && run.terminal != SettlementFailed ==> run.response.None?)
    && (Settled(run) ==> run.settle.value.transaction != [])
    && (Settled(run) && options.rpc.Some? ==>
          options.rpc.value.observation.transactionHash == run.settle.value.transaction)
    && run.scheme == Evidence.ObservedScheme()
  }

  /** So every paid request of every run whose outcome was reported leaves evidence that verifies. */
  lemma ReportedRunsAreAnswered(
    config: Config, run: Protocol.Run, i: nat, r: nat, status: nat, left: Issuance.Run, options: Options)
    requires StartsAndFollows(config, run) && i < |run.states| && r < |config.requests|
    requires config.requests[r].payment != Absent && !run.states[i].progress[r].finished
    requires RecordsFinish(left, run.states[i].progress[r], status) && MiddlewareFits(left, options)
    ensures Answered(left, options) <==> OutcomeReported(run.states[i].progress[r])
  {
    hide FitsContract, TerminalAtFinish, OutcomeReported;
    var q := run.states[i].progress[r];
    FinishFitsContract(config, run, i, r, status);
    FitIsAnswered(left, q, status, options);
  }

  lemma FitIsAnswered(left: Issuance.Run, q: Progress, status: nat, options: Options)
    requires RecordsFinish(left, q, status) && MiddlewareFits(left, options)
    ensures Answered(left, options) <==> FitsContract(q, status)
  {
    hide TerminalAtFinish;
  }
}
