/** What a request's observation says when its response finishes, exactly, by how far its payment had come. */
module ProtocolObservations {
  import opened Wrappers
  import opened Lifecycle
  import opened Operations
  import opened Protocol
  import opened ProtocolRecords

  // ---------------------------------------------------------------- what a phase amounts to

  /** The lifecycle positions a request has been through. */
  function Positions(payment: Payment, phase: Phase): set<LifecycleState> {
    if phase.Arrived? then {}
    else if payment == Absent then {RequestReceived, PaymentRequired}
    else
      {RequestReceived, PaymentPayloadReceived}
      + (if phase.Presented? || phase.VerificationEnded? then {} else {PaymentVerified})
      + (if phase.Canceled? || phase.Settling? || phase.SettleAnswered? || phase.SettleReported?
         then {ResourceExecuted} else {})
      + (if phase.SettleReported? && phase.outcome.Succeeded? then {PaymentSettled} else {})
  }

  function TransactionKnown(phase: Phase): Option<string> {
    match phase
    case SettleReported(Succeeded(transaction)) => Some(transaction)
    case _ => None
  }

  /** Why the payment failed: one refused or raised at settlement by what was answered, and one that ended at
      verification for some reason. */
  predicate FailureFits(phase: Phase, reason: Option<FailureReason>) {
    match phase
    case VerificationEnded => reason.Some?
    case SettleReported(Refused(upstream)) => reason == Some(PersistableFailureReason(upstream, SettlementRejected))
    case SettleReported(Raised) => reason == Some(SettlementException)
    case _ => reason.None?
  }

  function TerminalOf(payment: Payment, phase: Phase): TerminalState {
    match phase
    case SettleReported(outcome) => if outcome.Succeeded? then WriteAttempted else SettlementFailed
    case Canceled => HandlerErrorStatus
    case VerificationEnded => VerificationRefused
    case Presented => if payment == Absent then PaymentRequiredOnly else RejectedPreVerification
    case _ => PaymentRequiredOnly
  }

  /** The recorder holds this of its request until the response finishes. */
  predicate Recorded(request: Request, q: Progress) {
    && (!q.phase.Arrived? && !q.phase.Presented? ==> request.payment != Absent)
    && (!q.finished ==>
          && (forall state :: state in q.record.seen <==> state in Positions(request.payment, q.phase))
          && q.record.detail.transaction == TransactionKnown(q.phase)
          && FailureFits(q.phase, q.record.detail.failureReason)
          && (q.record.detail.cancellationReason.Some? <==> q.phase.Canceled?))
  }

  // ---------------------------------------------------------------- over a run

  lemma ProtectRecords(request: Request, q: Progress, a: Action)
    requires Recorded(request, q) && !q.finished && a.Protect? && q.phase.Arrived?
    ensures Recorded(request, MiddlewareEffect(q, request.payment, a))
  {
  }

  lemma VerifyRecords(request: Request, q: Progress, a: Action)
    requires Recorded(request, q) && !q.finished && q.phase.Presented? && request.payment != Absent && a.VerifyAnswers?
    ensures Recorded(request, MiddlewareEffect(q, request.payment, a))
  {
    hide PersistableFailureReason;
  }

  lemma VerifyRaiseRecords(request: Request, q: Progress, a: Action)
    requires Recorded(request, q) && !q.finished && q.phase.Presented? && request.payment != Absent && a.VerifyRaises?
    ensures Recorded(request, MiddlewareEffect(q, request.payment, a))
  {
  }

  lemma HandleRecords(request: Request, q: Progress, a: Action)
    requires Recorded(request, q) && !q.finished && (a.HandlerReturns? || a.HandlerThrows? || a.Cancel?)
    requires if a.Cancel? then q.phase.HandlerErred? else q.phase.Verified?
    ensures Recorded(request, MiddlewareEffect(q, request.payment, a))
  {
    hide PersistableFailureReason;
  }

  lemma SettleRecords(request: Request, q: Progress, a: Action)
    requires Recorded(request, q) && !q.finished && (a.BeforeSettle? || a.SettleAnswers?)
    requires if a.BeforeSettle? then q.phase.HandlerReturned? else q.phase.Settling?
    ensures Recorded(request, MiddlewareEffect(q, request.payment, a))
  {
  }

  lemma SuccessRecords(request: Request, q: Progress, a: Action)
    requires Recorded(request, q) && !q.finished && a.AfterSettle? && q.phase == SettleAnswered(a.outcome)
    requires a.outcome.Succeeded?
    ensures Recorded(request, MiddlewareEffect(q, request.payment, a))
  {
  }

  lemma FailureRecords(request: Request, q: Progress, a: Action)
    requires Recorded(request, q) && !q.finished && a.AfterSettle? && q.phase == SettleAnswered(a.outcome)
    requires !a.outcome.Succeeded?
    ensures Recorded(request, MiddlewareEffect(q, request.payment, a))
  {
    hide PersistableFailureReason;
    assert Positions(request.payment, SettleReported(a.outcome)) == Positions(request.payment, q.phase);
  }

  /** After the response finished only the request's own payment is still of interest. */
  lemma LateHookRecords(request: Request, q: Progress, a: Action)
    requires Recorded(request, q) && q.finished
    requires a.Protect? ==> q.phase.Arrived?
    requires a.VerifyAnswers? || a.VerifyRaises? ==> request.payment != Absent
    requires a.HandlerReturns? || a.HandlerThrows? ==> q.phase.Verified?
    requires a.Cancel? ==> q.phase.HandlerErred?
    requires a.BeforeSettle? ==> q.phase.HandlerReturned?
    requires a.SettleAnswers? ==> q.phase.Settling?
    requires a.AfterSettle? ==> q.phase.SettleAnswered?
    ensures Recorded(request, MiddlewareEffect(q, request.payment, a))
  {
    hide PersistableFailureReason;
  }

  predicate AllRecorded(config: Config, s: State)
    requires |s.progress| == |config.requests|
  {
    forall r | 0 <= r < |s.progress| :: Recorded(config.requests[r], s.progress[r])
  }

  lemma HookRecords(config: Config, s: State, a: Action)
    requires |s.progress| == |config.requests| && Enabled(config, s, a)
    requires !a.Read? && !a.HangUp? && !a.Finish? && !a.Close?
    requires Recorded(config.requests[a.r], s.progress[a.r])
    ensures Recorded(config.requests[a.r], MiddlewareEffect(s.progress[a.r], config.requests[a.r].payment, a))
  {
    hide Recorded, MiddlewareEffect;
    var request, q := config.requests[a.r], s.progress[a.r];
    if q.finished {
      LateHookRecords(request, q, a);
    } else {
      match a
      case Protect(_) => ProtectRecords(request, q, a);
      case VerifyAnswers(_, _, _, _) => VerifyRecords(request, q, a);
      case VerifyRaises(_) => VerifyRaiseRecords(request, q, a);
      case HandlerReturns(_, _) => HandleRecords(request, q, a);
      case HandlerThrows(_) => HandleRecords(request, q, a);
      case Cancel(_, _, _) => HandleRecords(request, q, a);
      case BeforeSettle(_) => SettleRecords(request, q, a);
      case SettleAnswers(_, _) => SettleRecords(request, q, a);
      case AfterSettle(_, outcome, _) =>
        if outcome.Succeeded? {
          SuccessRecords(request, q, a);
        } else {
          FailureRecords(request, q, a);
        }
    }
  }

  lemma ReadRecords(capacity: nat, store: Store, request: Request, r: nat, q: Progress)
    requires Recorded(request, q)
    ensures Recorded(request, ReadTurn(capacity, store, request, r, q).1)
  {
    hide Admit, Positions, FailureFits, TransactionKnown;
  }

  lemma PlainRecords(config: Config, s: State, a: Action)
    requires |s.progress| == |config.requests| && Enabled(config, s, a)
    requires a.Read? || a.HangUp? || a.Finish? || a.Close?
    requires Recorded(config.requests[a.r], s.progress[a.r])
    ensures Recorded(config.requests[a.r], Next(config, s, a).progress[a.r])
  {
    hide ReadTurn, ConcludeTurn, FinishRecord, Positions, FailureFits, TransactionKnown, MiddlewareEffect;
    if a.Read? {
      ReadRecords(config.capacity, s.store, config.requests[a.r], a.r, s.progress[a.r]);
    }
  }

  lemma StepRecords(config: Config, s: State, a: Action)
    requires |s.progress| == |config.requests| && Enabled(config, s, a) && AllRecorded(config, s)
    ensures AllRecorded(config, Next(config, s, a))
  {
    hide Recorded, Admit, Conclusion, FinishRecord, ReadTurn, ConcludeTurn, MiddlewareEffect;
    if a.Read? || a.HangUp? || a.Finish? || a.Close? {
      PlainRecords(config, s, a);
    } else {
      HookRecords(config, s, a);
    }
    forall r | 0 <= r < |s.progress| ensures Recorded(config.requests[r], Next(config, s, a).progress[r]) {
      assert r != a.r ==> Next(config, s, a).progress[r] == s.progress[r];
    }
  }

  lemma {:induction false} RunsRecord(config: Config, run: Run, i: nat)
    requires StartsAndFollows(config, run) && i < |run.states|
    ensures AllRecorded(config, run.states[i])
  {
    if i > 0 {
      RunsRecord(config, run, i - 1);
      StepRecords(config, run.states[i - 1], run.actions[i - 1]);
    }
  }

  // ---------------------------------------------------------------- what is observed

  /** The observation of a request whose response finished with this status, its payment having come this far. */
  ghost predicate Observes(payment: Payment, phase: Phase, status: nat, o: Observation) {
    var settled := phase.SettleReported? && phase.outcome.Succeeded?;
    && InLifecycleOrder(o.states)
    && (forall state :: state in o.states <==>
          state in Positions(payment, phase)
          || (settled && (state == ResponsePrepared || state == ResponseWriteAttempted)))
    && o.terminalState == TerminalOf(payment, phase)
    && o.detail.transaction == NonEmpty(TransactionKnown(phase))
    && o.detail.responseStatus == Some(status)
    && FailureFits(phase, o.detail.failureReason)
    && (o.detail.cancellationReason.Some? <==> phase.Canceled?)
  }

  /** In every interleaving, whatever else goes on, a response that finishes leaves exactly the observation its own
      payment calls for: the positions it went through in order, its terminal state, the transaction of a success
      and of nothing else, and the reason of a failure. */
  lemma FinishIsObserved(config: Config, run: Run, i: nat, r: nat, response: ResponseView)
    requires StartsAndFollows(config, run) && i < |run.actions| && run.actions[i] == Finish(r, response)
    ensures r < |config.requests| && |run.states[i].progress| == |run.states[i + 1].progress| == |config.requests|
    ensures Observes(
      config.requests[r].payment, run.states[i].progress[r].phase, response.status,
      ObservationOf(run.states[i + 1].progress[r].record))
  {
    RunsRecord(config, run, i);
    RunsFit(config, run, i);
    var s := run.states[i];
    assert Enabled(config, s, run.actions[i]);
    var q := s.progress[r];
    assert Recorded(config.requests[r], q) && PhaseFits(config.requests[r], q);
    assert run.states[i + 1].progress[r].record == FinishRecord(q.record, response.status);
    hide StartsAndFollows, Recorded, PhaseFits, FinishRecord, Observes;
    FinishObserves(config.requests[r], q, response.status);
  }

  lemma FinishObserves(request: Request, q: Progress, status: nat)
    requires Recorded(request, q) && PhaseFits(request, q) && !q.finished
    ensures Observes(request.payment, q.phase, status, ObservationOf(FinishRecord(q.record, status)))
  {
    ObservationIsFaithful(FinishRecord(q.record, status));
    hide Ordered, InLifecycleOrder, PersistableFailureReason;
  }

  /** The payer recorded is the one the last of verification and a successful settlement named; nothing else that
      happens, to this request or another, changes it. */
  lemma PayerIsAsReported(config: Config, s: State, a: Action, r: nat)
    requires |s.progress| == |config.requests| && Enabled(config, s, a) && r < |s.progress|
    ensures Next(config, s, a).progress[r].record.detail.payer ==
      if a.r == r && a.VerifyAnswers? && a.valid then a.payer
      else if a.r == r && a.AfterSettle? && a.outcome.Succeeded? then a.payer
      else s.progress[r].record.detail.payer
  {
    hide Admit, Conclusion, ConcludeTurn, PersistableFailureReason;
  }

  /** The reason a step gives for a payment that fails in it; what was recorded before, for any other. */
  function FailureGiven(a: Action, before: Option<FailureReason>): Option<FailureReason> {
    match a
    case VerifyAnswers(_, false, _, reason) => Some(PersistableFailureReason(reason, VerificationRejected))
    case VerifyRaises(_) => Some(VerificationException)
    case AfterSettle(_, Refused(reason), _) => Some(PersistableFailureReason(reason, SettlementRejected))
    case AfterSettle(_, Raised, _) => Some(SettlementException)
    case _ => before
  }

  function CancellationGiven(a: Action, before: Option<FailureReason>): Option<FailureReason> {
    match a
    case Cancel(_, reason, _) => Some(PersistableFailureReason(reason, HandlerFailed))
    case _ => before
  }

  lemma HookGivesFailure(q: Progress, payment: Payment, a: Action)
    ensures
      MiddlewareEffect(q, payment, a).record.detail.failureReason == FailureGiven(a, q.record.detail.failureReason)
  {
    hide PersistableFailureReason;
    match a
    case VerifyAnswers(_, valid, _, _) =>
    case AfterSettle(_, outcome, _) =>
    case _ =>
  }

  lemma HookGivesCancellation(q: Progress, payment: Payment, a: Action)
    ensures MiddlewareEffect(q, payment, a).record.detail.cancellationReason ==
      CancellationGiven(a, q.record.detail.cancellationReason)
  {
    hide PersistableFailureReason;
    match a
    case VerifyAnswers(_, valid, _, _) =>
    case AfterSettle(_, outcome, _) =>
    case _ =>
  }

  /** Why a payment failed or was canceled is what the step in which it did gives as the reason, in the terms this flow
      persists; nothing else that happens, to this request or another, changes it. */
  lemma ReasonsAreAsReported(config: Config, s: State, a: Action, r: nat)
    requires |s.progress| == |config.requests| && Enabled(config, s, a) && r < |s.progress|
    ensures
      var before, after := s.progress[r].record.detail, Next(config, s, a).progress[r].record.detail;
      && after.failureReason == (if a.r == r then FailureGiven(a, before.failureReason) else before.failureReason)
      && after.cancellationReason ==
           (if a.r == r then CancellationGiven(a, before.cancellationReason) else before.cancellationReason)
  {
    hide Admit, Conclusion, ConcludeTurn, PersistableFailureReason, MiddlewareEffect;
    HookGivesFailure(s.progress[a.r], config.requests[a.r].payment, a);
    HookGivesCancellation(s.progress[a.r], config.requests[a.r].payment, a);
  }
}
