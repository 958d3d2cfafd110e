/** What the recorder and the request's own state hold at each point of a run, before its response finishes. */
module ProtocolRecords {
  import opened Wrappers
  import opened Lifecycle
  import opened Operations
  import opened Protocol

  predicate Unsettled(record: Record) {
    PaymentSettled !in record.seen
  }

  predicate Open(record: Record) {
    !record.reported && record.terminal == PaymentRequiredOnly
  }

  /** What the recorder and the state object hold at each point before the response finishes. */
  predicate PhaseFits(request: Request, q: Progress) {
    !q.finished ==>
      match q.phase
      case Arrived => Open(q.record) && q.record.seen == [] && q.produced.None?
      case Presented =>
        Open(q.record) && Unsettled(q.record) && PaymentVerified !in q.record.seen && q.produced.None?
        && (PaymentPayloadReceived in q.record.seen <==> request.payment != Absent)
      case Verified => Open(q.record) && Unsettled(q.record) && PaymentVerified in q.record.seen && q.produced.None?
      case VerificationEnded =>
        q.record.reported && q.record.terminal == VerificationRefused && Unsettled(q.record) && q.produced.None?
      case HandlerReturned =>
        Open(q.record) && Unsettled(q.record) && PaymentVerified in q.record.seen && q.produced.Some?
      case HandlerErred => Open(q.record) && Unsettled(q.record) && PaymentVerified in q.record.seen
      case Canceled => q.record.reported && q.record.terminal == HandlerErrorStatus && Unsettled(q.record)
      case Settling => Open(q.record) && Unsettled(q.record) && PaymentVerified in q.record.seen && q.produced.Some?
      case SettleAnswered(_) =>
        Open(q.record) && Unsettled(q.record) && PaymentVerified in q.record.seen && q.produced.Some?
      case SettleReported(outcome) =>
        && q.produced.Some?
        && (if outcome.Succeeded? then PaymentSettled in q.record.seen
            else q.record.reported && q.record.terminal == SettlementFailed && Unsettled(q.record))
  }

  predicate AllFit(config: Config, s: State)
    requires |s.progress| == |config.requests|
  {
    forall r | 0 <= r < |s.progress| :: PhaseFits(config.requests[r], s.progress[r])
  }

  lemma VerifyKeepsFit(config: Config, s: State, a: Action)
    requires |s.progress| == |config.requests| && Enabled(config, s, a)
    requires a.Protect? || a.VerifyAnswers? || a.VerifyRaises?
    requires PhaseFits(config.requests[a.r], s.progress[a.r])
    ensures PhaseFits(config.requests[a.r], MiddlewareEffect(s.progress[a.r], config.requests[a.r].payment, a))
  {
    hide PersistableFailureReason;
  }

  lemma HandlerKeepsFit(config: Config, s: State, a: Action)
    requires |s.progress| == |config.requests| && Enabled(config, s, a)
    requires a.HandlerReturns? || a.HandlerThrows? || a.Cancel?
    requires PhaseFits(config.requests[a.r], s.progress[a.r])
    ensures PhaseFits(config.requests[a.r], MiddlewareEffect(s.progress[a.r], config.requests[a.r].payment, a))
  {
    hide PersistableFailureReason;
  }

  lemma SettleKeepsFit(config: Config, s: State, a: Action)
    requires |s.progress| == |config.requests| && Enabled(config, s, a)
    requires a.BeforeSettle? || a.SettleAnswers? || a.AfterSettle?
    requires PhaseFits(config.requests[a.r], s.progress[a.r])
    ensures PhaseFits(config.requests[a.r], MiddlewareEffect(s.progress[a.r], config.requests[a.r].payment, a))
  {
    hide PersistableFailureReason;
  }

  lemma MiddlewareKeepsFit(config: Config, s: State, a: Action)
    requires |s.progress| == |config.requests| && Enabled(config, s, a)
    requires PhaseFits(config.requests[a.r], s.progress[a.r])
    ensures PhaseFits(config.requests[a.r], MiddlewareEffect(s.progress[a.r], config.requests[a.r].payment, a))
  {
    if a.Protect? || a.VerifyAnswers? || a.VerifyRaises? {
      VerifyKeepsFit(config, s, a);
    } else if a.HandlerReturns? || a.HandlerThrows? || a.Cancel? {
      HandlerKeepsFit(config, s, a);
    } else if a.BeforeSettle? || a.SettleAnswers? || a.AfterSettle? {
      SettleKeepsFit(config, s, a);
    }
  }

  lemma ReadKeepsFit(capacity: nat, store: Store, request: Request, r: nat, q: Progress)
    requires PhaseFits(request, q)
    ensures PhaseFits(request, ReadTurn(capacity, store, request, r, q).1)
  {
    hide Admit;
  }

  lemma StepKeepsFit(config: Config, s: State, a: Action)
    requires |s.progress| == |config.requests| && Enabled(config, s, a) && AllFit(config, s)
    ensures AllFit(config, Next(config, s, a))
  {
    var q, request := s.progress[a.r], config.requests[a.r];
    var q' := Next(config, s, a).progress[a.r];
    assert PhaseFits(request, q') by {
      if a.Read? {
        ReadKeepsFit(config.capacity, s.store, request, a.r, q);
      } else if !a.HangUp? && !a.Finish? && !a.Close? {
        MiddlewareKeepsFit(config, s, a);
      }
    }
    forall r | 0 <= r < |s.progress| ensures PhaseFits(config.requests[r], Next(config, s, a).progress[r]) {
      assert r != a.r ==> Next(config, s, a).progress[r] == s.progress[r];
    }
  }

  /** In every state of every run. */
  lemma {:induction false} RunsFit(config: Config, run: Protocol.Run, i: nat)
    requires StartsAndFollows(config, run) && i < |run.states|
    ensures AllFit(config, run.states[i])
  {
    if i > 0 {
      RunsFit(config, run, i - 1);
      StepKeepsFit(config, run.states[i - 1], run.actions[i - 1]);
    }
  }
}
