/** What the store concludes of attempts, against what really happened to them. */
module ProtocolOutcomes {
  import opened Wrappers
  import opened CodeUnits
  import opened Lifecycle
  import opened Operations
  import opened Protocol
  import opened ProtocolInvariant
  import opened ProtocolRecords

  /** What an attempt that ends here should leave: its result when its settlement was reported to succeed, doubt
      when it was submitted and no answer came back or it raised, and a released identifier otherwise. */
  function Owed(request: Request, authorization: Authorization, q: Progress, response: ResponseView): Entry {
    match q.phase
    case SettleReported(Succeeded(_)) =>
      if q.produced.None? then Uncertain(request.fingerprint, authorization)
      else
        Completed(request.fingerprint, authorization, CachedResult(
          response.status, q.produced.value.contentType, q.produced.value.body, response.paymentResponse))
    case SettleReported(Raised) => Uncertain(request.fingerprint, authorization)
    case Settling => Uncertain(request.fingerprint, authorization)
    case SettleAnswered(_) => Uncertain(request.fingerprint, authorization)
    case _ => Rejected(request.fingerprint)
  }

  lemma ConcludesAsOwed(
    request: Request, authorization: Authorization, q: Progress, q': Progress, response: ResponseView)
    requires RecordFits(q) && !q.Concluded()
    requires q'.produced == q.produced
    requires q'.record == q.record || q'.record == FinishRecord(q.record, response.status)
    ensures Conclusion(request.fingerprint, authorization, q'.record, q'.produced, response)
      == Owed(request, authorization, q, response)
  {
  }

  /** The store judges an attempt from its recorder alone, and judges it right: whichever response event comes
      first, in whatever interleaving, the identifier is left exactly as what really happened calls for. */
  lemma ConclusionIsExact(config: Config, run: Run, i: nat, response: ResponseView)
    requires IsRun(config, run) && i < |run.actions|
    requires run.actions[i] == Finish(run.actions[i].r, response) || run.actions[i] == Close(run.actions[i].r, response)
    requires
      var r := run.actions[i].r;
      r < |config.requests| && run.states[i].progress[r].claimed && !run.states[i].progress[r].Concluded()
    ensures
      var request, q := config.requests[run.actions[i].r], run.states[i].progress[run.actions[i].r];
      && Keyed(request)
      && (q.phase.SettleReported? ==> q.produced.Some?)
      && var id, auth := request.payment.identifier.value, request.payment.authorization.value;
      && id in run.states[i + 1].store
      && run.states[i + 1].store[id] == Owed(request, auth, q, response)
      && run.actions[i].r in run.states[i + 1].resolved
  {
    hide Conclusion, FinishRecord, Owed, RecordFits, Exclusive, Backed, MaySettle;
    var s, r := run.states[i], run.actions[i].r;
    var request, q := config.requests[r], s.progress[r];
    RunKeeps(config, run, i);
    RunsFit(config, run, i);
    StepAt(config, run, i);
    assert Coherent(request, q) && Situated(config, s, r) && PhaseFits(request, q);
    var q' := if run.actions[i].Finish? then Finished(q, response) else Closed(q, response);
    ConcludesAsOwed(request, request.payment.authorization.value, q, q', response);
  }
}
