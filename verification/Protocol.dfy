/** Any number of requests sharing one identifier store, interleaved between their awaits.
    Each action below is what the source runs without yielding: one turn of the read loop, one hook of
    the payment middleware, the handler, the facilitator's answer, or a response event. */
module Protocol {
  import opened Wrappers
  import opened CodeUnits
  import opened Lifecycle
  import opened Operations

  // ---------------------------------------------------------------- requests

  /** The payment field of a request, after the upstream decoder and identifier extension read it. */
  datatype Payment =
    | Absent
    | Undecodable
    | Decoded(requirementMet: bool, identifier: Option<Text>, authorization: Option<Authorization>)

  datatype Request = Request(fingerprint: Text, payment: Payment)

  datatype Config = Config(requests: seq<Request>, capacity: nat)

  function Identifier(request: Request): Option<Text> {
    if request.payment.Decoded? then request.payment.identifier else None
  }

  /** The requests that go through the store: an identifier and an authorization to bind it to. */
  predicate Keyed(request: Request) {
    && request.payment.Decoded?
    && request.payment.requirementMet
    && request.payment.identifier.Some?
    && request.payment.authorization.Some?
  }

  // ---------------------------------------------------------------- state

  datatype Outcome = Succeeded(transaction: string) | Refused(reason: Option<string>) | Raised

  /** How far the payment middleware has taken a request. */
  datatype Phase =
    | Arrived
    | Presented
    | Verified
    | VerificationEnded
    | HandlerReturned
    | HandlerErred
    | Canceled
    | Settling
    | SettleAnswered(outcome: Outcome)
    | SettleReported(outcome: Outcome)

  datatype Place =
    | Entering
    | Waiting(owner: nat)
    | Replied(answer: Answer)
    | Passed

  /** One request: where it is in this layer, and what its recorder and state object hold. `unheard`: its
      response ended before the listeners for that were registered. `concluding`: the response as it was when
      the first listener ran. */
  datatype Progress = Progress(
    place: Place, claimed: bool, phase: Phase, record: Record, produced: Option<OriginResult>,
    finished: bool, closed: bool, unheard: bool, concluding: Option<ResponseView>)
  {
    predicate Concluded() { finished || closed }
  }

  const FRESH := Progress(Entering, false, Arrived, NEW_RECORD, None, false, false, false, None)

  /** `resolved` holds the owners whose promise `done` has been resolved. */
  datatype State = State(store: Store, resolved: set<nat>, progress: seq<Progress>)

  function Initial(config: Config): State {
    State(map[], {}, seq(|config.requests|, _ => FRESH))
  }

  // ---------------------------------------------------------------- actions

  datatype Action =
    | Read(r: nat)
    | Protect(r: nat)
    | VerifyAnswers(r: nat, valid: bool, payer: Option<string>, reason: Option<string>)
    | VerifyRaises(r: nat)
    | HandlerReturns(r: nat, result: OriginResult)
    | HandlerThrows(r: nat)
    | Cancel(r: nat, reason: Option<string>, status: Option<nat>)
    | BeforeSettle(r: nat)
    | SettleAnswers(r: nat, outcome: Outcome)
    | AfterSettle(r: nat, outcome: Outcome, payer: Option<string>)
    | HangUp(r: nat)
    | Finish(r: nat, response: ResponseView)
    | Close(r: nat, response: ResponseView)

  /** The order in which the middleware, the handler and the response run for one request. Closing
      does not stop the middleware: every later step stays enabled. The listeners are registered when the
      request passes on to it; a client that hangs up before, while its request waits, is not heard then, and
      neither event comes again. */
  predicate Enabled(config: Config, s: State, a: Action)
    requires |s.progress| == |config.requests|
  {
    && a.r < |s.progress|
    && var q := s.progress[a.r];
    match a
    case Read(_) => q.place == Entering || (q.place.Waiting? && q.place.owner in s.resolved)
    case Protect(_) => q.place == Passed && q.phase == Arrived
    case VerifyAnswers(_, _, _, _) => q.phase == Presented && config.requests[a.r].payment != Absent
    case VerifyRaises(_) => q.phase == Presented && config.requests[a.r].payment != Absent
    case HandlerReturns(_, _) => q.phase == Verified
    case HandlerThrows(_) => q.phase == Verified
    case Cancel(_, _, _) => q.phase == HandlerErred
    case BeforeSettle(_) => q.phase == HandlerReturned
    case SettleAnswers(_, _) => q.phase == Settling
    case AfterSettle(_, outcome, _) => q.phase == SettleAnswered(outcome)
    case HangUp(_) => q.place.Waiting? && !q.unheard
    case Finish(_, _) => q.place == Passed && !q.unheard && !q.finished
    case Close(_, _) => q.place == Passed && !q.unheard && !q.closed
  }

  /** What the store relies on the payment middleware for, both about entering settlement: a request
      whose response has ended does not go on to settle, and a payload that named an identifier but
      carried no authorization to bind it to is refused before settlement. */
  predicate StopsWhenEnded(s: State, a: Action)
    requires a.r < |s.progress|
  {
    a.BeforeSettle? ==> !s.progress[a.r].Concluded()
  }

  predicate RefusesUnbound(config: Config, s: State, a: Action)
    requires a.r < |s.progress| && |s.progress| == |config.requests|
  {
    a.BeforeSettle? && Identifier(config.requests[a.r]).Some? ==> s.progress[a.r].claimed
  }

  predicate Step(config: Config, s: State, a: Action)
    requires |s.progress| == |config.requests|
  {
    Enabled(config, s, a) && StopsWhenEnded(s, a) && RefusesUnbound(config, s, a)
  }

  // ---------------------------------------------------------------- effects

  /** One turn of the loop for request `r`, or its passage to the middleware: the store after it, and
      where the request is then. */
  function ReadTurn(capacity: nat, store: Store, request: Request, r: nat, q: Progress): (Store, Progress) {
    if request.payment.Decoded? && !request.payment.requirementMet then
      (store, q.(place := Replied(IdentifierRequired)))
    else if !Keyed(request) then (store, q.(place := Passed))
    else
      var id, auth := request.payment.identifier.value, request.payment.authorization.value;
      match Admit(store, capacity, id, request.fingerprint, auth)
      case Claim => (store[id := Pending(request.fingerprint, auth, r)], q.(place := Passed, claimed := true))
      case Wait(owner) => (store, q.(place := Waiting(owner)))
      case Reply(answer) => (store, q.(place := Replied(answer)))
  }

  /** What the `finish` listener adds to the recorder. */
  function FinishRecord(record: Record, status: nat): Record {
    var withStatus := NO_PATCH.(responseStatus := Put(Some(status)));
    if PaymentSettled in record.seen then
      record.Enter(ResponsePrepared).Enter(ResponseWriteAttempted).Finish(WriteAttempted, withStatus)
    else if !record.reported && PaymentPayloadReceived in record.seen && PaymentVerified !in record.seen then
      record.Finish(RejectedPreVerification, withStatus)
    else
      record.Note(withStatus)
  }

  /** `concludeOperation` for a request that has not concluded: the store, and the promises resolved. */
  function ConcludeTurn(store: Store, resolved: set<nat>, request: Request, r: nat, q: Progress, response: ResponseView)
    : (Store, set<nat>)
  {
    if !q.claimed || !Keyed(request) then (store, resolved)
    else
      var id, auth := request.payment.identifier.value, request.payment.authorization.value;
      var next := Conclusion(request.fingerprint, auth, q.record, q.produced, response);
      var mine := id in store && store[id] == Pending(request.fingerprint, auth, r);
      (if mine then store[id := next] else store, resolved + {r})
  }

  /** The response read when the attempt concludes is the one the first event finds. */
  function Concluding(q: Progress, response: ResponseView): Option<ResponseView> {
    if q.Concluded() then q.concluding else Some(response)
  }

  function Finished(q: Progress, response: ResponseView): Progress {
    q.(finished := true, record := FinishRecord(q.record, response.status), concluding := Concluding(q, response))
  }

  function Closed(q: Progress, response: ResponseView): Progress {
    q.(closed := true, concluding := Concluding(q, response))
  }

  /** The first of the two response events concludes; the other changes only its own request. */
  function EndTurn(
    store: Store, resolved: set<nat>, request: Request, r: nat, q: Progress, q': Progress, response: ResponseView)
    : (Store, set<nat>, Progress)
  {
    if q.Concluded() then (store, resolved, q')
    else
      var (store', resolved') := ConcludeTurn(store, resolved, request, r, q', response);
      (store', resolved', q')
  }

  function Failed(record: Record, state: TerminalState, reason: FailureReason): Record {
    record.Finish(state, NO_PATCH.(failureReason := Put(Some(reason))))
  }

  /** What one step of the middleware, the handler or the facilitator does to its own request. */
  function MiddlewareEffect(q: Progress, payment: Payment, a: Action): Progress
  {
    match a
    case Protect(_) =>
      q.(phase := Presented,
         record := q.record.Enter(RequestReceived).Enter(
           if payment == Absent then PaymentRequired else PaymentPayloadReceived))
    case VerifyAnswers(_, valid, payer, reason) =>
      var record := q.record.Enter(PaymentPayloadReceived);
      if valid then
        q.(phase := Verified, record := record.Enter(PaymentVerified).Note(NO_PATCH.(payer := Put(payer))))
      else
        q.(phase := VerificationEnded,
           record := Failed(record, VerificationRefused, PersistableFailureReason(reason, VerificationRejected)))
    case VerifyRaises(_) =>
      q.(phase := VerificationEnded, record := Failed(q.record, VerificationRefused, VerificationException))
    case HandlerReturns(_, result) =>
      q.(phase := if result.status >= 400 then HandlerErred else HandlerReturned, produced := Some(result))
    case HandlerThrows(_) => q.(phase := HandlerErred)
    case Cancel(_, reason, status) =>
      q.(phase := Canceled,
         record := q.record.Enter(ResourceExecuted).Finish(HandlerErrorStatus, NO_PATCH.(
           cancellationReason := Put(Some(PersistableFailureReason(reason, HandlerFailed))),
           responseStatus := if status.Some? then Put(status) else Keep)))
    case BeforeSettle(_) => q.(phase := Settling, record := q.record.Enter(ResourceExecuted))
    case SettleAnswers(_, outcome) => q.(phase := SettleAnswered(outcome))
    case AfterSettle(_, outcome, payer) =>
      q.(phase := SettleReported(outcome),
         record :=
           match outcome
           case Succeeded(transaction) =>
             q.record.Enter(PaymentSettled).Note(
               NO_PATCH.(transaction := Put(Some(transaction)), payer := Put(payer)))
           case Refused(reason) =>
             Failed(q.record, SettlementFailed, PersistableFailureReason(reason, SettlementRejected))
           case Raised => Failed(q.record, SettlementFailed, SettlementException))
    case _ => q
  }

  /** One action as its own request sees it: the store, the promises resolved, and the request after it. */
  function Turn(capacity: nat, store: Store, resolved: set<nat>, request: Request, q: Progress, a: Action)
    : (Store, set<nat>, Progress)
  {
    match a
    case Read(r) =>
      var (store', q') := ReadTurn(capacity, store, request, r, q);
      (store', resolved, q')
    case HangUp(_) => (store, resolved, q.(unheard := true))
    case Finish(r, response) => EndTurn(store, resolved, request, r, q, Finished(q, response), response)
    case Close(r, response) => EndTurn(store, resolved, request, r, q, Closed(q, response), response)
    case _ => (store, resolved, MiddlewareEffect(q, request.payment, a))
  }

  function Next(config: Config, s: State, a: Action): (s': State)
    requires |s.progress| == |config.requests|
    requires Enabled(config, s, a)
    ensures |s'.progress| == |s.progress|
  {
    var (store, resolved, q) :=
      Turn(config.capacity, s.store, s.resolved, config.requests[a.r], s.progress[a.r], a);
    State(store, resolved, s.progress[a.r := q])
  }

  // ---------------------------------------------------------------- runs

  /** A run: the states it passes through and the action taken from each. */
  datatype Run = Run(states: seq<State>, actions: seq<Action>) {
    function Last(): State
      requires |states| > 0
    {
      states[|states| - 1]
    }
  }

  ghost predicate StartsAndFollows(config: Config, run: Run) {
    && |run.states| == |run.actions| + 1
    && run.states[0] == Initial(config)
    && (forall i | 0 <= i < |run.states| :: |run.states[i].progress| == |config.requests|)
    && (forall i | 0 <= i < |run.actions| ::
          Enabled(config, run.states[i], run.actions[i])
          && run.states[i + 1] == Next(config, run.states[i], run.actions[i]))
  }

  /** A run in which the middleware does the two things the store relies on it for. */
  ghost predicate IsRun(config: Config, run: Run) {
    && StartsAndFollows(config, run)
    && (forall i | 0 <= i < |run.actions| :: Step(config, run.states[i], run.actions[i]))
  }
}
