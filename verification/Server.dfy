/** The paid resource in the form the source has it: a store and per-request objects updated in place.
    Each method of the first class and the three of the second are one stretch the source runs without
    yielding; `Perform` lets the event loop choose which, and takes exactly the protocol's step. */
module Server {
  import opened Wrappers
  import opened CodeUnits
  import opened Lifecycle
  import opened Operations
  import opened Protocol

  /** What is carried for one request. The continuation of its `async` function, which the source keeps
      implicitly, is the ghost part. */
  class RequestState {
    const index: nat
    const recorder: LifecycleRecorder
    var originResult: Option<OriginResult>
    var paymentId: Option<Text>
    var operation: Option<Entry>
    var concluded: bool
    ghost var place: Place
    ghost var phase: Phase
    ghost var finished: bool
    ghost var closed: bool
    ghost var unheard: bool
    ghost var concluding: Option<ResponseView>

    constructor (index: nat, request: Request)
      ensures this.index == index && fresh(recorder)
      ensures View() == FRESH && For(request)
    {
      this.index := index;
      recorder := new LifecycleRecorder();
      originResult, paymentId, operation, concluded := None, None, None, false;
      place, phase, finished, closed, unheard, concluding := Entering, Arrived, false, false, false, None;
    }

    ghost function View(): Progress
      reads this, recorder
    {
      Progress(place, operation.Some?, phase, recorder.Value(), originResult, finished, closed, unheard, concluding)
    }

    /** The fields agree: concluded on the first response event, and the claim is the request's own. */
    ghost predicate For(request: Request)
      reads this
    {
      && concluded == (finished || closed)
      && (operation.Some? ==>
            && place == Passed
            && Keyed(request)
            && paymentId == request.payment.identifier
            && operation == Some(Pending(request.fingerprint, request.payment.authorization.value, index)))
    }

    /** `onProtectedRequest`. */
    method OnProtectedRequest(request: Request)
      requires For(request)
      modifies this, recorder
      ensures For(request) && View() == MiddlewareEffect(old(View()), request.payment, Protect(index))
    {
      recorder.Enter(RequestReceived);
      if request.payment.Absent? {
        recorder.Enter(PaymentRequired);
      } else {
        recorder.Enter(PaymentPayloadReceived);
      }
      phase := Presented;
    }

    /** `onAfterVerify`. */
    method OnAfterVerify(request: Request, valid: bool, payer: Option<string>, reason: Option<string>)
      requires For(request)
      modifies this, recorder
      ensures For(request)
      ensures View() == MiddlewareEffect(old(View()), request.payment, VerifyAnswers(index, valid, payer, reason))
    {
      recorder.Enter(PaymentPayloadReceived);
      if valid {
        recorder.Enter(PaymentVerified);
        recorder.Note(NO_PATCH.(payer := Put(payer)));
        phase := Verified;
      } else {
        recorder.Finish(VerificationRefused, NO_PATCH.(
          failureReason := Put(Some(PersistableFailureReason(reason, VerificationRejected)))));
        phase := VerificationEnded;
      }
    }

    /** `onVerifyFailure`. */
    method OnVerifyFailure(request: Request)
      requires For(request)
      modifies this, recorder
      ensures For(request) && View() == MiddlewareEffect(old(View()), request.payment, VerifyRaises(index))
    {
      recorder.Finish(VerificationRefused, NO_PATCH.(failureReason := Put(Some(VerificationException))));
      phase := VerificationEnded;
    }

    /** The route handler: it keeps what it produced, or it threw and nothing is kept. */
    method OnHandler(request: Request, produced: Option<OriginResult>)
      requires For(request)
      modifies this
      ensures For(request)
      ensures View() == MiddlewareEffect(
        old(View()), request.payment,
        if produced.Some? then HandlerReturns(index, produced.value) else HandlerThrows(index))
    {
      if produced.Some? {
        originResult := produced;
        phase := if produced.value.status >= 400 then HandlerErred else HandlerReturned;
      } else {
        phase := HandlerErred;
      }
    }

    /** `onVerifiedPaymentCanceled`. */
    method OnVerifiedPaymentCanceled(request: Request, reason: Option<string>, status: Option<nat>)
      requires For(request)
      modifies this, recorder
      ensures For(request)
      ensures View() == MiddlewareEffect(old(View()), request.payment, Cancel(index, reason, status))
    {
      recorder.Enter(ResourceExecuted);
      recorder.Finish(HandlerErrorStatus, NO_PATCH.(
        cancellationReason := Put(Some(PersistableFailureReason(reason, HandlerFailed))),
        responseStatus := if status.Some? then Put(status) else Keep));
      phase := Canceled;
    }

    /** `onBeforeSettle`. */
    method OnBeforeSettle(request: Request)
      requires For(request)
      modifies this, recorder
      ensures For(request) && View() == MiddlewareEffect(old(View()), request.payment, BeforeSettle(index))
    {
      recorder.Enter(ResourceExecuted);
      phase := Settling;
    }

    /** The facilitator's answer arrives; no hook has run yet. */
    ghost method OnSettleAnswered(request: Request, outcome: Outcome)
      requires For(request)
      modifies this
      ensures For(request)
      ensures View() == MiddlewareEffect(old(View()), request.payment, SettleAnswers(index, outcome))
    {
      phase := SettleAnswered(outcome);
    }

    /** `onAfterSettle` for an answer, `onSettleFailure` for a raise. */
    method OnSettleReported(request: Request, outcome: Outcome, payer: Option<string>)
      requires For(request)
      modifies this, recorder
      ensures For(request)
      ensures View() == MiddlewareEffect(old(View()), request.payment, AfterSettle(index, outcome, payer))
    {
      match outcome {
        case Succeeded(transaction) =>
          recorder.Enter(PaymentSettled);
          recorder.Note(NO_PATCH.(transaction := Put(Some(transaction)), payer := Put(payer)));
        case Refused(reason) =>
          recorder.Finish(SettlementFailed, NO_PATCH.(
            failureReason := Put(Some(PersistableFailureReason(reason, SettlementRejected)))));
        case Raised =>
          recorder.Finish(SettlementFailed, NO_PATCH.(failureReason := Put(Some(SettlementException))));
      }
      phase := SettleReported(outcome);
    }

    /** The client hangs up while the request waits: no code runs, since nothing listens yet. */
    ghost method OnHangUp(request: Request)
      requires For(request)
      modifies this
      ensures For(request) && View() == old(View()).(unheard := true)
    {
      unheard := true;
    }

    /** What the `finish` listener writes into the recorder. */
    method RecordFinish(request: Request, status: nat)
      requires For(request)
      modifies recorder
      ensures For(request) && View() == old(View()).(record := FinishRecord(old(View()).record, status))
    {
      var withStatus := NO_PATCH.(responseStatus := Put(Some(status)));
      if PaymentSettled in recorder.seen {
        recorder.Enter(ResponsePrepared);
        recorder.Enter(ResponseWriteAttempted);
        recorder.Finish(WriteAttempted, withStatus);
      } else if !recorder.terminalReported && PaymentPayloadReceived in recorder.seen
        && PaymentVerified !in recorder.seen {
        recorder.Finish(RejectedPreVerification, withStatus);
      } else {
        recorder.Note(withStatus);
      }
    }
  }

  /** The store the requests share, with the promises their owners have resolved. */
  class OperationStore {
    const identifierCapacity: nat
    var idempotency: Store
    var resolved: set<nat>

    constructor (identifierCapacity: nat)
      ensures this.identifierCapacity == identifierCapacity && idempotency == map[] && resolved == {}
    {
      this.identifierCapacity := identifierCapacity;
      idempotency, resolved := map[], {};
    }

    /** One turn of the read loop. */
    method Read(state: RequestState, request: Request)
      requires state.For(request) && state.operation.None?
      modifies this`idempotency, state
      ensures state.For(request)
      ensures (idempotency, state.View()) ==
        ReadTurn(identifierCapacity, old(idempotency), request, state.index, old(state.View()))
    {
      if request.payment.Decoded? {
        if !request.payment.requirementMet {
          state.place := Replied(IdentifierRequired);
          return;
        }
        if request.payment.identifier.Some? && request.payment.authorization.Some? {
          var id, authorization := request.payment.identifier.value, request.payment.authorization.value;
          var pending := Pending(request.fingerprint, authorization, state.index);
          if id !in idempotency {
            if |idempotency| >= identifierCapacity {
              state.place := Replied(AtCapacity);
              return;
            }
            idempotency := idempotency[id := pending];
            state.paymentId, state.operation, state.place := Some(id), Some(pending), Passed;
            return;
          }
          var entry := idempotency[id];
          if entry.fingerprint != request.fingerprint {
            state.place := Replied(OtherRequest);
          } else if entry.Pending? {
            state.place :=
              if entry.authorization != authorization then Replied(OtherAuthorization) else Waiting(entry.owner);
          } else if entry.Completed? {
            state.place :=
              if entry.authorization == authorization then Replied(Cached(entry.result))
              else Replied(OtherAuthorization);
          } else if entry.Rejected? {
            idempotency := idempotency[id := pending];
            state.paymentId, state.operation, state.place := Some(id), Some(pending), Passed;
          } else {
            state.place := Replied(OutcomeUnknown);
          }
          return;
        }
      }
      state.place := Passed;
    }

    /** `concludeOperation`, guarded by the request's own flag. */
    method ConcludeOperation(state: RequestState, request: Request, response: ResponseView)
      requires state.concluded ==> state.finished || state.closed
      requires state.operation.Some? ==>
        && Keyed(request)
        && state.paymentId == request.payment.identifier
        && state.operation == Some(Pending(request.fingerprint, request.payment.authorization.value, state.index))
      modifies this`idempotency, this`resolved, state`concluded
      ensures state.concluded
      ensures (idempotency, resolved) ==
        if old(state.concluded) then (old(idempotency), old(resolved))
        else ConcludeTurn(old(idempotency), old(resolved), request, state.index, old(state.View()), response)
    {
      if state.concluded {
        return;
      }
      state.concluded := true;
      if state.operation.None? || state.paymentId.None? {
        return;
      }
      var operation, id := state.operation.value, state.paymentId.value;
      var next: Entry;
      if PaymentSettled in state.recorder.seen {
        if state.originResult.None? {
          next := Uncertain(operation.fingerprint, operation.authorization);
        } else {
          var produced := state.originResult.value;
          next := Completed(operation.fingerprint, operation.authorization,
                            CachedResult(
                              response.status, produced.contentType, produced.body, response.paymentResponse));
        }
      } else if state.recorder.terminalReported {
        if state.recorder.terminal == SettlementFailed
           && state.recorder.detail.failureReason == Some(SettlementException) {
          next := Uncertain(operation.fingerprint, operation.authorization);
        } else {
          next := Rejected(operation.fingerprint);
        }
      } else if ResourceExecuted in state.recorder.seen {
        next := Uncertain(operation.fingerprint, operation.authorization);
      } else {
        next := Rejected(operation.fingerprint);
      }
      if id in idempotency && idempotency[id] == operation {
        idempotency := idempotency[id := next];
      }
      resolved := resolved + {state.index};
    }

    /** The `finish` listener. */
    method OnFinish(state: RequestState, request: Request, response: ResponseView)
      requires state.For(request)
      modifies this`idempotency, this`resolved, state, state.recorder
      ensures state.For(request)
      ensures (idempotency, resolved, state.View()) == EndTurn(
        old(idempotency), old(resolved), request, state.index,
        old(state.View()), Finished(old(state.View()), response), response)
    {
      state.RecordFinish(request, response.status);
      ConcludeOperation(state, request, response);
      state.concluding := Concluding(state.View(), response);
      state.finished := true;
    }

    /** The `close` listener. */
    method OnClose(state: RequestState, request: Request, response: ResponseView)
      requires state.For(request)
      modifies this`idempotency, this`resolved, state
      ensures state.For(request)
      ensures (idempotency, resolved, state.View()) == EndTurn(
        old(idempotency), old(resolved), request, state.index,
        old(state.View()), Closed(old(state.View()), response), response)
    {
      ConcludeOperation(state, request, response);
      state.concluding := Concluding(state.View(), response);
      state.closed := true;
    }
  }

  ghost function Views(requests: seq<RequestState>): (views: seq<Progress>)
    reads set i | 0 <= i < |requests| :: requests[i] as object
    reads set i | 0 <= i < |requests| :: requests[i].recorder as object
    ensures |views| == |requests|
    ensures forall i | 0 <= i < |requests| :: views[i] == requests[i].View()
  {
    if requests == [] then [] else [requests[0].View()] + Views(requests[1..])
  }

  /** The whole resource: the store, and one state object per request. */
  class PaidResource {
    const config: Config
    const operations: OperationStore
    const requests: seq<RequestState>

    constructor (config: Config)
      ensures this.config == config && Valid() && View() == Initial(config)
    {
      var store := new OperationStore(config.capacity);
      var states: seq<RequestState> := [];
      for i := 0 to |config.requests|
        invariant |states| == i
        invariant fresh(store) && store.idempotency == map[] && store.resolved == {}
        invariant forall j | 0 <= j < i ::
          fresh(states[j]) && fresh(states[j].recorder) && states[j].index == j
          && states[j].For(config.requests[j]) && states[j].View() == FRESH
        invariant forall j, k | 0 <= j < k < i :: states[j].recorder != states[k].recorder
      {
        var state := new RequestState(i, config.requests[i]);
        states := states + [state];
      }
      this.config, operations, requests := config, store, states;
    }

    ghost predicate Valid()
      reads set i | 0 <= i < |requests| :: requests[i] as object
    {
      && operations.identifierCapacity == config.capacity
      && |requests| == |config.requests|
      && (forall i | 0 <= i < |requests| :: requests[i].index == i && requests[i].For(config.requests[i]))
      && (forall i, j | 0 <= i < j < |requests| :: requests[i].recorder != requests[j].recorder)
    }

    ghost function View(): State
      reads operations
      reads set i | 0 <= i < |requests| :: requests[i] as object
      reads set i | 0 <= i < |requests| :: requests[i].recorder as object
    {
      State(operations.idempotency, operations.resolved, Views(requests))
    }

    /** A stretch that touched only request `r` leaves every other request's view alone. */
    twostate lemma OnlyOne(r: nat)
      requires old(Valid()) && r < |requests|
      requires requests[r].For(config.requests[r])
      requires forall i | 0 <= i < |requests| && i != r :: unchanged(requests[i]) && unchanged(requests[i].recorder)
      ensures Valid()
      ensures View().progress == old(View().progress)[r := requests[r].View()]
    {
      forall i | 0 <= i < |requests| && i != r ensures View().progress[i] == old(View().progress)[i] {
        assert requests[i].View() == old(requests[i].View());
      }
    }

    /** Whatever the event loop runs next, the resource takes the protocol's step for it. */
    method Perform(a: Action)
      requires Valid() && Enabled(config, View(), a)
      modifies operations, requests[a.r], requests[a.r].recorder
      ensures Valid() && View() == Next(config, old(View()), a)
    {
      Dispatch(requests[a.r], config.requests[a.r], a);
      OnlyOne(a.r);
    }

    method Dispatch(state: RequestState, request: Request, a: Action)
      requires operations.identifierCapacity == config.capacity
      requires state.For(request) && state.index == a.r
      requires a.Read? ==> state.operation.None?
      modifies operations, state, state.recorder
      ensures state.For(request)
      ensures (operations.idempotency, operations.resolved, state.View()) == Turn(
        config.capacity, old(operations.idempotency), old(operations.resolved), request, old(state.View()), a)
    {
      match a {
        case Read(_) => operations.Read(state, request);
        case HangUp(_) => state.OnHangUp(request);
        case Finish(_, response) => operations.OnFinish(state, request, response);
        case Close(_, response) => operations.OnClose(state, request, response);
        case _ => Hook(state, request, a);
      }
    }

    method Hook(state: RequestState, request: Request, a: Action)
      requires state.For(request) && state.index == a.r
      requires !a.Read? && !a.HangUp? && !a.Finish? && !a.Close?
      modifies state, state.recorder
      ensures state.For(request) && state.View() == MiddlewareEffect(old(state.View()), request.payment, a)
    {
      match a {
        case Protect(_) => state.OnProtectedRequest(request);
        case VerifyAnswers(_, valid, payer, reason) => state.OnAfterVerify(request, valid, payer, reason);
        case VerifyRaises(_) => state.OnVerifyFailure(request);
        case HandlerReturns(_, result) => state.OnHandler(request, Some(result));
        case HandlerThrows(_) => state.OnHandler(request, None);
        case Cancel(_, reason, status) => state.OnVerifiedPaymentCanceled(request, reason, status);
        case BeforeSettle(_) => state.OnBeforeSettle(request);
        case SettleAnswers(_, outcome) => state.OnSettleAnswered(request, outcome);
        case AfterSettle(_, outcome, payer) => state.OnSettleReported(request, outcome, payer);
      }
    }
  }
}
