/** What every interleaving keeps, and the steps that keep it. */
module ProtocolInvariant {
  import opened Wrappers
  import opened CodeUnits
  import opened Lifecycle
  import opened Operations
  import opened Protocol

  predicate Submitted(q: Progress) {
    q.phase.Settling? || q.phase.SettleAnswered? || q.phase.SettleReported?
  }

  /** The facilitator answered success, or raised so that nobody knows. */
  predicate Committed(q: Progress) {
    (q.phase.SettleAnswered? || q.phase.SettleReported?) && !q.phase.outcome.Refused?
  }

  /** A claimed attempt that has committed, or still can. */
  predicate MaySettle(q: Progress) {
    && q.claimed
    && (|| q.phase.Settling?
        || Committed(q)
        || (!q.Concluded()
            && (q.phase.Arrived? || q.phase.Presented? || q.phase.Verified? || q.phase.HandlerReturned?)))
  }

  /** What the recorder says is what happened. */
  predicate RecordFits(q: Progress) {
    && (PaymentSettled in q.record.seen <==> q.phase.SettleReported? && q.phase.outcome.Succeeded?)
    && (ResourceExecuted in q.record.seen <==> q.phase.Canceled? || Submitted(q))
    && (Submitted(q) || q.phase.Verified? || q.phase.HandlerReturned? ==> PaymentVerified in q.record.seen)
    && (!q.Concluded() ==>
          && (q.record.reported <==>
              || q.phase.VerificationEnded?
              || q.phase.Canceled?
              || (q.phase.SettleReported? && !q.phase.outcome.Succeeded?))
          && (q.record.reported ==>
                (q.record.terminal == SettlementFailed
                 && q.record.detail.failureReason == Some(SettlementException)
                 <==> q.phase == SettleReported(Raised))))
  }

  /** Request `r` presented this identifier, request and authorization, and claimed the identifier. */
  predicate Claimant(config: Config, s: State, r: nat, id: Text, fingerprint: Text, authorization: Authorization)
    requires |s.progress| == |config.requests|
  {
    && r < |s.progress|
    && s.progress[r].claimed
    && Keyed(config.requests[r])
    && config.requests[r].payment.identifier.value == id
    && config.requests[r].fingerprint == fingerprint
    && config.requests[r].payment.authorization.value == authorization
  }

  /** What is cached: what the handler produced, under the status and the payment response of the response. */
  function ResultOf(produced: OriginResult, response: ResponseView): CachedResult {
    CachedResult(response.status, produced.contentType, produced.body, response.paymentResponse)
  }

  /** Request `r` is where a cached result came from: its settlement succeeded, its handler produced the bytes,
      and its response carried the status and the header. */
  predicate Source(
    config: Config, s: State, r: nat, id: Text, fingerprint: Text, authorization: Authorization, result: CachedResult)
    requires |s.progress| == |config.requests|
  {
    && Claimant(config, s, r, id, fingerprint, authorization)
    && s.progress[r].phase.SettleReported?
    && s.progress[r].phase.outcome.Succeeded?
    && s.progress[r].produced.Some?
    && s.progress[r].concluding.Some?
    && result == ResultOf(s.progress[r].produced.value, s.progress[r].concluding.value)
  }

  ghost predicate HasSource(
    config: Config, s: State, id: Text, fingerprint: Text, authorization: Authorization, result: CachedResult)
    requires |s.progress| == |config.requests|
  {
    exists r: nat :: Source(config, s, r, id, fingerprint, authorization, result)
  }

  predicate SubmittedBy(config: Config, s: State, r: nat, id: Text, fingerprint: Text, authorization: Authorization)
    requires |s.progress| == |config.requests|
  {
    Claimant(config, s, r, id, fingerprint, authorization) && Submitted(s.progress[r])
  }

  /** One request on its own. */
  predicate Coherent(request: Request, q: Progress) {
    && (q.place != Passed ==> q == FRESH.(place := q.place, unheard := q.unheard))
    && (q.claimed ==> Keyed(request) && q.place == Passed)
    && (q.concluding.Some? <==> q.Concluded())
    && (Keyed(request) && q.place == Passed ==> q.claimed)
    && (q.place.Waiting? ==> Keyed(request))
    && (q.place.Replied? && q.place.answer.Cached? ==> Keyed(request))
    && (Identifier(request).Some? && Submitted(q) ==> q.claimed)
    && RecordFits(q)
  }

  /** One request against the store and the others. */
  ghost predicate Situated(config: Config, s: State, r: nat)
    requires |s.progress| == |config.requests| && r < |s.progress|
    requires Coherent(config.requests[r], s.progress[r])
  {
    var request, q := config.requests[r], s.progress[r];
    && (r in s.resolved <==> q.claimed && q.Concluded())
    && (Keyed(request) ==>
          var id, auth := request.payment.identifier.value, request.payment.authorization.value;
          && (q.claimed ==> id in s.store && s.store[id].fingerprint == request.fingerprint)
          && (q.claimed && !q.Concluded() ==> s.store[id] == Pending(request.fingerprint, auth, r))
          && (MaySettle(q) ==> !s.store[id].Rejected? && (s.store[id].Pending? ==> s.store[id].owner == r))
          && (q.place.Waiting? ==> Claimant(config, s, q.place.owner, id, request.fingerprint, auth))
          && (q.place.Replied? && q.place.answer.Cached? ==>
                HasSource(config, s, id, request.fingerprint, auth, q.place.answer.result)))
  }

  /** Request `r` claimed this identifier for this request, whatever its authorization was. */
  predicate ClaimedBefore(config: Config, s: State, r: nat, id: Text, fingerprint: Text)
    requires |s.progress| == |config.requests|
  {
    && r < |s.progress|
    && s.progress[r].claimed
    && Identifier(config.requests[r]) == Some(id)
    && config.requests[r].fingerprint == fingerprint
  }

  ghost predicate Backed(config: Config, s: State, id: Text)
    requires |s.progress| == |config.requests| && id in s.store
  {
    match s.store[id]
    case Pending(fingerprint, auth, owner) =>
      Claimant(config, s, owner, id, fingerprint, auth) && !s.progress[owner].Concluded()
    case Completed(fingerprint, auth, result) => HasSource(config, s, id, fingerprint, auth, result)
    case Uncertain(fingerprint, auth) => exists r: nat :: SubmittedBy(config, s, r, id, fingerprint, auth)
    case Rejected(fingerprint) => exists r: nat :: ClaimedBefore(config, s, r, id, fingerprint)
  }

  predicate SameIdentifier(config: Config, r1: nat, r2: nat)
    requires r1 < |config.requests| && r2 < |config.requests|
  {
    Identifier(config.requests[r1]).Some? && Identifier(config.requests[r1]) == Identifier(config.requests[r2])
  }

  ghost predicate Exclusive(config: Config, s: State)
    requires |s.progress| == |config.requests|
  {
    forall r1: nat, r2: nat | r1 < |s.progress| && r2 < |s.progress| && r1 != r2
      && MaySettle(s.progress[r1]) && MaySettle(s.progress[r2]) ::
      !SameIdentifier(config, r1, r2)
  }

  ghost predicate Invariant(config: Config, s: State) {
    && |s.progress| == |config.requests|
    && (forall r: nat | r < |s.progress| :: Coherent(config.requests[r], s.progress[r]))
    && (forall r: nat | r < |s.progress| :: Situated(config, s, r))
    && (forall id | id in s.store :: Backed(config, s, id))
    && Exclusive(config, s)
    && |s.store| <= config.capacity
  }

  lemma InitialInvariant(config: Config)
    ensures Invariant(config, Initial(config))
  {
  }

  // ---------------------------------------------------------------- frames

  /** Only request `r` changed, and what it had settled, submitted or claimed stands. */
  predicate Touches(s: State, s': State, r: nat)
    requires r < |s.progress|
  {
    && |s'.progress| == |s.progress|
    && s'.progress == s.progress[r := s'.progress[r]]
    && var q, q' := s.progress[r], s'.progress[r];
    && (q.claimed ==> q'.claimed)
    && (Submitted(q) ==> Submitted(q'))
    && (q.phase.SettleReported? ==> q'.phase == q.phase && q'.produced == q.produced)
    && (q.concluding.Some? ==> q'.concluding == q.concluding)
  }

  lemma SourceKept(
    config: Config, s: State, s': State, r: nat,
    id: Text, fingerprint: Text, authorization: Authorization, result: CachedResult)
    requires |s.progress| == |config.requests| && r < |s.progress| && Touches(s, s', r)
    requires HasSource(config, s, id, fingerprint, authorization, result)
    ensures HasSource(config, s', id, fingerprint, authorization, result)
  {
    var source: nat :| Source(config, s, source, id, fingerprint, authorization, result);
    assert Source(config, s', source, id, fingerprint, authorization, result);
  }

  lemma SubmittedKept(
    config: Config, s: State, s': State, r: nat, id: Text, fingerprint: Text, authorization: Authorization)
    requires |s.progress| == |config.requests| && r < |s.progress| && Touches(s, s', r)
    requires exists o: nat :: SubmittedBy(config, s, o, id, fingerprint, authorization)
    ensures exists o: nat :: SubmittedBy(config, s', o, id, fingerprint, authorization)
  {
    var o: nat :| SubmittedBy(config, s, o, id, fingerprint, authorization);
    assert SubmittedBy(config, s', o, id, fingerprint, authorization);
  }

  /** What the change of one entry may not do to request `i`. */
  predicate Spares(config: Config, s: State, s': State, i: nat)
    requires |s.progress| == |config.requests| && i < |s.progress|
  {
    Identifier(config.requests[i]).Some? ==>
      var id, q := Identifier(config.requests[i]).value, s.progress[i];
      id in s.store ==>
        && id in s'.store
        && s'.store[id].fingerprint == s.store[id].fingerprint
        && (s'.store[id] == s.store[id] || ((q.claimed ==> q.Concluded()) && !MaySettle(q)))
  }

  lemma OtherKept(config: Config, s: State, s': State, r: nat, i: nat)
    requires |s.progress| == |config.requests| && r < |s.progress| && Touches(s, s', r)
    requires i < |s.progress| && i != r && Coherent(config.requests[i], s.progress[i]) && Situated(config, s, i)
    requires i in s'.resolved <==> i in s.resolved
    requires Spares(config, s, s', i)
    ensures Situated(config, s', i)
  {
    var request, q := config.requests[i], s.progress[i];
    if Keyed(request) && q.place.Replied? && q.place.answer.Cached? {
      SourceKept(config, s, s', r, request.payment.identifier.value, request.fingerprint,
                 request.payment.authorization.value, q.place.answer.result);
    }
  }

  lemma EntryKept(config: Config, s: State, s': State, r: nat, id: Text)
    requires |s.progress| == |config.requests| && r < |s.progress| && Touches(s, s', r)
    requires id in s.store && Backed(config, s, id) && id in s'.store && s'.store[id] == s.store[id]
    requires s.store[id].Pending? && s.store[id].owner == r ==> !s'.progress[r].Concluded()
    ensures Backed(config, s', id)
  {
    match s.store[id]
    case Completed(fingerprint, auth, result) => SourceKept(config, s, s', r, id, fingerprint, auth, result);
    case Uncertain(fingerprint, auth) => SubmittedKept(config, s, s', r, id, fingerprint, auth);
    case Pending(fingerprint, auth, owner) => assert Claimant(config, s', owner, id, fingerprint, auth);
    case Rejected(fingerprint) =>
      var o: nat :| ClaimedBefore(config, s, o, id, fingerprint);
      assert ClaimedBefore(config, s', o, id, fingerprint);
  }

  /** A change of request `r` that leaves the store and the promises alone. */
  lemma TouchKeeps(config: Config, s: State, s': State, r: nat)
    requires Invariant(config, s) && r < |s.progress| && Touches(s, s', r)
    requires s'.store == s.store && s'.resolved == s.resolved
    requires Coherent(config.requests[r], s'.progress[r]) && Situated(config, s', r)
    requires MaySettle(s'.progress[r]) ==> MaySettle(s.progress[r])
    requires s'.progress[r].Concluded() && s.progress[r].claimed ==> s.progress[r].Concluded()
    ensures Invariant(config, s')
  {
    forall i: nat | i < |s'.progress| ensures Coherent(config.requests[i], s'.progress[i]) && Situated(config, s', i) {
      if i != r {
        OtherKept(config, s, s', r, i);
      }
    }
    forall id | id in s'.store ensures Backed(config, s', id) {
      assert Backed(config, s, id);
      EntryKept(config, s, s', r, id);
    }
  }

  // ---------------------------------------------------------------- the middleware

  predicate OfMiddleware(a: Action) {
    !a.Read? && !a.HangUp? && !a.Finish? && !a.Close?
  }

  /** The middleware is where this step is taken from, and honours what the store relies on. */
  predicate HookReady(request: Request, q: Progress, a: Action) {
    match a
    case Protect(_) => q.phase == Arrived
    case VerifyAnswers(_, _, _, _) => q.phase == Presented
    case VerifyRaises(_) => q.phase == Presented
    case HandlerReturns(_, _) => q.phase == Verified
    case HandlerThrows(_) => q.phase == Verified
    case Cancel(_, _, _) => q.phase == HandlerErred
    case BeforeSettle(_) =>
      q.phase == HandlerReturned && !q.Concluded() && (Identifier(request).Some? ==> q.claimed)
    case SettleAnswers(_, _) => q.phase == Settling
    case AfterSettle(_, outcome, _) => q.phase == SettleAnswered(outcome)
    case _ => false
  }

  /** A hook leaves its request coherent and gives it no new way to settle. */
  predicate HookSafe(request: Request, q: Progress, q': Progress) {
    && Coherent(request, q')
    && (MaySettle(q') ==> MaySettle(q))
    && (Submitted(q) ==> Submitted(q'))
    && q' == q.(phase := q'.phase, record := q'.record, produced := q'.produced)
  }

  lemma ProtectKeeps(request: Request, q: Progress, a: Action)
    requires Coherent(request, q) && q.place == Passed && HookReady(request, q, a) && a.Protect?
    ensures HookSafe(request, q, MiddlewareEffect(q, request.payment, a))
  {
  }

  lemma VerifyKeeps(request: Request, q: Progress, a: Action)
    requires Coherent(request, q) && q.place == Passed && HookReady(request, q, a) && a.VerifyAnswers?
    ensures HookSafe(request, q, MiddlewareEffect(q, request.payment, a))
  {
  }

  lemma VerifyRaiseKeeps(request: Request, q: Progress, a: Action)
    requires Coherent(request, q) && q.place == Passed && HookReady(request, q, a) && a.VerifyRaises?
    ensures HookSafe(request, q, MiddlewareEffect(q, request.payment, a))
  {
  }

  lemma HandlerKeeps(request: Request, q: Progress, a: Action)
    requires Coherent(request, q) && q.place == Passed && HookReady(request, q, a)
    requires a.HandlerReturns? || a.HandlerThrows? || a.Cancel?
    ensures HookSafe(request, q, MiddlewareEffect(q, request.payment, a))
  {
  }

  lemma SettleKeeps(request: Request, q: Progress, a: Action)
    requires Coherent(request, q) && q.place == Passed && HookReady(request, q, a)
    requires a.BeforeSettle? || a.SettleAnswers? || a.AfterSettle?
    ensures HookSafe(request, q, MiddlewareEffect(q, request.payment, a))
  {
  }

  lemma HookKeeps(request: Request, q: Progress, a: Action)
    requires Coherent(request, q) && q.place == Passed && HookReady(request, q, a)
    ensures HookSafe(request, q, MiddlewareEffect(q, request.payment, a))
  {
    hide Coherent, HookSafe, MiddlewareEffect;
    if a.Protect? {
      ProtectKeeps(request, q, a);
    } else if a.VerifyAnswers? {
      VerifyKeeps(request, q, a);
    } else if a.VerifyRaises? {
      VerifyRaiseKeeps(request, q, a);
    } else if a.HandlerReturns? || a.HandlerThrows? || a.Cancel? {
      HandlerKeeps(request, q, a);
    } else {
      SettleKeeps(request, q, a);
    }
  }

  lemma HookIsReady(config: Config, s: State, a: Action)
    requires |s.progress| == |config.requests| && Step(config, s, a) && OfMiddleware(a)
    requires Coherent(config.requests[a.r], s.progress[a.r])
    ensures s.progress[a.r].place == Passed && HookReady(config.requests[a.r], s.progress[a.r], a)
  {
  }

  lemma HookTakes(config: Config, s: State, a: Action)
    requires |s.progress| == |config.requests| && Enabled(config, s, a) && OfMiddleware(a)
    ensures Next(config, s, a) ==
      s.(progress := s.progress[a.r := MiddlewareEffect(s.progress[a.r], config.requests[a.r].payment, a)])
  {
  }

  lemma MiddlewareKeeps(config: Config, s: State, a: Action)
    requires Invariant(config, s) && Step(config, s, a) && OfMiddleware(a)
    ensures Invariant(config, Next(config, s, a))
  {
    var request, q := config.requests[a.r], s.progress[a.r];
    assert Coherent(request, q) && Situated(config, s, a.r);
    HookIsReady(config, s, a);
    HookKeeps(request, q, a);
    HookTakes(config, s, a);
    HookedKeeps(config, s, Next(config, s, a), a.r);
  }

  lemma HookedKeeps(config: Config, s: State, s': State, r: nat)
    requires Invariant(config, s) && r < |s.progress| && |s'.progress| == |s.progress|
    requires s.progress[r].place == Passed && !s.progress[r].phase.SettleReported?
    requires s' == s.(progress := s.progress[r := s'.progress[r]])
    requires HookSafe(config.requests[r], s.progress[r], s'.progress[r])
    ensures Invariant(config, s')
  {
    assert Coherent(config.requests[r], s.progress[r]) && Situated(config, s, r);
    TouchKeeps(config, s, s', r);
  }

  // ---------------------------------------------------------------- reading the store

  /** A request that was entering or waiting ends up somewhere without touching the store. */
  lemma PlacedKeeps(config: Config, s: State, s': State, r: nat, place: Place)
    requires Invariant(config, s) && r < |s.progress| && s.progress[r].place != Passed
    requires s' == s.(progress := s.progress[r := s.progress[r].(place := place)])
    requires place == Passed ==> !Keyed(config.requests[r])
    requires place.Waiting? || (place.Replied? && place.answer.Cached?) ==> Keyed(config.requests[r])
    requires
      var request := config.requests[r];
      Keyed(request) ==>
        var id, auth := request.payment.identifier.value, request.payment.authorization.value;
        && (place.Waiting? ==> Claimant(config, s, place.owner, id, request.fingerprint, auth))
        && (place.Replied? && place.answer.Cached? ==>
              HasSource(config, s, id, request.fingerprint, auth, place.answer.result))
    ensures Invariant(config, s')
  {
    var request := config.requests[r];
    assert Coherent(request, s.progress[r]) && Situated(config, s, r);
    if place.Replied? && place.answer.Cached? {
      SourceKept(config, s, s', r, request.payment.identifier.value, request.fingerprint,
                 request.payment.authorization.value, place.answer.result);
    }
    TouchKeeps(config, s, s', r);
  }

  /** What claiming an identifier that is new or released does. */
  predicate Claims(config: Config, s: State, s': State, r: nat, id: Text)
    requires |s.progress| == |config.requests| && r < |s.progress|
  {
    && s.progress[r].place != Passed
    && Keyed(config.requests[r]) && config.requests[r].payment.identifier.value == id
    && var request := config.requests[r];
    && (id in s.store ==> s.store[id].Rejected? && s.store[id].fingerprint == request.fingerprint)
    && s' == State(
      s.store[id := Pending(request.fingerprint, request.payment.authorization.value, r)], s.resolved,
      s.progress[r := s.progress[r].(place := Passed, claimed := true)])
  }

  lemma ClaimSituates(config: Config, s: State, s': State, r: nat, id: Text, i: nat)
    requires Invariant(config, s) && r < |s.progress| && Claims(config, s, s', r, id) && i < |s.progress|
    ensures Coherent(config.requests[i], s'.progress[i]) && Situated(config, s', i)
  {
    assert Coherent(config.requests[r], s.progress[r]) && Situated(config, s, r);
    if i != r {
      assert Coherent(config.requests[i], s.progress[i]) && Situated(config, s, i);
      OtherKept(config, s, s', r, i);
    }
  }

  lemma ClaimBacks(config: Config, s: State, s': State, r: nat, id: Text, other: Text)
    requires Invariant(config, s) && r < |s.progress| && Claims(config, s, s', r, id) && other in s'.store
    ensures Backed(config, s', other)
  {
    var request := config.requests[r];
    assert Coherent(request, s.progress[r]);
    if other == id {
      assert Claimant(config, s', r, id, request.fingerprint, request.payment.authorization.value);
    } else {
      assert Backed(config, s, other);
      EntryKept(config, s, s', r, other);
    }
  }

  lemma ClaimExclusive(config: Config, s: State, s': State, r: nat, id: Text)
    requires Invariant(config, s) && r < |s.progress| && Claims(config, s, s', r, id)
    ensures Exclusive(config, s')
  {
    NoneMaySettle(config, s, r, id);
  }

  lemma ClaimKeeps(config: Config, s: State, s': State, r: nat, id: Text)
    requires Invariant(config, s) && r < |s.progress| && Claims(config, s, s', r, id)
    requires id !in s.store ==> |s.store| < config.capacity
    ensures Invariant(config, s')
  {
    forall i: nat | i < |s'.progress| ensures Coherent(config.requests[i], s'.progress[i]) && Situated(config, s', i) {
      ClaimSituates(config, s, s', r, id, i);
    }
    forall other | other in s'.store ensures Backed(config, s', other) {
      ClaimBacks(config, s, s', r, id, other);
    }
    ClaimExclusive(config, s, s', r, id);
    assert s'.store.Keys == s.store.Keys + {id};
    if id in s.store {
      assert s'.store.Keys == s.store.Keys;
    }
  }

  /** Nobody can settle under an identifier that is absent or released. */
  lemma NoneMaySettle(config: Config, s: State, r: nat, id: Text)
    requires Invariant(config, s) && r < |s.progress| && Identifier(config.requests[r]) == Some(id)
    requires id in s.store ==> s.store[id].Rejected?
    ensures forall i: nat | i < |s.progress| && MaySettle(s.progress[i]) :: !SameIdentifier(config, i, r)
  {
    forall i: nat | i < |s.progress| && MaySettle(s.progress[i]) ensures !SameIdentifier(config, i, r) {
      assert Coherent(config.requests[i], s.progress[i]) && Situated(config, s, i);
    }
  }

  lemma ReadKeeps(config: Config, s: State, s': State, r: nat)
    requires Invariant(config, s) && r < |s.progress| && s.progress[r].place != Passed
    requires
      var (store, q) := ReadTurn(config.capacity, s.store, config.requests[r], r, s.progress[r]);
      s' == State(store, s.resolved, s.progress[r := q])
    ensures Invariant(config, s')
  {
    var request := config.requests[r];
    assert Coherent(request, s.progress[r]);
    if !Keyed(request) {
      PlacedKeeps(config, s, s', r, s'.progress[r].place);
    } else {
      var id, auth := request.payment.identifier.value, request.payment.authorization.value;
      match Admit(s.store, config.capacity, id, request.fingerprint, auth)
      case Claim => ClaimKeeps(config, s, s', r, id);
      case Wait(owner) =>
        assert Backed(config, s, id);
        PlacedKeeps(config, s, s', r, Waiting(owner));
      case Reply(answer) =>
        assert answer.Cached? ==> Backed(config, s, id);
        PlacedKeeps(config, s, s', r, Replied(answer));
    }
  }

  // ---------------------------------------------------------------- concluding

  /** The response of request `r` ended: only its record and its events changed. */
  predicate Ended(s: State, r: nat, q': Progress, response: ResponseView)
    requires r < |s.progress|
  {
    var q := s.progress[r];
    && q.place == Passed
    && q'.Concluded()
    && q' == q.(record := q'.record, finished := q'.finished, closed := q'.closed, concluding := q'.concluding)
    && q'.concluding == Concluding(q, response)
    && (q'.record == q.record || q'.record == FinishRecord(q.record, response.status))
  }

  lemma EndedCoherent(config: Config, s: State, r: nat, q': Progress, response: ResponseView)
    requires |s.progress| == |config.requests| && r < |s.progress| && Ended(s, r, q', response)
    requires Coherent(config.requests[r], s.progress[r])
    ensures Coherent(config.requests[r], q')
  {
  }

  /** What an unconcluded claimed attempt is judged to be from its record is what it was. */
  lemma ConclusionIsHonest(
    request: Request, auth: Authorization, q: Progress, q': Progress, response: ResponseView)
    requires RecordFits(q) && !q.Concluded()
    requires q' == q.(record := q'.record, finished := q'.finished, closed := q'.closed, concluding := Some(response))
    requires q'.Concluded()
    requires q'.record == q.record || q'.record == FinishRecord(q.record, response.status)
    ensures
      var entry := Conclusion(request.fingerprint, auth, q'.record, q'.produced, response);
      && entry.fingerprint == request.fingerprint
      && !entry.Pending?
      && (entry.Rejected? ==> !MaySettle(q'))
      && (entry.Uncertain? ==> entry.authorization == auth && Submitted(q'))
      && (entry.Completed? ==>
            && entry.authorization == auth
            && q'.phase.SettleReported? && q'.phase.outcome.Succeeded?
            && q'.produced.Some?
            && entry.result == ResultOf(q'.produced.value, response))
  {
  }

  lemma ConcludeKeeps(config: Config, s: State, s': State, r: nat, q': Progress, response: ResponseView)
    requires Invariant(config, s) && r < |s.progress| && Ended(s, r, q', response)
    requires s.progress[r].claimed && !s.progress[r].Concluded()
    requires
      var (store, resolved, _) :=
        EndTurn(s.store, s.resolved, config.requests[r], r, s.progress[r], q', response);
      s' == State(store, resolved, s.progress[r := q'])
    ensures Invariant(config, s')
  {
    var request := config.requests[r];
    assert Coherent(request, s.progress[r]) && Situated(config, s, r);
    var id, auth := request.payment.identifier.value, request.payment.authorization.value;
    var entry := Conclusion(request.fingerprint, auth, q'.record, q'.produced, response);
    EndedCoherent(config, s, r, q', response);
    ConclusionIsHonest(request, auth, s.progress[r], q', response);
    assert s' == State(s.store[id := entry], s.resolved + {r}, s.progress[r := q']);
    ReplacedKeeps(config, s, s', r, id, entry);
  }

  /** Replacing the owner's pending entry by what its attempt came to. */
  lemma ReplacedKeeps(config: Config, s: State, s': State, r: nat, id: Text, entry: Entry)
    requires Invariant(config, s) && r < |s.progress| && Touches(s, s', r)
    requires Keyed(config.requests[r]) && config.requests[r].payment.identifier.value == id
    requires s.progress[r].claimed && !s.progress[r].Concluded()
    requires s'.progress[r].claimed && s'.progress[r].Concluded() && s'.progress[r].place == Passed
    requires s'.store == s.store[id := entry] && s'.resolved == s.resolved + {r}
    requires Coherent(config.requests[r], s'.progress[r])
    requires MaySettle(s'.progress[r]) ==> MaySettle(s.progress[r])
    requires
      var request, q' := config.requests[r], s'.progress[r];
      && entry.fingerprint == request.fingerprint
      && !entry.Pending?
      && (entry.Rejected? ==> !MaySettle(q'))
      && (entry.Uncertain? ==> entry.authorization == request.payment.authorization.value && Submitted(q'))
      && (entry.Completed? ==>
            Source(config, s', r, id, request.fingerprint, request.payment.authorization.value, entry.result)
            && entry.authorization == request.payment.authorization.value)
    ensures Invariant(config, s')
  {
    var request := config.requests[r];
    assert Coherent(request, s.progress[r]) && Situated(config, s, r);
    assert s.store[id] == Pending(request.fingerprint, request.payment.authorization.value, r);
    forall i: nat | i < |s'.progress| ensures Coherent(config.requests[i], s'.progress[i]) && Situated(config, s', i) {
      if i != r {
        assert Coherent(config.requests[i], s.progress[i]) && Situated(config, s, i);
        OtherKept(config, s, s', r, i);
      }
    }
    if entry.Uncertain? {
      assert SubmittedBy(config, s', r, id, entry.fingerprint, entry.authorization);
    }
    if entry.Rejected? {
      assert ClaimedBefore(config, s', r, id, entry.fingerprint);
    }
    forall other | other in s'.store && other != id ensures Backed(config, s', other) {
      assert Backed(config, s, other);
      EntryKept(config, s, s', r, other);
    }
    assert s'.store.Keys == s.store.Keys;
  }

  lemma EndKeeps(config: Config, s: State, s': State, r: nat, q': Progress, response: ResponseView)
    requires Invariant(config, s) && r < |s.progress| && Ended(s, r, q', response)
    requires
      var (store, resolved, _) :=
        EndTurn(s.store, s.resolved, config.requests[r], r, s.progress[r], q', response);
      s' == State(store, resolved, s.progress[r := q'])
    requires s.progress[r].finished ==> q'.finished
    requires s.progress[r].closed ==> q'.closed
    ensures Invariant(config, s')
  {
    assert Coherent(config.requests[r], s.progress[r]) && Situated(config, s, r);
    if s.progress[r].claimed && !s.progress[r].Concluded() {
      ConcludeKeeps(config, s, s', r, q', response);
    } else {
      EndedCoherent(config, s, r, q', response);
      TouchKeeps(config, s, s', r);
    }
  }

  lemma HangUpKeeps(config: Config, s: State, s': State, r: nat)
    requires Invariant(config, s) && r < |s.progress| && s.progress[r].place.Waiting?
    requires s' == s.(progress := s.progress[r := s.progress[r].(unheard := true)])
    ensures Invariant(config, s')
  {
    assert Coherent(config.requests[r], s.progress[r]) && Situated(config, s, r);
    TouchKeeps(config, s, s', r);
  }

  lemma StepKeeps(config: Config, s: State, a: Action)
    requires Invariant(config, s) && Step(config, s, a)
    ensures Invariant(config, Next(config, s, a))
  {
    var q, s' := s.progress[a.r], Next(config, s, a);
    match a
    case Read(r) => ReadKeeps(config, s, s', r);
    case HangUp(r) => HangUpKeeps(config, s, s', r);
    case Finish(r, response) => EndKeeps(config, s, s', r, Finished(q, response), response);
    case Close(r, response) => EndKeeps(config, s, s', r, Closed(q, response), response);
    case _ => MiddlewareKeeps(config, s, a);
  }

  lemma StepAt(config: Config, run: Run, i: nat)
    requires IsRun(config, run) && i < |run.actions|
    ensures |run.states[i].progress| == |config.requests| && Step(config, run.states[i], run.actions[i])
    ensures run.states[i + 1] == Next(config, run.states[i], run.actions[i])
  {
  }

  /** Every state of every run satisfies the invariant. */
  lemma {:induction false} RunKeeps(config: Config, run: Run, i: nat)
    requires IsRun(config, run) && i < |run.states|
    ensures Invariant(config, run.states[i])
  {
    hide Invariant, Step, Next;
    if i == 0 {
      InitialInvariant(config);
    } else {
      RunKeeps(config, run, i - 1);
      StepAt(config, run, i - 1);
      StepKeeps(config, run.states[i - 1], run.actions[i - 1]);
    }
  }
}
