/** None of the three things the store relies on can be dropped: without either of the two it expects of the
    middleware, two settlements under one identifier can commit; and an owner whose response ended before its
    listeners were registered leaves a later request waiting for ever. Even with all three, a success that is
    reported only after the response ended is not served to a retry. */
module ProtocolNecessity {
  import opened Wrappers
  import opened CodeUnits
  import opened Lifecycle
  import opened Operations
  import opened Protocol
  import opened ProtocolInvariant
  import opened ProtocolOutcomes
  import opened ProtocolRecords
  import opened ProtocolAnswers
  import opened ProtocolProgress

  const KEY: Text := Lit("pay_1")
  const AUTH_A := Authorization(Lit("a"), [], [], [], [], Lit("n1"), Lit("s"))
  const AUTH_B := Authorization(Lit("a"), [], [], [], [], Lit("n2"), Lit("s"))
  const RESULT := OriginResult(200, [], [])

  /** Two requests under one identifier, each with its own authorization. */
  const TWO := Config([
    Request([], Decoded(true, Some(KEY), Some(AUTH_A))),
    Request([], Decoded(true, Some(KEY), Some(AUTH_B)))], 1)

  /** The same two requests without an authorization to bind the identifier to. */
  const UNBOUND := Config([
    Request([], Decoded(true, Some(KEY), None)),
    Request([], Decoded(true, Some(KEY), None))], 1)

  lemma Grow(config: Config, run: Run, a: Action) returns (longer: Run)
    requires StartsAndFollows(config, run) && Enabled(config, run.Last(), a)
    ensures StartsAndFollows(config, longer)
    ensures longer.Last() == Next(config, run.Last(), a)
    ensures longer.actions == run.actions + [a]
  {
    longer := Run(run.states + [Next(config, run.Last(), a)], run.actions + [a]);
    forall i | 0 <= i < |longer.actions|
      ensures Enabled(config, longer.states[i], longer.actions[i])
        && longer.states[i + 1] == Next(config, longer.states[i], longer.actions[i])
    {
      if i < |run.actions| {
        assert longer.states[i] == run.states[i] && longer.states[i + 1] == run.states[i + 1];
      }
    }
  }

  /** Request `r` alone moved, and only in the middleware. */
  predicate OnlyHooked(s: State, s': State, r: nat)
    requires r < |s.progress|
  {
    && |s'.progress| == |s.progress|
    && s' == s.(progress := s.progress[r := s'.progress[r]])
    && var q, q' := s.progress[r], s'.progress[r];
    q' == q.(phase := q'.phase, record := q'.record, produced := q'.produced)
  }

  /** One honest middleware step of a request. */
  lemma GrowHook(config: Config, run: Run, a: Action, phase: Phase) returns (longer: Run)
    requires StartsAndFollows(config, run) && a.r < |config.requests|
    requires config.requests[a.r].payment.Decoded? && run.Last().progress[a.r].place == Passed
    requires Coherent(config.requests[a.r], run.Last().progress[a.r])
    requires HookReady(config.requests[a.r], run.Last().progress[a.r], a)
    requires MiddlewareEffect(run.Last().progress[a.r], config.requests[a.r].payment, a).phase == phase
    ensures StartsAndFollows(config, longer)
    ensures OnlyHooked(run.Last(), longer.Last(), a.r)
    ensures longer.Last().progress[a.r].phase == phase
    ensures Coherent(config.requests[a.r], longer.Last().progress[a.r])
    ensures longer.actions == run.actions + [a]
  {
    hide Coherent, Conclusion, Admit, FinishRecord;
    longer := Grow(config, run, a);
    HookKeeps(config.requests[a.r], run.Last().progress[a.r], a);
    HookTakes(config, run.Last(), a);
  }

  /** What a fresh request that passes to the middleware is then. */
  function PassedOn(config: Config, s: State, r: nat): (Store, Progress)
    requires r < |config.requests| && r < |s.progress|
  {
    ReadTurn(config.capacity, s.store, config.requests[r], r, s.progress[r])
  }

  lemma GrowToVerified(config: Config, run: Run, r: nat) returns (longer: Run)
    requires StartsAndFollows(config, run)
    requires r < |config.requests| && config.requests[r].payment.Decoded?
    requires run.Last().progress[r].place == Passed && run.Last().progress[r].phase == Arrived
    requires Coherent(config.requests[r], run.Last().progress[r])
    ensures StartsAndFollows(config, longer) && Coherent(config.requests[r], longer.Last().progress[r])
    ensures OnlyHooked(run.Last(), longer.Last(), r) && longer.Last().progress[r].phase == Verified
    ensures longer.actions == run.actions + [Protect(r)] + [VerifyAnswers(r, true, None, None)]
  {
    hide Coherent;
    var presented := GrowHook(config, run, Protect(r), Presented);
    longer := GrowHook(config, presented, VerifyAnswers(r, true, None, None), Verified);
  }

  lemma GrowHooks(config: Config, run: Run, r: nat) returns (longer: Run)
    requires StartsAndFollows(config, run)
    requires r < |config.requests| && config.requests[r].payment.Decoded?
    requires run.Last().progress[r].place == Passed && run.Last().progress[r].phase == Arrived
    requires Coherent(config.requests[r], run.Last().progress[r])
    ensures StartsAndFollows(config, longer) && Coherent(config.requests[r], longer.Last().progress[r])
    ensures OnlyHooked(run.Last(), longer.Last(), r) && longer.Last().progress[r].phase == HandlerReturned
    ensures forall a | a in longer.actions :: a in run.actions || (!a.Finish? && !a.Close?)
  {
    var verified := GrowToVerified(config, run, r);
    longer := GrowHook(config, verified, HandlerReturns(r, RESULT), HandlerReturned);
  }

  /** A request that passes to the middleware can reach the end of its handler. */
  lemma GrowToHandler(config: Config, run: Run, r: nat) returns (longer: Run)
    requires StartsAndFollows(config, run)
    requires r < |config.requests| && run.Last().progress[r] == FRESH && config.requests[r].payment.Decoded?
    requires PassedOn(config, run.Last(), r).1.place == Passed
    ensures StartsAndFollows(config, longer) && Coherent(config.requests[r], longer.Last().progress[r])
    ensures
      var s, s', (store, q) := run.Last(), longer.Last(), PassedOn(config, run.Last(), r);
      && |s'.progress| == |s.progress|
      && s' == State(store, s.resolved, s.progress[r := s'.progress[r]])
      && s'.progress[r] == q.(
        phase := HandlerReturned, record := s'.progress[r].record, produced := s'.progress[r].produced)
    ensures forall a | a in longer.actions :: a in run.actions || (!a.Finish? && !a.Close?)
  {
    var read := Grow(config, run, Read(r));
    longer := GrowHooks(config, read, r);
  }

  /** A claimed attempt that did not reach settlement and whose response then closes releases its identifier. */
  lemma CloseReleases(config: Config, s: State, r: nat, response: ResponseView)
    requires |s.progress| == |config.requests| && r < |config.requests|
    requires Coherent(config.requests[r], s.progress[r]) && Situated(config, s, r)
    requires
      var q := s.progress[r];
      q.claimed && !q.Concluded() && !q.unheard && (q.phase == HandlerReturned || q.phase == VerificationEnded)
    ensures
      var request, s' := config.requests[r], Next(config, s, Close(r, response));
      && Keyed(request)
      && s' == State(
        s.store[request.payment.identifier.value := Rejected(request.fingerprint)], s.resolved + {r},
        s.progress[r := Closed(s.progress[r], response)])
  {
    hide Conclusion, FinishRecord, RecordFits;
    var request, q := config.requests[r], s.progress[r];
    ConcludesAsOwed(request, request.payment.authorization.value, q, Closed(q, response), response);
  }

  lemma GrowToReleased(config: Config, run: Run, r: nat, response: ResponseView) returns (longer: Run)
    requires StartsAndFollows(config, run) && r < |config.requests|
    requires Coherent(config.requests[r], run.Last().progress[r]) && Situated(config, run.Last(), r)
    requires
      var q := run.Last().progress[r];
      q.claimed && !q.Concluded() && !q.unheard && (q.phase == HandlerReturned || q.phase == VerificationEnded)
    ensures StartsAndFollows(config, longer) && longer.actions == run.actions + [Close(r, response)]
    ensures
      var request, s := config.requests[r], run.Last();
      && Keyed(request)
      && longer.Last() == State(
        s.store[request.payment.identifier.value := Rejected(request.fingerprint)], s.resolved + {r},
        s.progress[r := Closed(s.progress[r], response)])
  {
    CloseReleases(config, run.Last(), r, response);
    hide Conclusion, ConcludeTurn, Situated, RecordFits, FinishRecord;
    longer := Grow(config, run, Close(r, response));
  }

  /** A request whose handler returned can go on to commit, when nothing forbids it. */
  lemma GrowToCommit(config: Config, run: Run, r: nat) returns (longer: Run)
    requires StartsAndFollows(config, run) && r < |config.requests|
    requires run.Last().progress[r].phase == HandlerReturned
    ensures StartsAndFollows(config, longer)
    ensures
      var s, s' := run.Last(), longer.Last();
      && s'.store == s.store && s'.resolved == s.resolved
      && s'.progress == s.progress[r := s'.progress[r]]
      && Committed(s'.progress[r])
    ensures forall a | a in longer.actions :: a in run.actions || (!a.Finish? && !a.Close?)
  {
    var settling := Grow(config, run, BeforeSettle(r));
    longer := Grow(config, settling, SettleAnswers(r, Succeeded("tx")));
  }

  /** The first request's handler returned, and its response closed. */
  lemma GrowToClosedHandler() returns (run: Run)
    ensures StartsAndFollows(TWO, run) && |run.Last().progress| == 2
    ensures run.Last() == State(map[KEY := Rejected([])], {0}, [run.Last().progress[0], FRESH])
    ensures run.Last().progress[0].phase == HandlerReturned
  {
    hide MiddlewareEffect, Conclusion, ConcludeTurn, FinishRecord, Lit;
    var start := Run([Initial(TWO)], []);
    assert start.Last().progress == [FRESH, FRESH];
    var handled := GrowToHandler(TWO, start, 0);
    run := GrowToReleased(TWO, handled, 0, ResponseView(200, None));
    assert map[KEY := Pending([], AUTH_A, 0)][KEY := Rejected([])] == map[KEY := Rejected([])];
    assert run.Last().progress == [run.Last().progress[0], FRESH];
  }

  /** Were a closed request to go on to settle, two settlements under one identifier could commit. */
  lemma ClosedThenSettledCommitsTwice() returns (run: Run)
    ensures StartsAndFollows(TWO, run)
    ensures forall i | 0 <= i < |run.actions| :: RefusesUnbound(TWO, run.states[i], run.actions[i])
    ensures Committed(run.Last().progress[0]) && Committed(run.Last().progress[1]) && SameIdentifier(TWO, 0, 1)
  {
    hide MiddlewareEffect, Conclusion, ConcludeTurn, FinishRecord, Lit;
    var closed := GrowToClosedHandler();
    var second := GrowToHandler(TWO, closed, 1);
    var once := GrowToCommit(TWO, second, 1);
    run := GrowToCommit(TWO, once, 0);
    ClaimsBeforeSettling(TWO, run);
  }

  /** Were an unbound identifier to be settled downstream, two settlements under it could commit. */
  lemma UnboundSettledCommitsTwice() returns (run: Run)
    ensures StartsAndFollows(UNBOUND, run)
    ensures forall i | 0 <= i < |run.actions| :: StopsWhenEnded(run.states[i], run.actions[i])
    ensures Committed(run.Last().progress[0]) && Committed(run.Last().progress[1]) && SameIdentifier(UNBOUND, 0, 1)
  {
    var start := Run([Initial(UNBOUND)], []);
    var first := GrowToHandler(UNBOUND, start, 0);
    assert first.Last().progress[1] == FRESH;
    var both := GrowToHandler(UNBOUND, first, 1);
    var once := GrowToCommit(UNBOUND, both, 0);
    run := GrowToCommit(UNBOUND, once, 1);
    NeverEnds(UNBOUND, run);
  }

  // ---------------------------------------------------------------- an owner that is not heard

  /** Three requests under one identifier, all presenting the same authorization. */
  const THREE := Config([
    Request([], Decoded(true, Some(KEY), Some(AUTH_A))),
    Request([], Decoded(true, Some(KEY), Some(AUTH_A))),
    Request([], Decoded(true, Some(KEY), Some(AUTH_A)))], 1)

  /** The entry request `r` of the three makes when it claims. */
  function Mine(r: nat): Entry {
    Pending([], AUTH_A, r)
  }

  /** The middleware refuses a payment that has just come through. */
  lemma GrowToRefusal(config: Config, run: Run, r: nat) returns (longer: Run)
    requires StartsAndFollows(config, run)
    requires r < |config.requests| && config.requests[r].payment.Decoded?
    requires run.Last().progress[r].place == Passed && run.Last().progress[r].phase == Arrived
    requires Coherent(config.requests[r], run.Last().progress[r])
    ensures StartsAndFollows(config, longer) && Coherent(config.requests[r], longer.Last().progress[r])
    ensures OnlyHooked(run.Last(), longer.Last(), r) && longer.Last().progress[r].phase == VerificationEnded
    ensures longer.actions == run.actions + [Protect(r)] + [VerifyAnswers(r, false, None, None)]
  {
    hide Coherent, PersistableFailureReason, Conclusion, FinishRecord;
    var presented := GrowHook(config, run, Protect(r), Presented);
    longer := GrowHook(config, presented, VerifyAnswers(r, false, None, None), VerificationEnded);
  }

  /** The first claims; the second waits for it and hangs up meanwhile. */
  lemma GrowToHangUp() returns (run: Run)
    ensures StartsAndFollows(THREE, run) && forall a | a in run.actions :: !a.BeforeSettle?
    ensures run.Last() == State(map[KEY := Mine(0)], {}, [
      FRESH.(place := Passed, claimed := true), FRESH.(place := Waiting(0), unheard := true), FRESH])
  {
    var start := Run([Initial(THREE)], []);
    assert start.Last().progress == [FRESH, FRESH, FRESH];
    var claimed := Grow(THREE, start, Read(0));
    var waiting := Grow(THREE, claimed, Read(1));
    run := Grow(THREE, waiting, HangUp(1));
  }

  /** Everything of this request has happened. */
  predicate Over(q: Progress) {
    q.place == Passed && q.phase == VerificationEnded && (q.unheard || (q.finished && q.closed))
  }

  /** The first is refused and its response closes, which releases the identifier and wakes the second. */
  lemma GrowToClose() returns (run: Run)
    ensures StartsAndFollows(THREE, run) && forall a | a in run.actions :: !a.BeforeSettle?
    ensures |run.Last().progress| == 3
    ensures run.Last() == State(map[KEY := Rejected([])], {0}, [
      run.Last().progress[0], FRESH.(place := Waiting(0), unheard := true), FRESH])
    ensures
      var q := run.Last().progress[0];
      q.place == Passed && q.phase == VerificationEnded && !q.unheard && q.closed && !q.finished
  {
    hide MiddlewareEffect, Conclusion, ConcludeTurn, FinishRecord, Lit;
    var hung := GrowToHangUp();
    var refused := GrowToRefusal(THREE, hung, 0);
    run := GrowToReleased(THREE, refused, 0, ResponseView(402, None));
    assert map[KEY := Mine(0)][KEY := Rejected([])] == map[KEY := Rejected([])];
    assert run.Last().progress == [
      run.Last().progress[0], FRESH.(place := Waiting(0), unheard := true), FRESH];
  }

  lemma GrowToRelease() returns (run: Run)
    ensures StartsAndFollows(THREE, run) && forall a | a in run.actions :: !a.BeforeSettle?
    ensures |run.Last().progress| == 3 && Over(run.Last().progress[0])
    ensures run.Last() == State(map[KEY := Rejected([])], {0}, [
      run.Last().progress[0], FRESH.(place := Waiting(0), unheard := true), FRESH])
  {
    hide MiddlewareEffect, Conclusion, ConcludeTurn, FinishRecord, Lit;
    var closed := GrowToClose();
    run := Grow(THREE, closed, Finish(0, ResponseView(402, None)));
    assert run.Last().progress == [
      run.Last().progress[0], FRESH.(place := Waiting(0), unheard := true), FRESH];
  }

  lemma NoneCanStep(s: State)
    requires |s.progress| == 3 && Over(s.progress[0]) && Over(s.progress[1])
    requires s.progress[2].place == Waiting(1) && s.progress[2].phase == Arrived && 1 !in s.resolved
    ensures forall a: Action | !a.HangUp? :: !Step(THREE, s, a)
  {
  }

  lemma NoSettlementIsRun(config: Config, run: Run)
    requires StartsAndFollows(config, run) && forall a | a in run.actions :: !a.BeforeSettle?
    ensures IsRun(config, run)
  {
    forall i | 0 <= i < |run.actions| ensures Step(config, run.states[i], run.actions[i]) {
      assert run.actions[i] in run.actions;
    }
  }

  /** The second claims, though nothing hears its response any more, and the third waits for it: nobody has a
      step left but to hang up, and the third is still waiting. Both things expected of the middleware hold. */
  lemma UnheardOwnerStrandsAWaiter() returns (run: Run)
    ensures IsRun(THREE, run)
    ensures forall a: Action | !a.HangUp? :: !Step(THREE, run.Last(), a)
    ensures run.Last().progress[2].place == Waiting(1) && !Done(run.Last().progress[2])
  {
    hide MiddlewareEffect, Conclusion, ConcludeTurn, FinishRecord, Lit;
    var released := GrowToRelease();
    var claimed := Grow(THREE, released, Read(1));
    assert claimed.Last().progress[1] == FRESH.(place := Passed, claimed := true, unheard := true);
    var refused := GrowToRefusal(THREE, claimed, 1);
    run := Grow(THREE, refused, Read(2));
    NoSettlementIsRun(THREE, run);
    hide StartsAndFollows, IsRun;
    NoneCanStep(run.Last());
  }

  // ---------------------------------------------------------------- a success that is reported late

  lemma GrowRun(config: Config, run: Run, a: Action) returns (longer: Run)
    requires IsRun(config, run) && Step(config, run.Last(), a)
    ensures IsRun(config, longer) && longer.actions == run.actions + [a]
    ensures longer.states == run.states + [Next(config, run.Last(), a)]
  {
    hide Next;
    longer := Run(run.states + [Next(config, run.Last(), a)], run.actions + [a]);
    forall i | 0 <= i < |longer.actions|
      ensures Step(config, longer.states[i], longer.actions[i])
        && longer.states[i + 1] == Next(config, longer.states[i], longer.actions[i])
    {
      if i < |run.actions| {
        assert longer.states[i] == run.states[i] && longer.states[i + 1] == run.states[i + 1];
      }
    }
  }

  /** The first request is being settled when its response closes. */
  lemma GrowToSettling() returns (run: Run)
    ensures IsRun(THREE, run) && |run.Last().progress| == 3
    ensures
      var q := run.Last().progress[0];
      q.place == Passed && q.claimed && q.phase == Settling && !q.Concluded() && !q.unheard
    ensures run.Last().progress[1] == FRESH
  {
    hide MiddlewareEffect, Lit;
    var start := Run([Initial(THREE)], []);
    assert start.Last().progress == [FRESH, FRESH, FRESH];
    var handled := GrowToHandler(THREE, start, 0);
    run := GrowHook(THREE, handled, BeforeSettle(0), Settling) by {
      SettlingFollows(THREE, handled.Last(), 0);
    }
    NeverEnds(THREE, run);
    ClaimsBeforeSettling(THREE, run);
  }

  lemma SettlingFollows(config: Config, s: State, r: nat)
    requires r < |config.requests| && r < |s.progress|
    ensures MiddlewareEffect(s.progress[r], config.requests[r].payment, BeforeSettle(r)).phase == Settling
  {
  }

  const NO_CONTENT := ResponseView(200, None)

  /** Its response closes meanwhile. */
  lemma GrowToClosedSettling(settling: Run) returns (run: Run)
    requires IsRun(THREE, settling) && |settling.Last().progress| == 3
    requires
      var q := settling.Last().progress[0];
      q.place == Passed && q.claimed && q.phase == Settling && !q.Concluded() && !q.unheard
    ensures IsRun(THREE, run) && run.actions == settling.actions + [Close(0, NO_CONTENT)]
    ensures run.states == settling.states + [run.Last()]
    ensures run.Last().progress == settling.Last().progress[0 := Closed(settling.Last().progress[0], NO_CONTENT)]
  {
    hide IsRun, ConcludeTurn;
    run := GrowRun(THREE, settling, Close(0, NO_CONTENT));
  }

  /** Then the facilitator answers success, which is reported. */
  lemma GrowToReported(closed: Run) returns (run: Run)
    requires IsRun(THREE, closed) && |closed.Last().progress| == 3
    requires
      var q := closed.Last().progress[0];
      q.place == Passed && q.claimed && q.phase == Settling && q.closed && !q.finished
    ensures IsRun(THREE, run) && closed.states < run.states && closed.actions < run.actions
    ensures |run.Last().progress| == 3 && run.Last().progress[1] == closed.Last().progress[1]
    ensures
      var q := run.Last().progress[0];
      q.claimed && q.Concluded() && !q.finished && q.phase == SettleReported(Succeeded("tx"))
  {
    hide IsRun, ConcludeTurn, ReadTurn;
    var answered := GrowRun(THREE, closed, SettleAnswers(0, Succeeded("tx")));
    run := GrowRun(THREE, answered, AfterSettle(0, Succeeded("tx"), None));
  }

  lemma LengthsFit(config: Config, run: Run)
    requires IsRun(config, run)
    ensures |run.states| == |run.actions| + 1
  {
  }

  lemma ReadMovesItself(config: Config, s: State, r: nat)
    requires |s.progress| == |config.requests| && Enabled(config, s, Read(r))
    ensures forall o: nat | o < |s.progress| && o != r :: Next(config, s, Read(r)).progress[o] == s.progress[o]
  {
  }

  /** A client hangs up while its payment is being settled, and the settlement then succeeds and is reported: the
      attempt concluded in doubt, so a retry of the very same request is told that the outcome is unknown, and is
      not served what the handler produced. */
  lemma LateReportIsNotServed() returns (run: Run)
    ensures IsRun(THREE, run) && |run.Last().progress| == 3 && Repeats(THREE, 1, 0)
    ensures
      var q := run.Last().progress[0];
      q.claimed && q.Concluded() && Succeeds(q.phase) && q.produced.Some?
    ensures run.Last().progress[1].place == Replied(OutcomeUnknown)
  {
    hide Lit;
    var settling := GrowToSettling();
    var closed := GrowToClosedSettling(settling);
    var reported := GrowToReported(closed);
    run := GrowRun(THREE, reported, Read(1));
    LengthsFit(THREE, settling);
    LengthsFit(THREE, reported);
    ReadMovesItself(THREE, reported.Last(), 1);
    var k, i := |settling.actions|, |reported.actions|;
    RunsFit(THREE, run, i + 1);
    assert run.states[k] == settling.Last() && run.states[i] == reported.Last() && run.states[i + 1] == run.Last();
    hide IsRun, StartsAndFollows, Next;
    assert PhaseFits(THREE.requests[0], run.Last().progress[0]);
    RetryIsServedExactly(THREE, run, k, i, 0, 1);
  }

  // ---------------------------------------------------------------- the conditions over a run

  /** Keyed requests are refused nothing by the second condition: they pass only by claiming. */
  lemma ClaimsBeforeSettling(config: Config, run: Run)
    requires StartsAndFollows(config, run)
    requires forall r: nat | r < |config.requests| :: Keyed(config.requests[r])
    ensures forall i | 0 <= i < |run.actions| :: RefusesUnbound(config, run.states[i], run.actions[i])
  {
    forall i: nat | i < |run.actions| ensures RefusesUnbound(config, run.states[i], run.actions[i]) {
      PassedKeyedClaimed(config, run, i);
    }
  }

  predicate PassesByClaiming(q: Progress) {
    (q.place != Passed ==> q.phase == Arrived) && (q.place == Passed ==> q.claimed)
  }

  lemma StepPassesByClaiming(config: Config, s: State, a: Action)
    requires |s.progress| == |config.requests| && Enabled(config, s, a) && Keyed(config.requests[a.r])
    requires PassesByClaiming(s.progress[a.r])
    ensures PassesByClaiming(Next(config, s, a).progress[a.r])
  {
    hide Conclusion, ConcludeTurn, FinishRecord;
  }

  lemma {:induction false} PassedKeyedClaimed(config: Config, run: Run, i: nat)
    requires StartsAndFollows(config, run) && i < |run.states|
    requires forall r: nat | r < |config.requests| :: Keyed(config.requests[r])
    ensures forall r: nat | r < |config.requests| :: PassesByClaiming(run.states[i].progress[r])
  {
    if i > 0 {
      PassedKeyedClaimed(config, run, i - 1);
      var s, a := run.states[i - 1], run.actions[i - 1];
      assert Enabled(config, s, a);
      StepPassesByClaiming(config, s, a);
      hide PassesByClaiming, Enabled, Turn;
    }
  }

  /** Without a response event no request ends. */
  lemma NeverEnds(config: Config, run: Run)
    requires StartsAndFollows(config, run)
    requires forall a | a in run.actions :: !a.Finish? && !a.Close?
    ensures forall i | 0 <= i < |run.actions| :: StopsWhenEnded(run.states[i], run.actions[i])
  {
    forall i: nat | i < |run.actions| ensures StopsWhenEnded(run.states[i], run.actions[i]) {
      OpenAt(config, run, i);
    }
  }

  lemma {:induction false} OpenAt(config: Config, run: Run, i: nat)
    requires StartsAndFollows(config, run) && i < |run.states|
    requires forall a | a in run.actions :: !a.Finish? && !a.Close?
    ensures forall r: nat | r < |config.requests| :: !run.states[i].progress[r].Concluded()
  {
    if i > 0 {
      OpenAt(config, run, i - 1);
      assert Enabled(config, run.states[i - 1], run.actions[i - 1]);
      assert run.actions[i - 1] in run.actions;
    }
  }
}
