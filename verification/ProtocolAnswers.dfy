/** What a request is told when it reads the store, exactly, by what happened to the requests before it: who claimed
    its identifier, for which request and authorization, and how each of those attempts ended. */
module ProtocolAnswers {
  import opened Wrappers
  import opened CodeUnits
  import opened Lifecycle
  import opened Operations
  import opened Protocol
  import opened ProtocolInvariant
  import opened ProtocolSafety
  import opened ProtocolOutcomes

  // ---------------------------------------------------------------- how attempts end

  /** Request `o` holds or held this identifier. */
  predicate Under(config: Config, s: State, o: nat, id: Text)
    requires |s.progress| == |config.requests|
  {
    o < |s.progress| && s.progress[o].claimed && Identifier(config.requests[o]) == Some(id)
  }

  ghost predicate NobodyUnder(config: Config, s: State, id: Text)
    requires |s.progress| == |config.requests|
  {
    forall o: nat :: !Under(config, s, o, id)
  }

  /** The attempt of request `o`, which claimed, ends with action `k`: the first event of its response. */
  predicate EndsAt(config: Config, run: Run, k: nat, o: nat) {
    && k < |run.actions| && k < |run.states|
    && (run.actions[k].Finish? || run.actions[k].Close?)
    && run.actions[k].r == o
    && o < |config.requests| && o < |run.states[k].progress|
    && run.states[k].progress[o].claimed && !run.states[k].progress[o].Concluded()
  }

  /** Its settlement had been reported to succeed. */
  predicate Succeeds(phase: Phase) {
    phase.SettleReported? && phase.outcome.Succeeded?
  }

  /** Its settlement was under way, answered but not reported, or raised. */
  predicate InDoubt(phase: Phase) {
    phase.Settling? || phase.SettleAnswered? || phase == SettleReported(Raised)
  }

  /** It ended in success, leaving this to be served: what its handler produced, under the status and the payment
      response its own response had. */
  predicate EndsServing(config: Config, run: Run, k: nat, o: nat, result: CachedResult) {
    && EndsAt(config, run, k, o)
    && var q := run.states[k].progress[o];
    Succeeds(q.phase) && q.produced.Some? && result == ResultOf(q.produced.value, run.actions[k].response)
  }

  ghost predicate EndedServing(config: Config, run: Run, i: nat, o: nat, result: CachedResult) {
    exists k: nat :: k < i && EndsServing(config, run, k, o, result)
  }

  ghost predicate EndedInDoubt(config: Config, run: Run, i: nat, o: nat) {
    exists k: nat :: k < i && EndsAt(config, run, k, o) && InDoubt(run.states[k].progress[o].phase)
  }

  /** It ended where no settlement was entered, or a refusal was reported. */
  ghost predicate EndedReleased(config: Config, run: Run, i: nat, o: nat) {
    exists k: nat :: k < i && EndsAt(config, run, k, o)
      && !Succeeds(run.states[k].progress[o].phase) && !InDoubt(run.states[k].progress[o].phase)
  }

  // ---------------------------------------------------------------- what is called for

  /** Nobody claimed the identifier and there is room, or whoever did did so for this request and was released. */
  ghost predicate FreeFor(config: Config, run: Run, i: nat, id: Text, fingerprint: Text)
    requires i < |run.states| && |run.states[i].progress| == |config.requests|
  {
    var s := run.states[i];
    && (forall o: nat | Under(config, s, o, id) ::
          config.requests[o].fingerprint == fingerprint && EndedReleased(config, run, i, o))
    && (NobodyUnder(config, s, id) ==> |s.store| < config.capacity)
  }

  ghost predicate HeldForOther(config: Config, s: State, id: Text, fingerprint: Text)
    requires |s.progress| == |config.requests|
  {
    exists o: nat :: Under(config, s, o, id) && config.requests[o].fingerprint != fingerprint
  }

  /** It is open or was settled under another authorization. */
  ghost predicate BoundToOther(
    config: Config, run: Run, i: nat, id: Text, fingerprint: Text, authorization: Authorization)
    requires i < |run.states| && |run.states[i].progress| == |config.requests|
  {
    exists o: nat, other: Authorization :: other != authorization
      && Claimant(config, run.states[i], o, id, fingerprint, other)
      && (!run.states[i].progress[o].Concluded() || exists result :: EndedServing(config, run, i, o, result))
  }

  ghost predicate SettledBefore(
    config: Config, run: Run, i: nat, id: Text, fingerprint: Text, authorization: Authorization, result: CachedResult)
    requires i < |run.states| && |run.states[i].progress| == |config.requests|
  {
    exists o: nat :: Claimant(config, run.states[i], o, id, fingerprint, authorization)
      && EndedServing(config, run, i, o, result)
  }

  ghost predicate LeftInDoubt(config: Config, run: Run, i: nat, id: Text, fingerprint: Text)
    requires i < |run.states| && |run.states[i].progress| == |config.requests|
  {
    exists o: nat, other: Authorization :: Claimant(config, run.states[i], o, id, fingerprint, other)
      && EndedInDoubt(config, run, i, o)
  }

  /** Where a request that reads the store is to end up, for the requests that claimed its identifier before. */
  ghost predicate CalledFor(config: Config, run: Run, i: nat, r: nat, place: Place)
    requires i < |run.states| && |run.states[i].progress| == |config.requests| && r < |config.requests|
  {
    var s, request := run.states[i], config.requests[r];
    if request.payment.Decoded? && !request.payment.requirementMet then place == Replied(IdentifierRequired)
    else if !Keyed(request) then place == Passed
    else
      var id, auth := request.payment.identifier.value, request.payment.authorization.value;
      match place
      case Entering => false
      case Passed => FreeFor(config, run, i, id, request.fingerprint)
      case Waiting(owner) =>
        Claimant(config, s, owner, id, request.fingerprint, auth) && !s.progress[owner].Concluded()
      case Replied(IdentifierRequired) => false
      case Replied(AtCapacity) => NobodyUnder(config, s, id) && |s.store| == config.capacity
      case Replied(OtherRequest) => HeldForOther(config, s, id, request.fingerprint)
      case Replied(OtherAuthorization) => BoundToOther(config, run, i, id, request.fingerprint, auth)
      case Replied(OutcomeUnknown) => LeftInDoubt(config, run, i, id, request.fingerprint)
      case Replied(Cached(result)) => SettledBefore(config, run, i, id, request.fingerprint, auth, result)
  }

  // ---------------------------------------------------------------- endings over a run

  lemma StepKeepsEnded(config: Config, s: State, a: Action, o: nat)
    requires |s.progress| == |config.requests| && Enabled(config, s, a) && o < |s.progress|
    ensures s.progress[o].claimed ==> Next(config, s, a).progress[o].claimed
    ensures s.progress[o].Concluded() ==> Next(config, s, a).progress[o].Concluded()
  {
    hide Admit, Conclusion, FinishRecord, PersistableFailureReason;
  }

  lemma {:induction false} EndStays(config: Config, run: Run, k: nat, i: nat, o: nat)
    requires IsRun(config, run) && EndsAt(config, run, k, o) && k < i < |run.states|
    ensures run.states[i].progress[o].claimed && run.states[i].progress[o].Concluded()
  {
    hide Step, Next;
    StepAt(config, run, i - 1);
    if k == i - 1 {
      EndIsConcluded(config, run.states[k], run.actions[k]);
    } else {
      EndStays(config, run, k, i - 1, o);
    }
    StepKeepsEnded(config, run.states[i - 1], run.actions[i - 1], o) by {
      assert Step(config, run.states[i - 1], run.actions[i - 1]);
    }
  }

  lemma EndIsConcluded(config: Config, s: State, a: Action)
    requires |s.progress| == |config.requests| && Enabled(config, s, a) && (a.Finish? || a.Close?)
    ensures Next(config, s, a).progress[a.r].Concluded()
  {
    hide Conclusion, FinishRecord;
  }

  /** A claimed attempt that has concluded did so with some action before. */
  lemma {:induction false} EndFound(config: Config, run: Run, i: nat, o: nat) returns (k: nat)
    requires IsRun(config, run) && i < |run.states| && o < |config.requests|
    requires |run.states[i].progress| == |config.requests|
    requires run.states[i].progress[o].claimed && run.states[i].progress[o].Concluded()
    ensures k < i && EndsAt(config, run, k, o)
  {
    hide Step, Next, Invariant;
    assert i > 0;
    StepAt(config, run, i - 1);
    RunKeeps(config, run, i - 1);
    var s, a := run.states[i - 1], run.actions[i - 1];
    if s.progress[o].Concluded() {
      ConcludedWasClaimed(config, s, a, o);
      k := EndFound(config, run, i - 1, o);
    } else {
      OnlyEventsConclude(config, s, a, o);
      k := i - 1;
    }
  }

  lemma ConcludedWasClaimed(config: Config, s: State, a: Action, o: nat)
    requires Invariant(config, s) && Step(config, s, a) && o < |s.progress|
    requires s.progress[o].Concluded() && Next(config, s, a).progress[o].claimed
    ensures s.progress[o].claimed
  {
    hide Admit, Conclusion, FinishRecord, PersistableFailureReason, Situated, Backed, Exclusive, RecordFits;
    assert Coherent(config.requests[o], s.progress[o]);
  }

  lemma OnlyEventsConclude(config: Config, s: State, a: Action, o: nat)
    requires |s.progress| == |config.requests| && Enabled(config, s, a) && o < |s.progress|
    requires !s.progress[o].Concluded() && Next(config, s, a).progress[o].Concluded()
    requires Next(config, s, a).progress[o].claimed
    ensures (a.Finish? || a.Close?) && a.r == o && s.progress[o].claimed
  {
    hide Admit, Conclusion, FinishRecord, PersistableFailureReason;
  }

  /** What the attempt that ends with action `k` should leave. */
  function Left(config: Config, run: Run, k: nat, o: nat): Entry
    requires EndsAt(config, run, k, o) && Keyed(config.requests[o])
  {
    Owed(config.requests[o], config.requests[o].payment.authorization.value, run.states[k].progress[o],
         run.actions[k].response)
  }

  lemma EndLeaves(config: Config, run: Run, k: nat, o: nat)
    requires IsRun(config, run) && EndsAt(config, run, k, o)
    ensures Keyed(config.requests[o])
    ensures
      var id := config.requests[o].payment.identifier.value;
      id in run.states[k + 1].store && run.states[k + 1].store[id] == Left(config, run, k, o)
    ensures Succeeds(run.states[k].progress[o].phase) ==> run.states[k].progress[o].produced.Some?
  {
    ConclusionIsExact(config, run, k, run.actions[k].response);
  }

  /** What the store still holds of an attempt that ended before, unless it was released. */
  lemma EndStillStands(config: Config, run: Run, k: nat, i: nat, o: nat)
    requires IsRun(config, run) && EndsAt(config, run, k, o) && k < i < |run.states|
    ensures Keyed(config.requests[o])
    ensures
      var id, store := config.requests[o].payment.identifier.value, run.states[i].store;
      !Left(config, run, k, o).Rejected? ==> id in store && store[id] == Left(config, run, k, o)
    ensures Succeeds(run.states[k].progress[o].phase) ==> run.states[k].progress[o].produced.Some?
  {
    hide Left, StartsAndFollows;
    EndLeaves(config, run, k, o);
    StoreEvolves(config, run, k + 1, i, config.requests[o].payment.identifier.value);
    LeftMeans(config, run, k, o);
  }

  lemma LeftMeans(config: Config, run: Run, k: nat, o: nat)
    requires EndsAt(config, run, k, o) && Keyed(config.requests[o])
    requires Succeeds(run.states[k].progress[o].phase) ==> run.states[k].progress[o].produced.Some?
    ensures
      var request, q, left := config.requests[o], run.states[k].progress[o], Left(config, run, k, o);
      var auth := request.payment.authorization.value;
      if Succeeds(q.phase) then
        left == Completed(request.fingerprint, auth, ResultOf(q.produced.value, run.actions[k].response))
      else if InDoubt(q.phase) then left == Uncertain(request.fingerprint, auth)
      else left == Rejected(request.fingerprint)
  {
  }

  /** An entry that is not pending is what some attempt left when it ended. */
  lemma {:induction false} EntryHasOrigin(config: Config, run: Run, i: nat, id: Text) returns (o: nat, k: nat)
    requires IsRun(config, run) && i < |run.states|
    requires id in run.states[i].store && !run.states[i].store[id].Pending?
    ensures k < i && EndsAt(config, run, k, o) && Keyed(config.requests[o])
    ensures config.requests[o].payment.identifier.value == id
    ensures run.states[i].store[id] == Left(config, run, k, o)
  {
    hide Step, Next, Left, Invariant;
    assert i > 0;
    StepAt(config, run, i - 1);
    RunKeeps(config, run, i - 1);
    var s, a := run.states[i - 1], run.actions[i - 1];
    if id in s.store && s.store[id] == run.states[i].store[id] {
      o, k := EntryHasOrigin(config, run, i - 1, id);
    } else {
      OnlyEndsSettle(config, s, a, id);
      o, k := a.r, i - 1;
      EndLeaves(config, run, k, o);
    }
  }

  lemma OnlyEndsSettle(config: Config, s: State, a: Action, id: Text)
    requires |s.progress| == |config.requests| && Step(config, s, a)
    requires id in Next(config, s, a).store && !Next(config, s, a).store[id].Pending?
    requires id in s.store ==> s.store[id] != Next(config, s, a).store[id]
    ensures (a.Finish? || a.Close?) && s.progress[a.r].claimed && !s.progress[a.r].Concluded()
    ensures Identifier(config.requests[a.r]) == Some(id)
  {
    hide Admit, Conclusion, FinishRecord, PersistableFailureReason;
  }

  lemma UnderMeans(config: Config, run: Run, i: nat, o: nat, id: Text)
    requires IsRun(config, run) && i < |run.states| && |run.states[i].progress| == |config.requests|
    requires Under(config, run.states[i], o, id)
    ensures
      var s, request := run.states[i], config.requests[o];
      && Keyed(request) && Claimant(config, s, o, id, request.fingerprint, request.payment.authorization.value)
      && id in s.store && s.store[id].fingerprint == request.fingerprint
      && (!s.progress[o].Concluded() ==>
            s.store[id] == Pending(request.fingerprint, request.payment.authorization.value, o))
  {
    RunKeeps(config, run, i);
    hide MaySettle, Exclusive, Backed, RecordFits;
    assert Coherent(config.requests[o], run.states[i].progress[o]) && Situated(config, run.states[i], o);
  }

  /** Every identifier in the store was claimed by a request with the entry's own fingerprint. */
  lemma EntryWasClaimed(config: Config, s: State, id: Text)
    requires Invariant(config, s) && id in s.store
    ensures exists r: nat :: ClaimedBefore(config, s, r, id, s.store[id].fingerprint)
  {
    assert Backed(config, s, id);
    match s.store[id]
    case Pending(fingerprint, _, owner) => assert ClaimedBefore(config, s, owner, id, fingerprint);
    case Completed(fingerprint, auth, result) =>
      var r: nat :| Source(config, s, r, id, fingerprint, auth, result);
      assert ClaimedBefore(config, s, r, id, fingerprint);
    case Uncertain(fingerprint, auth) =>
      var r: nat :| SubmittedBy(config, s, r, id, fingerprint, auth);
      assert ClaimedBefore(config, s, r, id, fingerprint);
    case Rejected(_) =>
  }

  lemma EntryClaimedBy(config: Config, s: State, id: Text)
    requires Invariant(config, s) && id in s.store
    ensures exists o: nat :: Under(config, s, o, id) && config.requests[o].fingerprint == s.store[id].fingerprint
  {
    EntryWasClaimed(config, s, id);
    hide Invariant;
    var o: nat :| ClaimedBefore(config, s, o, id, s.store[id].fingerprint);
    assert Under(config, s, o, id);
  }

  lemma NobodyMeans(config: Config, run: Run, i: nat, id: Text)
    requires IsRun(config, run) && i < |run.states| && |run.states[i].progress| == |config.requests|
    ensures NobodyUnder(config, run.states[i], id) <==> id !in run.states[i].store
  {
    var s := run.states[i];
    RunKeeps(config, run, i);
    if id in s.store {
      EntryClaimedBy(config, s, id);
    }
    hide Invariant;
    forall o: nat | Under(config, s, o, id) ensures id in s.store {
      UnderMeans(config, run, i, o, id);
    }
  }

  // ---------------------------------------------------------------- what is told is what is called for

  function PlaceOf(admission: Admission): Place {
    match admission
    case Claim => Passed
    case Wait(owner) => Waiting(owner)
    case Reply(answer) => Replied(answer)
  }

  /** What the store tells request `r` in this state. */
  function Told(config: Config, s: State, r: nat): Place
    requires r < |config.requests| && Keyed(config.requests[r])
  {
    var request := config.requests[r];
    PlaceOf(Admit(
      s.store, config.capacity, request.payment.identifier.value, request.fingerprint,
      request.payment.authorization.value))
  }

  /** Request `r` reads in state `i`, with an identifier and an authorization. */
  ghost predicate ReadsAt(config: Config, run: Run, i: nat, r: nat) {
    && IsRun(config, run) && i < |run.states| && |run.states[i].progress| == |config.requests|
    && r < |config.requests| && Keyed(config.requests[r])
  }

  lemma ToldOfNobody(config: Config, run: Run, i: nat, r: nat)
    requires ReadsAt(config, run, i, r) && config.requests[r].payment.identifier.value !in run.states[i].store
    ensures CalledFor(config, run, i, r, Told(config, run.states[i], r))
  {
    RunKeeps(config, run, i);
    NobodyMeans(config, run, i, config.requests[r].payment.identifier.value);
    hide IsRun, Coherent, Situated, Backed, Exclusive, HeldForOther, BoundToOther, SettledBefore, LeftInDoubt;
    assert NobodyUnder(config, run.states[i], config.requests[r].payment.identifier.value);
  }

  lemma ToldOfOther(config: Config, run: Run, i: nat, r: nat)
    requires ReadsAt(config, run, i, r) && config.requests[r].payment.identifier.value in run.states[i].store
    requires
      run.states[i].store[config.requests[r].payment.identifier.value].fingerprint != config.requests[r].fingerprint
    ensures CalledFor(config, run, i, r, Told(config, run.states[i], r))
  {
    hide IsRun, Invariant, Under, Claimant, FreeFor, NobodyUnder, BoundToOther, SettledBefore, LeftInDoubt;
    RunKeeps(config, run, i);
    EntryClaimedBy(config, run.states[i], config.requests[r].payment.identifier.value);
    assert Told(config, run.states[i], r) == Replied(OtherRequest);
  }

  /** The entry is this request's own, if not this authorization's. */
  ghost predicate Alike(config: Config, run: Run, i: nat, r: nat) {
    && ReadsAt(config, run, i, r)
    && config.requests[r].payment.identifier.value in run.states[i].store
    && run.states[i].store[config.requests[r].payment.identifier.value].fingerprint == config.requests[r].fingerprint
  }

  lemma ToldOfOpen(config: Config, run: Run, i: nat, r: nat)
    requires Alike(config, run, i, r) && run.states[i].store[config.requests[r].payment.identifier.value].Pending?
    ensures CalledFor(config, run, i, r, Told(config, run.states[i], r))
  {
    var s, id := run.states[i], config.requests[r].payment.identifier.value;
    PendingIsOpen(config, run, i, id);
    hide IsRun, FreeFor, NobodyUnder, HeldForOther, SettledBefore, LeftInDoubt, EndedServing;
  }

  lemma PendingIsOpen(config: Config, run: Run, i: nat, id: Text)
    requires IsRun(config, run) && i < |run.states| && |run.states[i].progress| == |config.requests|
    requires id in run.states[i].store && run.states[i].store[id].Pending?
    ensures
      var s, entry := run.states[i], run.states[i].store[id];
      && Claimant(config, s, entry.owner, id, entry.fingerprint, entry.authorization)
      && !s.progress[entry.owner].Concluded()
  {
    RunKeeps(config, run, i);
    hide IsRun, Coherent, Situated, Exclusive;
    assert Backed(config, run.states[i], id);
  }

  lemma EndedBehind(config: Config, run: Run, i: nat, id: Text) returns (o: nat)
    requires IsRun(config, run) && i < |run.states| && |run.states[i].progress| == |config.requests|
    requires id in run.states[i].store
    requires run.states[i].store[id].Completed? || run.states[i].store[id].Uncertain?
    ensures
      var s, entry := run.states[i], run.states[i].store[id];
      && Claimant(config, s, o, id, entry.fingerprint, entry.authorization)
      && (entry.Completed? ==> EndedServing(config, run, i, o, entry.result))
      && (entry.Uncertain? ==> EndedInDoubt(config, run, i, o))
  {
    var k: nat;
    o, k := EntryHasOrigin(config, run, i, id);
    EndLeaves(config, run, k, o);
    EndStays(config, run, k, i, o);
    LeftMeans(config, run, k, o);
    hide IsRun, Left;
    var entry := run.states[i].store[id];
    if entry.Completed? {
      assert EndsServing(config, run, k, o, entry.result);
    }
  }

  lemma ToldOfEnded(config: Config, run: Run, i: nat, r: nat)
    requires Alike(config, run, i, r)
    requires
      var entry := run.states[i].store[config.requests[r].payment.identifier.value];
      entry.Completed? || entry.Uncertain?
    ensures CalledFor(config, run, i, r, Told(config, run.states[i], r))
  {
    hide IsRun, FreeFor, NobodyUnder, HeldForOther, Claimant, EndedServing, EndedInDoubt;
    var o := EndedBehind(config, run, i, config.requests[r].payment.identifier.value);
  }

  lemma ToldOfReleased(config: Config, run: Run, i: nat, r: nat)
    requires Alike(config, run, i, r) && run.states[i].store[config.requests[r].payment.identifier.value].Rejected?
    ensures CalledFor(config, run, i, r, Told(config, run.states[i], r))
  {
    var s, id := run.states[i], config.requests[r].payment.identifier.value;
    NobodyMeans(config, run, i, id);
    hide NobodyUnder;
    forall o: nat | Under(config, s, o, id)
      ensures config.requests[o].fingerprint == config.requests[r].fingerprint && EndedReleased(config, run, i, o)
    {
      UnderMeans(config, run, i, o, id);
      var k := EndFound(config, run, i, o);
      EndStillStands(config, run, k, i, o);
      LeftMeans(config, run, k, o);
    }
    hide IsRun, EndedReleased, HeldForOther, BoundToOther, SettledBefore, LeftInDoubt;
  }

  lemma ToldIsCalledFor(config: Config, run: Run, i: nat, r: nat)
    requires ReadsAt(config, run, i, r)
    ensures CalledFor(config, run, i, r, Told(config, run.states[i], r))
  {
    hide CalledFor, Told, IsRun;
    var s, id := run.states[i], config.requests[r].payment.identifier.value;
    if id !in s.store {
      ToldOfNobody(config, run, i, r);
    } else if s.store[id].fingerprint != config.requests[r].fingerprint {
      ToldOfOther(config, run, i, r);
    } else {
      match s.store[id]
      case Pending(_, _, _) => ToldOfOpen(config, run, i, r);
      case Rejected(_) => ToldOfReleased(config, run, i, r);
      case _ => ToldOfEnded(config, run, i, r);
    }
  }

  // ---------------------------------------------------------------- and nothing else is

  lemma OneEnd(config: Config, run: Run, k: nat, k': nat, o: nat)
    requires IsRun(config, run) && EndsAt(config, run, k, o) && EndsAt(config, run, k', o)
    ensures k == k'
  {
    if k < k' {
      EndStays(config, run, k, k', o);
    } else if k' < k {
      EndStays(config, run, k', k, o);
    }
  }

  lemma ClaimantIsUnder(config: Config, s: State, o: nat, id: Text, fingerprint: Text, authorization: Authorization)
    requires |s.progress| == |config.requests| && Claimant(config, s, o, id, fingerprint, authorization)
    ensures Under(config, s, o, id)
    ensures config.requests[o].fingerprint == fingerprint
    ensures Keyed(config.requests[o]) && config.requests[o].payment.authorization.value == authorization
    ensures config.requests[o].payment.identifier.value == id
  {
  }

  /** An attempt that ended in success still stands in the store, as its result. */
  lemma ServingStands(config: Config, run: Run, i: nat, o: nat, result: CachedResult)
    requires IsRun(config, run) && i < |run.states| && EndedServing(config, run, i, o, result)
    ensures o < |config.requests| && Keyed(config.requests[o])
    ensures
      var request, store := config.requests[o], run.states[i].store;
      var id := request.payment.identifier.value;
      id in store && store[id] == Completed(request.fingerprint, request.payment.authorization.value, result)
  {
    var k: nat :| k < i && EndsServing(config, run, k, o, result);
    EndStillStands(config, run, k, i, o);
    hide IsRun, Left;
    LeftMeans(config, run, k, o);
  }

  /** And one that ended in doubt as the doubt. */
  lemma DoubtStands(config: Config, run: Run, i: nat, o: nat)
    requires IsRun(config, run) && i < |run.states| && EndedInDoubt(config, run, i, o)
    ensures o < |config.requests| && Keyed(config.requests[o])
    ensures
      var request, store := config.requests[o], run.states[i].store;
      var id := request.payment.identifier.value;
      id in store && store[id] == Uncertain(request.fingerprint, request.payment.authorization.value)
  {
    var k: nat :| k < i && EndsAt(config, run, k, o) && InDoubt(run.states[k].progress[o].phase);
    EndStillStands(config, run, k, i, o);
    hide IsRun, Left;
    LeftMeans(config, run, k, o);
  }

  /** Of a free identifier the store holds nothing but a release. */
  lemma FreeIsReleased(config: Config, run: Run, i: nat, id: Text, fingerprint: Text)
    requires IsRun(config, run) && i < |run.states| && |run.states[i].progress| == |config.requests|
    requires FreeFor(config, run, i, id, fingerprint) && id in run.states[i].store
    ensures run.states[i].store[id] == Rejected(fingerprint)
  {
    hide IsRun, NobodyUnder, Left;
    var s := run.states[i];
    RunKeeps(config, run, i);
    EntryClaimedBy(config, s, id);
    hide Invariant;
    match s.store[id]
    case Pending(_, _, owner) =>
      PendingIsOpen(config, run, i, id);
      assert Under(config, s, owner, id);
      var k: nat :| k < i && EndsAt(config, run, k, owner);
      EndStays(config, run, k, i, owner);
    case Rejected(_) =>
    case _ =>
      var o := EndedBehind(config, run, i, id);
      assert Under(config, s, o, id);
      ReleasedIsNeither(config, run, i, o, s.store[id]);
  }

  lemma ReleasedIsNeither(config: Config, run: Run, i: nat, o: nat, entry: Entry)
    requires IsRun(config, run) && i < |run.states| && EndedReleased(config, run, i, o)
    ensures !EndedInDoubt(config, run, i, o) && (entry.Completed? ==> !EndedServing(config, run, i, o, entry.result))
  {
    hide IsRun;
    var k: nat :| k < i && EndsAt(config, run, k, o)
      && !Succeeds(run.states[k].progress[o].phase) && !InDoubt(run.states[k].progress[o].phase);
    forall k': nat | k' < i && EndsAt(config, run, k', o) ensures k' == k {
      OneEnd(config, run, k, k', o);
    }
  }

  lemma OnlyFreeClaims(config: Config, run: Run, i: nat, r: nat)
    requires ReadsAt(config, run, i, r) && CalledFor(config, run, i, r, Passed)
    ensures Told(config, run.states[i], r) == Passed
  {
    hide IsRun, EndedReleased;
    var id := config.requests[r].payment.identifier.value;
    NobodyMeans(config, run, i, id);
    if id in run.states[i].store {
      FreeIsReleased(config, run, i, id, config.requests[r].fingerprint);
    }
  }

  lemma OnlyOpenWaits(config: Config, run: Run, i: nat, r: nat, owner: nat)
    requires ReadsAt(config, run, i, r) && CalledFor(config, run, i, r, Waiting(owner))
    ensures Told(config, run.states[i], r) == Waiting(owner)
  {
    hide IsRun;
    UnderMeans(config, run, i, owner, config.requests[r].payment.identifier.value);
  }

  lemma OnlyOtherIsRefused(config: Config, run: Run, i: nat, r: nat)
    requires ReadsAt(config, run, i, r)
    requires CalledFor(config, run, i, r, Replied(OtherRequest)) || CalledFor(config, run, i, r, Replied(AtCapacity))
    ensures CalledFor(config, run, i, r, Replied(OtherRequest)) ==>
      Told(config, run.states[i], r) == Replied(OtherRequest)
    ensures CalledFor(config, run, i, r, Replied(AtCapacity)) ==>
      Told(config, run.states[i], r) == Replied(AtCapacity)
  {
    hide IsRun, NobodyUnder;
    var s, id := run.states[i], config.requests[r].payment.identifier.value;
    NobodyMeans(config, run, i, id);
    if HeldForOther(config, s, id, config.requests[r].fingerprint) {
      var o: nat :| Under(config, s, o, id) && config.requests[o].fingerprint != config.requests[r].fingerprint;
      UnderMeans(config, run, i, o, id);
    }
  }

  lemma OnlyBoundIsRefused(config: Config, run: Run, i: nat, r: nat)
    requires ReadsAt(config, run, i, r) && CalledFor(config, run, i, r, Replied(OtherAuthorization))
    ensures Told(config, run.states[i], r) == Replied(OtherAuthorization)
  {
    hide IsRun, EndedServing;
    var s, request := run.states[i], config.requests[r];
    var id, auth := request.payment.identifier.value, request.payment.authorization.value;
    var o: nat, other: Authorization :| other != auth && Claimant(config, s, o, id, request.fingerprint, other)
      && (!s.progress[o].Concluded() || exists result :: EndedServing(config, run, i, o, result));
    ClaimantIsUnder(config, s, o, id, request.fingerprint, other);
    UnderMeans(config, run, i, o, id);
    if s.progress[o].Concluded() {
      var result :| EndedServing(config, run, i, o, result);
      ServingStands(config, run, i, o, result);
    }
  }

  lemma OnlySettledIsServed(config: Config, run: Run, i: nat, r: nat, result: CachedResult)
    requires ReadsAt(config, run, i, r) && CalledFor(config, run, i, r, Replied(Cached(result)))
    ensures Told(config, run.states[i], r) == Replied(Cached(result))
  {
    hide IsRun, EndedServing;
    var s, request := run.states[i], config.requests[r];
    var id, auth := request.payment.identifier.value, request.payment.authorization.value;
    var o: nat :| Claimant(config, s, o, id, request.fingerprint, auth) && EndedServing(config, run, i, o, result);
    ServingStands(config, run, i, o, result);
  }

  lemma OnlyDoubtIsUnknown(config: Config, run: Run, i: nat, r: nat)
    requires ReadsAt(config, run, i, r) && CalledFor(config, run, i, r, Replied(OutcomeUnknown))
    ensures Told(config, run.states[i], r) == Replied(OutcomeUnknown)
  {
    hide IsRun, EndedInDoubt;
    var s, request := run.states[i], config.requests[r];
    var id := request.payment.identifier.value;
    var o: nat, other: Authorization :| Claimant(config, s, o, id, request.fingerprint, other)
      && EndedInDoubt(config, run, i, o);
    DoubtStands(config, run, i, o);
  }

  lemma CalledForIsTold(config: Config, run: Run, i: nat, r: nat, place: Place)
    requires ReadsAt(config, run, i, r) && CalledFor(config, run, i, r, place)
    ensures place == Told(config, run.states[i], r)
  {
    match place
    case Passed => OnlyFreeClaims(config, run, i, r);
    case Waiting(owner) => OnlyOpenWaits(config, run, i, r, owner);
    case Replied(AtCapacity) => OnlyOtherIsRefused(config, run, i, r);
    case Replied(OtherRequest) => OnlyOtherIsRefused(config, run, i, r);
    case Replied(OtherAuthorization) => OnlyBoundIsRefused(config, run, i, r);
    case Replied(Cached(result)) => OnlySettledIsServed(config, run, i, r, result);
    case Replied(OutcomeUnknown) => OnlyDoubtIsUnknown(config, run, i, r);
  }

  // ---------------------------------------------------------------- the answers of a run

  /** In every run, a request that reads the store ends up in the one place that what happened before calls for. */
  lemma EveryAnswerIsExact(config: Config, run: Run, i: nat, place: Place)
    requires IsRun(config, run) && i < |run.actions| && run.actions[i].Read?
    ensures run.actions[i].r < |config.requests|
    ensures CalledFor(config, run, i, run.actions[i].r, place) <==>
      place == run.states[i + 1].progress[run.actions[i].r].place
  {
    hide Told, CalledFor;
    var s, r := run.states[i], run.actions[i].r;
    StepAt(config, run, i);
    ReadTells(config, s, r);
    if Keyed(config.requests[r]) {
      ToldIsCalledFor(config, run, i, r);
      if CalledFor(config, run, i, r, place) {
        CalledForIsTold(config, run, i, r, place);
      }
    } else {
      UnkeyedCalledFor(config, run, i, r, place);
    }
  }

  lemma ReadTells(config: Config, s: State, r: nat)
    requires |s.progress| == |config.requests| && Step(config, s, Read(r))
    ensures
      var request, place := config.requests[r], Next(config, s, Read(r)).progress[r].place;
      if Keyed(request) then place == Told(config, s, r)
      else if request.payment.Decoded? && !request.payment.requirementMet then place == Replied(IdentifierRequired)
      else place == Passed
  {
    hide Admit;
  }

  lemma UnkeyedCalledFor(config: Config, run: Run, i: nat, r: nat, place: Place)
    requires i < |run.states| && |run.states[i].progress| == |config.requests| && r < |config.requests|
    requires !Keyed(config.requests[r])
    ensures CalledFor(config, run, i, r, place) <==>
      place == if config.requests[r].payment.Decoded? && !config.requests[r].payment.requirementMet
               then Replied(IdentifierRequired) else Passed
  {
  }

  /** A request let through to claim finds nobody who could still settle under its identifier. */
  lemma ClaimsFindNobody(config: Config, run: Run, i: nat)
    requires IsRun(config, run) && i < |run.actions| && run.actions[i].Read?
    requires |run.states[i].progress| == |config.requests| && run.actions[i].r < |config.requests|
    requires
      Keyed(config.requests[run.actions[i].r]) && run.states[i + 1].progress[run.actions[i].r].place == Passed
    ensures forall o: nat | o < |config.requests| && MaySettle(run.states[i].progress[o]) ::
      !SameIdentifier(config, o, run.actions[i].r)
  {
    var s, r := run.states[i], run.actions[i].r;
    RunKeeps(config, run, i);
    StepAt(config, run, i);
    ReadTells(config, s, r);
    hide IsRun, Invariant;
    NoneMaySettle(config, s, r, config.requests[r].payment.identifier.value);
  }

  /** Request `r` repeats what request `o` presented. */
  predicate Repeats(config: Config, r: nat, o: nat) {
    && r < |config.requests| && o < |config.requests|
    && Keyed(config.requests[r])
    && config.requests[o].fingerprint == config.requests[r].fingerprint
    && Identifier(config.requests[o]) == Identifier(config.requests[r])
    && config.requests[o].payment.authorization == config.requests[r].payment.authorization
  }

  /** It ended, and neither did nor will commit. */
  predicate Spent(q: Progress) {
    q.Concluded() && (!Submitted(q) || (q.phase.SettleReported? && q.phase.outcome.Refused?))
  }

  lemma StepKeepsSpent(config: Config, s: State, a: Action, o: nat)
    requires |s.progress| == |config.requests| && Step(config, s, a) && o < |s.progress|
    requires Coherent(config.requests[o], s.progress[o]) && Spent(s.progress[o])
    ensures Spent(Next(config, s, a).progress[o])
  {
    hide Admit, Conclusion, FinishRecord, PersistableFailureReason, RecordFits;
  }

  lemma {:induction false} ReleasedIsSpent(config: Config, run: Run, k: nat, i: nat, o: nat)
    requires IsRun(config, run) && EndsAt(config, run, k, o) && k < i < |run.states|
    requires !Succeeds(run.states[k].progress[o].phase) && !InDoubt(run.states[k].progress[o].phase)
    ensures Spent(run.states[i].progress[o])
    decreases i
  {
    hide Step, Next, Invariant, Spent;
    StepAt(config, run, i - 1);
    var s, a := run.states[i - 1], run.actions[i - 1];
    if k == i - 1 {
      EndSpends(config, s, a);
    } else {
      ReleasedIsSpent(config, run, k, i - 1, o);
      RunKeeps(config, run, i - 1);
      KeptCoherent(config, s, o);
      StepKeepsSpent(config, s, a, o);
    }
  }

  lemma KeptCoherent(config: Config, s: State, o: nat)
    requires Invariant(config, s) && o < |s.progress|
    ensures Coherent(config.requests[o], s.progress[o])
  {
  }

  lemma EndSpends(config: Config, s: State, a: Action)
    requires |s.progress| == |config.requests| && Step(config, s, a) && (a.Finish? || a.Close?)
    requires !Succeeds(s.progress[a.r].phase) && !InDoubt(s.progress[a.r].phase)
    ensures Spent(Next(config, s, a).progress[a.r])
  {
    hide Conclusion, FinishRecord;
  }

  /** A retry of a request that settled and whose response has ended is served what that request produced, exactly
      when the success had been reported by the time the response ended; otherwise it is told that the outcome is
      unknown. */
  lemma RetryIsServedExactly(config: Config, run: Run, k: nat, i: nat, o: nat, r: nat)
    requires IsRun(config, run) && EndsAt(config, run, k, o) && k < i < |run.actions|
    requires run.actions[i] == Read(r) && Repeats(config, r, o)
    requires |run.states[i].progress| == |config.requests| && Committed(run.states[i].progress[o])
    ensures
      var q, place := run.states[k].progress[o], run.states[i + 1].progress[r].place;
      && (Succeeds(q.phase) ==> q.produced.Some?)
      && place == if Succeeds(q.phase) then Replied(Cached(ResultOf(q.produced.value, run.actions[k].response)))
                  else Replied(OutcomeUnknown)
  {
    EndLeaves(config, run, k, o);
    EndStays(config, run, k, i, o);
    hide IsRun, Coherent, Left;
    var request, q := config.requests[r], run.states[k].progress[o];
    var id, auth := request.payment.identifier.value, request.payment.authorization.value;
    assert Claimant(config, run.states[i], o, id, request.fingerprint, auth);
    if Succeeds(q.phase) {
      var result := ResultOf(q.produced.value, run.actions[k].response);
      assert EndsServing(config, run, k, o, result) && EndedServing(config, run, i, o, result);
      RetryTold(config, run, i, o, r, Replied(Cached(result)));
    } else {
      if !InDoubt(q.phase) {
        ReleasedIsSpent(config, run, k, i, o);
      }
      assert EndedInDoubt(config, run, i, o);
      RetryTold(config, run, i, o, r, Replied(OutcomeUnknown));
    }
  }

  lemma RetryTold(config: Config, run: Run, i: nat, o: nat, r: nat, place: Place)
    requires IsRun(config, run) && i < |run.actions| && run.actions[i] == Read(r) && Repeats(config, r, o)
    requires |run.states[i].progress| == |config.requests|
    requires Claimant(
      config, run.states[i], o, config.requests[r].payment.identifier.value, config.requests[r].fingerprint,
      config.requests[r].payment.authorization.value)
    requires
      || (place == Replied(OutcomeUnknown) && EndedInDoubt(config, run, i, o))
      || (place.Replied? && place.answer.Cached? && EndedServing(config, run, i, o, place.answer.result))
    ensures place == run.states[i + 1].progress[r].place
  {
    hide IsRun, EndedInDoubt, EndedServing, FreeFor, HeldForOther, BoundToOther;
    EveryAnswerIsExact(config, run, i, place);
  }
}
