/** Safety over whole runs: settlement at most once per identifier, what a rejected identifier means,
    who may be served a cached result, and how the store may change. */
module ProtocolSafety {
  import opened Wrappers
  import opened CodeUnits
  import opened Lifecycle
  import opened Operations
  import opened Protocol
  import opened ProtocolInvariant

  // ---------------------------------------------------------------- settlement

  lemma CommittedMaySettle(config: Config, s: State, r: nat)
    requires Invariant(config, s) && r < |s.progress| && Committed(s.progress[r])
    requires Identifier(config.requests[r]).Some?
    ensures MaySettle(s.progress[r]) && Keyed(config.requests[r])
  {
    assert Coherent(config.requests[r], s.progress[r]);
  }

  /** Under one identifier at most one settlement ends in success or with its outcome unknown. */
  lemma AtMostOneCommitted(config: Config, run: Run, i: nat, r1: nat, r2: nat)
    requires IsRun(config, run) && i < |run.states|
    requires r1 < |config.requests| && r2 < |config.requests| && SameIdentifier(config, r1, r2)
    requires Committed(run.states[i].progress[r1]) && Committed(run.states[i].progress[r2])
    ensures r1 == r2
  {
    RunKeeps(config, run, i);
    CommittedMaySettle(config, run.states[i], r1);
    CommittedMaySettle(config, run.states[i], r2);
  }

  lemma CommittedStays(config: Config, s: State, a: Action, r: nat)
    requires |s.progress| == |config.requests| && Enabled(config, s, a)
    requires r < |s.progress| && Committed(s.progress[r])
    ensures Committed(Next(config, s, a).progress[r])
  {
  }

  /** The same over time: a committed settlement is never followed by another request's. */
  lemma {:induction false} NoSecondCommit(config: Config, run: Run, i: nat, j: nat, r1: nat, r2: nat)
    requires IsRun(config, run) && i <= j < |run.states|
    requires r1 < |config.requests| && r2 < |config.requests| && SameIdentifier(config, r1, r2)
    requires Committed(run.states[i].progress[r1]) && Committed(run.states[j].progress[r2])
    ensures r1 == r2
    decreases j - i
  {
    if i == j {
      AtMostOneCommitted(config, run, i, r1, r2);
    } else {
      CommittedStays(config, run.states[i], run.actions[i], r1);
      NoSecondCommit(config, run, i + 1, j, r1, r2);
    }
  }

  predicate OwnsOpenly(config: Config, s: State, r: nat, id: Text)
    requires |s.progress| == |config.requests|
  {
    && r < |s.progress| && s.progress[r].claimed && !s.progress[r].Concluded()
    && Identifier(config.requests[r]) == Some(id)
  }

  /** An identifier is pending exactly while one request that claimed it has not concluded, and the
      entry is that request's. */
  lemma OneOpenOwner(config: Config, run: Run, i: nat, id: Text)
    requires IsRun(config, run) && i < |run.states|
    ensures forall r: nat | OwnsOpenly(config, run.states[i], r, id) ::
      id in run.states[i].store && run.states[i].store[id].Pending? && run.states[i].store[id].owner == r
    ensures id in run.states[i].store && run.states[i].store[id].Pending? ==>
      OwnsOpenly(config, run.states[i], run.states[i].store[id].owner, id)
  {
    RunKeeps(config, run, i);
    var s := run.states[i];
    forall r: nat | OwnsOpenly(config, s, r, id)
      ensures id in s.store && s.store[id].Pending? && s.store[id].owner == r
    {
      assert Coherent(config.requests[r], s.progress[r]) && Situated(config, s, r);
    }
    if id in s.store && s.store[id].Pending? {
      assert Backed(config, s, id);
    }
  }

  /** A released identifier is safe to retry: nothing under it has committed, and nothing that already
      claimed it still can. */
  lemma RejectedIsSafeToRetry(config: Config, run: Run, i: nat, id: Text, r: nat)
    requires IsRun(config, run) && i < |run.states|
    requires id in run.states[i].store && run.states[i].store[id].Rejected?
    requires r < |config.requests| && Identifier(config.requests[r]) == Some(id)
    ensures !Committed(run.states[i].progress[r]) && !MaySettle(run.states[i].progress[r])
  {
    RunKeeps(config, run, i);
    var s := run.states[i];
    assert Coherent(config.requests[r], s.progress[r]) && Situated(config, s, r);
  }

  /** An identifier is refused for good only after a claimed attempt under it, with the same request
      and authorization, entered settlement. */
  lemma UncertainOnlyAfterSubmission(config: Config, run: Run, i: nat, id: Text)
    requires IsRun(config, run) && i < |run.states|
    requires id in run.states[i].store && run.states[i].store[id].Uncertain?
    ensures exists r: nat ::
      SubmittedBy(config, run.states[i], r, id, run.states[i].store[id].fingerprint,
        run.states[i].store[id].authorization)
  {
    RunKeeps(config, run, i);
    assert Backed(config, run.states[i], id);
  }

  // ---------------------------------------------------------------- cached results

  /** A cached result answers only a request with the identifier, the fingerprint and the normalized
      authorization of the one request whose settlement succeeded, and carries that request's bytes. */
  lemma CachedOnlyForTheSettled(config: Config, run: Run, i: nat, r: nat)
    requires IsRun(config, run) && i < |run.states| && r < |config.requests|
    requires
      var place := run.states[i].progress[r].place;
      place.Replied? && place.answer.Cached?
    ensures Keyed(config.requests[r])
    ensures
      var s, request := run.states[i], config.requests[r];
      var result := s.progress[r].place.answer.result;
      exists settled: nat ::
        && Source(config, s, settled, request.payment.identifier.value, request.fingerprint,
                  request.payment.authorization.value, result)
        && (forall other: nat | other < |config.requests| && SameIdentifier(config, settled, other)
              && Committed(s.progress[other]) :: other == settled)
  {
    RunKeeps(config, run, i);
    var s, request := run.states[i], config.requests[r];
    assert Coherent(request, s.progress[r]) && Situated(config, s, r);
    var id, auth := request.payment.identifier.value, request.payment.authorization.value;
    var result := s.progress[r].place.answer.result;
    var settled: nat :| Source(config, s, settled, id, request.fingerprint, auth, result);
    forall other: nat | other < |config.requests| && SameIdentifier(config, settled, other)
      && Committed(s.progress[other])
      ensures other == settled
    {
      AtMostOneCommitted(config, run, i, settled, other);
    }
  }

  // ---------------------------------------------------------------- the store over time

  /** How one entry may change: it never disappears, keeps its fingerprint, is final once completed
      or uncertain, and is pending again only for a new owner after a rejection. */
  predicate Evolves(before: Store, after: Store, id: Text) {
    id in before ==>
      && id in after
      && after[id].fingerprint == before[id].fingerprint
      && (before[id].Completed? || before[id].Uncertain? ==> after[id] == before[id])
  }

  /** How one entry may become pending. */
  predicate PendsProperly(before: Store, after: Store, id: Text) {
    id in after && after[id].Pending? ==> id !in before || before[id].Rejected? || before[id] == after[id]
  }

  lemma TurnEvolves(capacity: nat, store: Store, resolved: set<nat>, request: Request, q: Progress, a: Action, id: Text)
    ensures
      var (after, _, _) := Turn(capacity, store, resolved, request, q, a);
      Evolves(store, after, id) && PendsProperly(store, after, id)
  {
  }

  lemma StepEvolves(config: Config, s: State, a: Action, id: Text)
    requires |s.progress| == |config.requests| && Enabled(config, s, a)
    ensures Evolves(s.store, Next(config, s, a).store, id) && PendsProperly(s.store, Next(config, s, a).store, id)
  {
    TurnEvolves(config.capacity, s.store, s.resolved, config.requests[a.r], s.progress[a.r], a, id);
  }

  /** Over any stretch of a run every entry evolves, and the store never outgrows its capacity. */
  lemma {:induction false} StoreEvolves(config: Config, run: Run, i: nat, j: nat, id: Text)
    requires IsRun(config, run) && i <= j < |run.states|
    ensures Evolves(run.states[i].store, run.states[j].store, id)
    ensures |run.states[j].store| <= config.capacity
    decreases j - i
  {
    if i == j {
      RunKeeps(config, run, j);
    } else {
      StepAt(config, run, i);
      StepEvolves(config, run.states[i], run.actions[i], id);
      StoreEvolves(config, run, i + 1, j, id);
    }
  }
}
