/** No waiter is ever stuck, and every run over finitely many requests ends with all of them answered. */
module ProtocolProgress {
  import opened Wrappers
  import opened CodeUnits
  import opened Operations
  import opened Protocol
  import opened ProtocolInvariant

  /** A waiting request waits on a promise that is resolved already, or that belongs to the one open
      owner of its own identifier, which holds the pending entry. */
  lemma WaitersAreNotStuck(config: Config, run: Run, i: nat, r: nat)
    requires IsRun(config, run) && i < |run.states| && r < |config.requests|
    requires run.states[i].progress[r].place.Waiting?
    ensures Keyed(config.requests[r])
    ensures
      var s, owner := run.states[i], run.states[i].progress[r].place.owner;
      var id := config.requests[r].payment.identifier.value;
      || (owner in s.resolved && Step(config, s, Read(r)))
      || (&& id in s.store && s.store[id].Pending? && s.store[id].owner == owner
          && owner < |s.progress| && s.progress[owner].claimed && !s.progress[owner].Concluded())
  {
    RunKeeps(config, run, i);
    var s, owner := run.states[i], run.states[i].progress[r].place.owner;
    assert Coherent(config.requests[r], s.progress[r]) && Situated(config, s, r);
    assert Coherent(config.requests[owner], s.progress[owner]) && Situated(config, s, owner);
  }

  // ---------------------------------------------------------------- a decreasing measure

  function PhaseRank(phase: Phase): nat {
    match phase
    case Arrived => 7
    case Presented => 6
    case Verified => 5
    case HandlerReturned => 4
    case Settling => 3
    case SettleAnswered(_) => 2
    case HandlerErred => 1
    case VerificationEnded => 0
    case Canceled => 0
    case SettleReported(_) => 0
  }

  /** How many steps a request has left, were it never to wait again. */
  function Rank(q: Progress): nat {
    match q.place
    case Entering => 12
    case Waiting(_) => 10 + (if q.unheard then 0 else 1)
    case Replied(_) => 0
    case Passed => PhaseRank(q.phase) + (if q.finished then 0 else 1) + (if q.closed then 0 else 1)
  }

  function Weight(progress: seq<Progress>): nat {
    if progress == [] then 0 else Rank(progress[0]) + Weight(progress[1..])
  }

  function Awake(q: Progress, resolved: set<nat>): nat {
    if q.place.Waiting? && q.place.owner in resolved then 1 else 0
  }

  /** How many waiters have been woken and not yet read the store again. */
  function Woken(progress: seq<Progress>, resolved: set<nat>): nat {
    if progress == [] then 0 else Awake(progress[0], resolved) + Woken(progress[1..], resolved)
  }

  lemma {:induction false} WeightUpdate(progress: seq<Progress>, r: nat, q: Progress)
    requires r < |progress|
    ensures Weight(progress[r := q]) == Weight(progress) - Rank(progress[r]) + Rank(q)
  {
    if r == 0 {
      assert progress[r := q][1..] == progress[1..];
    } else {
      assert progress[r := q][1..] == progress[1..][r - 1 := q];
      WeightUpdate(progress[1..], r - 1, q);
    }
  }

  lemma {:induction false} WokenUpdate(progress: seq<Progress>, resolved: set<nat>, r: nat, q: Progress)
    requires r < |progress|
    ensures Woken(progress[r := q], resolved)
      == Woken(progress, resolved) - Awake(progress[r], resolved) + Awake(q, resolved)
  {
    if r == 0 {
      assert progress[r := q][1..] == progress[1..];
    } else {
      assert progress[r := q][1..] == progress[1..][r - 1 := q];
      WokenUpdate(progress[1..], resolved, r - 1, q);
    }
  }

  lemma {:induction false} WokenBound(progress: seq<Progress>, resolved: set<nat>)
    ensures Woken(progress, resolved) <= |progress|
  {
    if progress != [] {
      WokenBound(progress[1..], resolved);
    }
  }

  /** Lexicographic in what is left to do, then in the waiters woken, as one number. */
  function Measure(s: State): nat {
    Weight(s.progress) * (|s.progress| + 1) + Woken(s.progress, s.resolved)
  }

  lemma MeasureFromWeight(s: State, s': State)
    requires |s'.progress| == |s.progress| && Weight(s'.progress) < Weight(s.progress)
    ensures Measure(s') < Measure(s)
  {
    WokenBound(s'.progress, s'.resolved);
    OneLess(Weight(s'.progress), Weight(s.progress), |s.progress| + 1);
  }

  lemma OneLess(a: nat, b: nat, n: nat)
    requires a < b
    ensures a * n + n <= b * n
  {
    assert b * n == (a + 1) * n + (b - a - 1) * n;
    assert (a + 1) * n == a * n + n;
  }

  /** A waiter told to wait again waits on an owner still open. */
  lemma RewaitsOnOpen(config: Config, s: State, r: nat)
    requires Invariant(config, s) && r < |s.progress| && s.progress[r].place != Passed
    requires ReadTurn(config.capacity, s.store, config.requests[r], r, s.progress[r]).1.place.Waiting?
    ensures ReadTurn(config.capacity, s.store, config.requests[r], r, s.progress[r]).1.place.owner !in s.resolved
  {
    hide Exclusive, RecordFits, MaySettle, HasSource;
    var id := config.requests[r].payment.identifier.value;
    assert Backed(config, s, id);
    assert Situated(config, s, s.store[id].owner);
  }

  lemma ReadRanks(capacity: nat, store: Store, request: Request, r: nat, q: Progress)
    requires q == FRESH.(place := q.place, unheard := q.unheard) && (q.place == Entering || q.place.Waiting?)
    ensures
      var q' := ReadTurn(capacity, store, request, r, q).1;
      Rank(q') < Rank(q) || (q.place.Waiting? && q'.place.Waiting? && Rank(q') == Rank(q))
  {
  }

  lemma ReadDecreases(config: Config, s: State, s': State, r: nat)
    requires Invariant(config, s) && r < |s.progress|
    requires
      s.progress[r].place == Entering || (s.progress[r].place.Waiting? && s.progress[r].place.owner in s.resolved)
    requires
      var (store, q) := ReadTurn(config.capacity, s.store, config.requests[r], r, s.progress[r]);
      s' == State(store, s.resolved, s.progress[r := q])
    ensures Measure(s') < Measure(s)
  {
    var q, q' := s.progress[r], s'.progress[r];
    assert Coherent(config.requests[r], q);
    ReadRanks(config.capacity, s.store, config.requests[r], r, q);
    if Rank(q') < Rank(q) {
      RankDecreases(s, s', r, q');
    } else {
      RewaitsOnOpen(config, s, r);
      SleepDecreases(s, s', r, q');
    }
  }

  lemma SleepDecreases(s: State, s': State, r: nat, q': Progress)
    requires r < |s.progress| && s'.progress == s.progress[r := q'] && s'.resolved == s.resolved
    requires Rank(q') == Rank(s.progress[r]) && Awake(q', s.resolved) < Awake(s.progress[r], s.resolved)
    ensures Measure(s') < Measure(s)
  {
    WeightUpdate(s.progress, r, q');
    WokenUpdate(s.progress, s.resolved, r, q');
  }

  lemma RankDecreases(s: State, s': State, r: nat, q': Progress)
    requires r < |s.progress| && s'.progress == s.progress[r := q'] && Rank(q') < Rank(s.progress[r])
    ensures Measure(s') < Measure(s)
  {
    WeightUpdate(s.progress, r, q');
    MeasureFromWeight(s, s');
  }

  lemma HookDecreases(request: Request, q: Progress, a: Action)
    requires q.place == Passed && HookReady(request, q, a)
    ensures Rank(MiddlewareEffect(q, request.payment, a)) < Rank(q)
  {
  }

  lemma StepDecreases(config: Config, s: State, a: Action)
    requires Invariant(config, s) && Step(config, s, a)
    ensures Measure(Next(config, s, a)) < Measure(s)
  {
    hide Conclusion, Admit, FinishRecord, Backed, Exclusive, Situated, Measure, HookReady;
    var s', q := Next(config, s, a), s.progress[a.r];
    match a
    case Read(r) => ReadDecreases(config, s, s', r);
    case HangUp(r) => RankDecreases(s, s', r, q.(unheard := true));
    case Finish(r, response) => RankDecreases(s, s', r, Finished(q, response));
    case Close(r, response) => RankDecreases(s, s', r, Closed(q, response));
    case _ =>
      assert Coherent(config.requests[a.r], q);
      HookIsReady(config, s, a);
      HookTakes(config, s, a);
      HookDecreases(config.requests[a.r], q, a);
      RankDecreases(s, s', a.r, MiddlewareEffect(q, config.requests[a.r].payment, a));
  }

  lemma {:induction false} MeasureOverRun(config: Config, run: Run, i: nat)
    requires IsRun(config, run) && i < |run.states|
    ensures Measure(run.states[i]) + i <= Measure(run.states[0])
  {
    if i > 0 {
      MeasureOverRun(config, run, i - 1);
      RunKeeps(config, run, i - 1);
      StepAt(config, run, i - 1);
      StepDecreases(config, run.states[i - 1], run.actions[i - 1]);
    }
  }

  lemma {:induction false} FreshWeight(progress: seq<Progress>)
    requires forall i | 0 <= i < |progress| :: progress[i] == FRESH
    ensures Weight(progress) == 12 * |progress| && Woken(progress, {}) == 0
  {
    if progress != [] {
      FreshWeight(progress[1..]);
    }
  }

  /** No run of n requests takes more than 12 n (n + 1) steps, however they interleave. */
  lemma RunsAreBounded(config: Config, run: Run)
    requires IsRun(config, run)
    ensures |run.actions| <= 12 * |config.requests| * (|config.requests| + 1)
  {
    MeasureOverRun(config, run, |run.actions|);
    FreshWeight(run.states[0].progress);
  }

  /** A request that this layer answered, or that went to the middleware and whose response ended. */
  predicate Done(q: Progress) {
    q.place.Replied? || (q.place == Passed && (q.Concluded() || q.unheard))
  }

  /** It waits on an owner whose response ended before the listeners that conclude it were registered. */
  predicate Stranded(s: State, r: nat)
    requires r < |s.progress|
  {
    s.progress[r].place.Waiting? && s.progress[r].place.owner < |s.progress|
    && s.progress[s.progress[r].place.owner].unheard && s.progress[r].place.owner !in s.resolved
  }

  /** Whoever claims an identifier is still connected then, so that a finish or a close will conclude it. */
  predicate OwnersAreHeard(s: State) {
    forall r: nat | r < |s.progress| && s.progress[r].claimed :: !s.progress[r].unheard
  }

  lemma CanEnd(config: Config, s: State, r: nat)
    requires |s.progress| == |config.requests| && r < |s.progress|
    requires s.progress[r].place == Passed && !s.progress[r].unheard && !s.progress[r].Concluded()
    ensures Step(config, s, Close(r, ResponseView(200, None)))
  {
  }

  lemma CanRead(config: Config, s: State, r: nat)
    requires |s.progress| == |config.requests| && r < |s.progress|
    requires
      s.progress[r].place == Entering || (s.progress[r].place.Waiting? && s.progress[r].place.owner in s.resolved)
    ensures Step(config, s, Read(r))
  {
  }

  /** The promise of an owner that is heard is resolved once nothing can happen any more. */
  lemma HeardOwnerResolved(config: Config, s: State, owner: nat)
    requires Invariant(config, s) && owner < |s.progress| && s.progress[owner].claimed
    requires forall a: Action | !a.HangUp? :: !Step(config, s, a)
    ensures s.progress[owner].unheard || owner in s.resolved
  {
    hide Step, Enabled;
    assert Coherent(config.requests[owner], s.progress[owner]) && Situated(config, s, owner);
    if !s.progress[owner].unheard && !s.progress[owner].Concluded() {
      CanEnd(config, s, owner);
    }
  }

  /** A run in which nobody has a step left but to hang up has answered exactly those that do not wait on an
      unheard owner. */
  lemma OnlyUnheardOwnersStrand(config: Config, run: Run, r: nat)
    requires IsRun(config, run) && r < |config.requests|
    requires forall a: Action | !a.HangUp? :: !Step(config, run.Last(), a)
    ensures Done(run.Last().progress[r]) <==> !Stranded(run.Last(), r)
  {
    hide Step, Enabled, Coherent, Situated;
    var s, last := run.Last(), |run.states| - 1;
    RunKeeps(config, run, last);
    hide Invariant;
    match s.progress[r].place
    case Entering => CanRead(config, s, r);
    case Replied(_) =>
    case Passed => if !Done(s.progress[r]) { CanEnd(config, s, r); }
    case Waiting(owner) =>
      OwnerOf(config, s, r);
      HeardOwnerResolved(config, s, owner);
      if owner in s.resolved {
        CanRead(config, s, r);
      }
  }

  lemma OwnerOf(config: Config, s: State, r: nat)
    requires Invariant(config, s) && r < |s.progress| && s.progress[r].place.Waiting?
    ensures s.progress[r].place.owner < |s.progress| && s.progress[s.progress[r].place.owner].claimed
  {
    assert Coherent(config.requests[r], s.progress[r]) && Situated(config, s, r);
  }

  /** So where every owner is heard, a run that cannot go on has answered every request: nobody is left entering,
      waiting or open. */
  lemma FinishedRunsAnswerEveryone(config: Config, run: Run)
    requires IsRun(config, run) && OwnersAreHeard(run.Last())
    requires forall a: Action | !a.HangUp? :: !Step(config, run.Last(), a)
    ensures forall r: nat | r < |config.requests| :: Done(run.Last().progress[r])
  {
    hide Step, Enabled;
    var s := run.Last();
    RunKeeps(config, run, |run.states| - 1);
    forall r: nat | r < |config.requests| ensures Done(s.progress[r]) {
      OnlyUnheardOwnersStrand(config, run, r);
      if s.progress[r].place.Waiting? {
        OwnerOf(config, s, r);
      }
    }
  }

  /** With every owner concluded, a request that is not done can take its own next step: no further
      event of any other request is needed. */
  lemma OnlyOpenOwnersHoldOthersUp(config: Config, run: Run, r: nat)
    requires IsRun(config, run) && r < |config.requests|
    requires forall o: nat | o < |config.requests| && run.Last().progress[o].claimed ::
      run.Last().progress[o].Concluded()
    requires run.Last().progress[r].place != Passed && !Done(run.Last().progress[r])
    ensures Step(config, run.Last(), Read(r))
  {
    if run.Last().progress[r].place.Waiting? {
      WaitersAreNotStuck(config, run, |run.states| - 1, r);
    }
  }
}
