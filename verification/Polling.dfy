/** The bounded observation loop of src/flow/live-e2e.ts. */
module Polling {
  import opened Wrappers
  import opened CodeUnits
  import opened Transfers
  import opened Observation

  datatype Outcome = Matched | RevertedOutcome | WrongTransfer | NotEstablished

  /** The k-th reading of a clock that never goes back and that a sleep moves on by at least its length.
      Each round of the loop reads it twice, before observing and before deciding to sleep. */
  ghost predicate Steady(clock: nat -> int, pollMs: nat) {
    forall k: nat :: clock(k) <= clock(k + 1) && (k > 0 && k % 2 == 0 ==> clock(k) + pollMs <= clock(k + 1))
  }

  predicate Retryable(reason: Option<Reason>) {
    reason == Some(EndpointUnreachable) || reason == Some(EndpointTemporarilyUnavailable)
  }

  predicate IsReverted(o: RpcObservation) {
    o.state == Found && o.receiptStatus == Some(Reverted)
  }

  predicate IsSealed(o: RpcObservation) {
    o.state == Found && o.inclusion.Some?
  }

  /** Nothing definitive: not found yet, an endpoint that may recover, or no sealed inclusion yet. */
  predicate Transient(o: RpcObservation) {
    !IsReverted(o) && !IsSealed(o) && (o.state == Unavailable ==> Retryable(o.unavailableReason))
  }

  predicate ShowsTransfer(o: RpcObservation, expected: Transfer) {
    o.transfer.Some? && TransferMatches(o.transfer.value, expected)
  }

  /** The observation made in round `k`, at the time the clock then shows. */
  function Seen(observe: (nat, int) -> RpcObservation, clock: nat -> int, k: nat): RpcObservation {
    observe(k, clock(2 * k + 1) / 1000)
  }

  lemma Ticks(clock: nat -> int, pollMs: nat, k: nat)
    requires Steady(clock, pollMs)
    ensures clock(0) <= clock(1)
    ensures clock(2 * k + 1) <= clock(2 * k + 2) && clock(2 * k + 2) + pollMs <= clock(2 * k + 3)
  {
    assert clock(2 * k + 1) <= clock(2 * k + 1 + 1);
    assert (2 * k + 2) % 2 == 0;
    assert clock(0) <= clock(0 + 1);
  }

  function SleptAfter(k: nat, pollMs: nat): nat {
    k * pollMs
  }

  lemma SleptMore(k: nat, pollMs: nat)
    ensures SleptAfter(0, pollMs) == 0 && SleptAfter(k + 1, pollMs) == SleptAfter(k, pollMs) + pollMs
  {
  }

  /** Polls until a definitive observation or the deadline. The last observation decides; every earlier one
      was transient; there is a first round at once, and further ones only while a poll fits the deadline. */
  method ObserveUntilSealed(
    observe: (nat, int) -> RpcObservation, clock: nat -> int, expected: Transfer, pollMs: nat, deadlineMs: int)
    returns (outcome: Outcome, observation: RpcObservation, ghost rounds: nat, ghost slept: nat)
    requires Steady(clock, pollMs) && pollMs > 0
    ensures rounds > 0 && observation == Seen(observe, clock, rounds - 1)
    ensures forall k | 0 <= k < rounds - 1 :: Transient(Seen(observe, clock, k))
    ensures outcome == RevertedOutcome <==> IsReverted(observation)
    ensures outcome == Matched <==>
      !IsReverted(observation) && IsSealed(observation) && ShowsTransfer(observation, expected)
    ensures outcome == WrongTransfer <==>
      !IsReverted(observation) && IsSealed(observation) && !ShowsTransfer(observation, expected)
    ensures Transient(observation) ==> clock(2 * rounds) - clock(0) + pollMs > deadlineMs
    ensures slept == SleptAfter(rounds - 1, pollMs) && (rounds > 1 ==> slept <= deadlineMs)
  {
    hide Steady, SleptAfter, TransferMatches;
    var startedAt := clock(0);
    var k: nat := 0;
    slept := 0;
    Ticks(clock, pollMs, 0);
    SleptMore(0, pollMs);
    while true
      invariant forall i | 0 <= i < k :: Transient(Seen(observe, clock, i))
      invariant slept == SleptAfter(k, pollMs) && clock(0) + slept <= clock(2 * k + 1)
      invariant k > 0 ==> slept <= deadlineMs
      decreases deadlineMs - slept
    {
      observation := observe(k, clock(2 * k + 1) / 1000);
      rounds := k + 1;
      if observation.state == Found && observation.receiptStatus == Some(Reverted) {
        return RevertedOutcome, observation, rounds, slept;
      }
      if observation.state == Found && observation.inclusion.Some? {
        var matched := observation.transfer.Some? && TransferMatches(observation.transfer.value, expected);
        return if matched then Matched else WrongTransfer, observation, rounds, slept;
      }
      if observation.state == Unavailable {
        if !Retryable(observation.unavailableReason) {
          return NotEstablished, observation, rounds, slept;
        }
      }
      var now := clock(2 * k + 2);
      Ticks(clock, pollMs, k);
      SleptMore(k, pollMs);
      if now - startedAt + pollMs > deadlineMs {
        return NotEstablished, observation, rounds, slept;
      }
      slept := slept + pollMs;
      k := k + 1;
    }
  }

  /** The most rounds a deadline allows. */
  lemma RoundsAreBounded(rounds: nat, pollMs: nat, deadlineMs: nat)
    requires pollMs > 0 && rounds > 0 && (rounds > 1 ==> SleptAfter(rounds - 1, pollMs) <= deadlineMs)
    ensures rounds <= deadlineMs / pollMs + 1
  {
    var spare := deadlineMs / pollMs + 1 - rounds;
    assert (spare + 1) * pollMs == (deadlineMs / pollMs) * pollMs + 2 * pollMs - rounds * pollMs;
    assert (deadlineMs / pollMs) * pollMs > deadlineMs - pollMs;
    assert rounds > 1 ==> (rounds - 1) * pollMs == rounds * pollMs - pollMs;
    assert (spare + 1) * pollMs > 0;
  }

  /** Why the interval must be positive: with none, a clock that stands still never reaches the deadline,
      and a transient endpoint is asked for ever. */
  lemma NoIntervalNoDeadline(deadlineMs: nat)
    ensures
      var still: nat -> int := _ => 0;
      Steady(still, 0) && forall rounds: nat :: !(still(2 * rounds) - still(0) + 0 > deadlineMs)
  {
  }

  /** What is asked again, for observations made by the sealed-block observer: of those that could not be made, just
      the ones whose first failing query found an endpoint that was unreachable or temporarily unavailable, and of
      the others those not yet found, or found neither reverted nor sealed. */
  lemma RetriedExactly(source: Source, hash: Text, expected: Transfer, o: RpcObservation)
    requires Reports(source, hash, expected, o)
    ensures o.state == Unavailable ==>
      (Transient(o) <==>
         && IsWord(hash)
         && var failure := if source.receipt.Threw? then source.receipt.kind else source.transaction.kind;
         failure == Some(Unreachable) || failure == Some(TemporarilyUnavailable))
    ensures o.state == NotFound ==> Transient(o)
    ensures o.state == Found ==> (Transient(o) <==> o.receiptStatus != Some(Reverted) && o.inclusion.None?)
  {
    hide IsWord, HasMatch, TransfersOn, Picked, TransferMatches;
  }

  /** What the live outcomes mean, for observations made by the sealed-block observer: the transaction is in a
      sealed block that lists it, and it matched exactly when some log of its receipt encodes the transfer. */
  lemma OutcomeMeans(source: Source, hash: Text, expected: Transfer, o: RpcObservation)
    requires Reports(source, hash, expected, o) && ReportsInclusion(source, hash, o) && IsSealed(o)
    ensures exists number: nat, blockHash: Text :: SealedIn(source, hash, number, blockHash)
    ensures ShowsTransfer(o, expected) <==> SomeLogEncodes(source.receipt.value.value.logs, expected)
  {
    hide TransferMatches, TransfersOn, SomeLogEncodes, SealedIn;
    MatchIffEncoded(source.receipt.value.value.logs, expected);
  }
}
