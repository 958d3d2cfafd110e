/** The payment lifecycle recorder of src/flow/lifecycle.ts, with the failure vocabulary it records.
    `Record` is the value a recorder holds; the class updates its fields in place and is specified
    by the functions on that value. */
module Lifecycle {
  import opened Wrappers

  datatype LifecycleState =
    | RequestReceived
    | PaymentRequired
    | PaymentPayloadReceived
    | PaymentVerified
    | ResourceExecuted
    | PaymentSettled
    | ResponsePrepared
    | ResponseWriteAttempted

  const LIFECYCLE_STATES: seq<LifecycleState> := [
    RequestReceived, PaymentRequired, PaymentPayloadReceived, PaymentVerified,
    ResourceExecuted, PaymentSettled, ResponsePrepared, ResponseWriteAttempted]

  datatype TerminalState =
    | WriteAttempted
    | RejectedPreVerification
    | VerificationRefused
    | HandlerErrorStatus
    | SettlementFailed
    | PaymentRequiredOnly

  /** The derived terms, then the upstream codes of the allowlist. */
  datatype FailureReason =
    | VerificationRejected
    | VerificationException
    | SettlementRejected
    | SettlementException
    | HandlerFailed
    | DuplicateSettlement
    | NetworkMismatch
    | SchemeMismatch
    | AssetMismatch
    | AmountMismatch
    | RecipientMismatch
    | MissingAuthorization

  /** The upstream codes this integration keeps verbatim. */
  function SupportedUpstream(code: string): Option<FailureReason> {
    match code
    case "duplicate_settlement" => Some(DuplicateSettlement)
    case "network_mismatch" => Some(NetworkMismatch)
    case "scheme_mismatch" => Some(SchemeMismatch)
    case "asset_mismatch" => Some(AssetMismatch)
    case "amount_mismatch" => Some(AmountMismatch)
    case "recipient_mismatch" => Some(RecipientMismatch)
    case "missing_authorization" => Some(MissingAuthorization)
    case "handler_failed" => Some(HandlerFailed)
    case _ => None
  }

  /** What is persisted for one failure. No remote text can be recorded as a raised settlement:
      that term is reachable only as the `derived` argument. */
  function PersistableFailureReason(upstream: Option<string>, derived: FailureReason): (reason: FailureReason)
    ensures reason == SettlementException ==> derived == SettlementException
  {
    match upstream
    case None => derived
    case Some(code) => match SupportedUpstream(code) case Some(known) => known case None => derived
  }

  /** The machine codes of the allowlist. */
  predicate IsCodeOf(code: string, reason: FailureReason) {
    || (code == "duplicate_settlement" && reason == DuplicateSettlement)
    || (code == "network_mismatch" && reason == NetworkMismatch)
    || (code == "scheme_mismatch" && reason == SchemeMismatch)
    || (code == "asset_mismatch" && reason == AssetMismatch)
    || (code == "amount_mismatch" && reason == AmountMismatch)
    || (code == "recipient_mismatch" && reason == RecipientMismatch)
    || (code == "missing_authorization" && reason == MissingAuthorization)
    || (code == "handler_failed" && reason == HandlerFailed)
  }

  /** A code on the allowlist is persisted as it stands, and anything else leaves only the derived term. */
  lemma OnlyListedCodesPersist(upstream: Option<string>, derived: FailureReason)
    ensures
      var reason := PersistableFailureReason(upstream, derived);
      if upstream.Some? && exists listed :: IsCodeOf(upstream.value, listed) then IsCodeOf(upstream.value, reason)
      else reason == derived
  {
    if upstream.Some? && SupportedUpstream(upstream.value).Some? {
      assert IsCodeOf(upstream.value, SupportedUpstream(upstream.value).value);
    }
  }

  predicate PaymentWasSettled(state: TerminalState) {
    state == WriteAttempted
  }

  /** The recorder's `detail` object. */
  datatype Detail = Detail(
    cancellationReason: Option<FailureReason>,
    failureReason: Option<FailureReason>,
    transaction: Option<string>,
    payer: Option<string>,
    responseStatus: Option<nat>)

  const NO_DETAIL := Detail(None, None, None, None, None)

  /** One member of an object spread over `detail`: absent from it, or present with a value that
      may itself be undefined and then erases what was there. */
  datatype Change<T> = Keep | Put(value: Option<T>)

  function Over<T>(change: Change<T>, before: Option<T>): Option<T> {
    if change.Put? then change.value else before
  }

  datatype Patch = Patch(
    cancellationReason: Change<FailureReason>,
    failureReason: Change<FailureReason>,
    transaction: Change<string>,
    payer: Change<string>,
    responseStatus: Change<nat>)

  const NO_PATCH := Patch(Keep, Keep, Keep, Keep, Keep)

  function Spread(detail: Detail, patch: Patch): Detail {
    Detail(
      Over(patch.cancellationReason, detail.cancellationReason),
      Over(patch.failureReason, detail.failureReason),
      Over(patch.transaction, detail.transaction),
      Over(patch.payer, detail.payer),
      Over(patch.responseStatus, detail.responseStatus))
  }

  /** What a recorder holds. */
  datatype Record = Record(seen: seq<LifecycleState>, terminal: TerminalState, reported: bool, detail: Detail) {
    function Enter(state: LifecycleState): (r: Record)
      ensures forall other :: other in r.seen <==> other in seen || other == state
    {
      if state in seen then this else this.(seen := seen + [state])
    }

    function Finish(state: TerminalState, patch: Patch): Record {
      this.(terminal := state, reported := true, detail := Spread(detail, patch))
    }

    function Note(patch: Patch): Record {
      this.(detail := Spread(detail, patch))
    }
  }

  const NEW_RECORD := Record([], PaymentRequiredOnly, false, NO_DETAIL)

  datatype Observation = Observation(states: seq<LifecycleState>, terminalState: TerminalState, detail: Detail)

  function Ordered(order: seq<LifecycleState>, seen: seq<LifecycleState>): seq<LifecycleState> {
    if order == [] then []
    else (if order[0] in seen then [order[0]] else []) + Ordered(order[1..], seen)
  }

  function Position(state: LifecycleState): nat {
    match state
    case RequestReceived => 0
    case PaymentRequired => 1
    case PaymentPayloadReceived => 2
    case PaymentVerified => 3
    case ResourceExecuted => 4
    case PaymentSettled => 5
    case ResponsePrepared => 6
    case ResponseWriteAttempted => 7
  }

  function NonEmpty(text: Option<string>): Option<string> {
    if text == Some("") then None else text
  }

  function ObservationOf(record: Record): Observation {
    Observation(
      Ordered(LIFECYCLE_STATES, record.seen),
      record.terminal,
      record.detail.(
        transaction := NonEmpty(record.detail.transaction),
        payer := NonEmpty(record.detail.payer)))
  }

  ghost predicate InLifecycleOrder(states: seq<LifecycleState>) {
    forall i, j :: 0 <= i < j < |states| ==> Position(states[i]) < Position(states[j])
  }

  lemma {:induction false} OrderedKeeps(order: seq<LifecycleState>, seen: seq<LifecycleState>)
    requires InLifecycleOrder(order)
    ensures InLifecycleOrder(Ordered(order, seen))
    ensures forall state :: state in Ordered(order, seen) <==> state in order && state in seen
  {
    if order != [] {
      var rest := Ordered(order[1..], seen);
      OrderedKeeps(order[1..], seen);
      forall state | state in rest ensures Position(order[0]) < Position(state) {
        var k :| 0 <= k < |order[1..]| && order[1..][k] == state;
        assert state == order[k + 1];
      }
    }
  }

  /** An observation reports exactly the positions entered, each once, in lifecycle order, in
      whatever order and however often they were entered. */
  lemma ObservationIsFaithful(record: Record)
    ensures InLifecycleOrder(ObservationOf(record).states)
    ensures forall state :: state in ObservationOf(record).states <==> state in record.seen
  {
    OrderedKeeps(LIFECYCLE_STATES, record.seen);
    forall state: LifecycleState ensures state in LIFECYCLE_STATES {
      assert LIFECYCLE_STATES[Position(state)] == state;
    }
  }

  class LifecycleRecorder {
    var seen: seq<LifecycleState>
    var terminal: TerminalState
    var terminalReported: bool
    var detail: Detail

    function Value(): Record
      reads this
    {
      Record(seen, terminal, terminalReported, detail)
    }

    constructor ()
      ensures Value() == NEW_RECORD
    {
      seen, terminal, terminalReported, detail := [], PaymentRequiredOnly, false, NO_DETAIL;
    }

    method Enter(state: LifecycleState)
      modifies this
      ensures Value() == old(Value()).Enter(state)
    {
      if state !in seen {
        seen := seen + [state];
      }
    }

    method Finish(state: TerminalState, patch: Patch)
      modifies this
      ensures Value() == old(Value()).Finish(state, patch)
    {
      terminal := state;
      terminalReported := true;
      detail := Spread(detail, patch);
    }

    method Note(patch: Patch)
      modifies this
      ensures Value() == old(Value()).Note(patch)
    {
      detail := Spread(detail, patch);
    }
  }
}
