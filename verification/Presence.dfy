/** Which artifacts each terminal state should have produced: src/flow/presence.ts. */
module Presence {
  import opened Lifecycle

  datatype Artifact =
    | RecordJws
    | RequestBinding
    | OriginResultBinding
    | OriginResultBody
    | PaymentRequiredText
    | PaymentSignatureText
    | PaymentResponseText
    | ChainObservation

  const EVIDENCE_ARTIFACTS: seq<Artifact> := [
    RecordJws, RequestBinding, OriginResultBinding, OriginResultBody,
    PaymentRequiredText, PaymentSignatureText, PaymentResponseText, ChainObservation]

  datatype Expectation = Required | Optional | Forbidden

  /** The contract table. */
  function Contract(state: TerminalState, artifact: Artifact): Expectation {
    match artifact
    case RecordJws => Required
    case RequestBinding => Required
    case ChainObservation => Required
    case PaymentRequiredText => Required
    case PaymentSignatureText => if state == PaymentRequiredOnly then Forbidden else Required
    case PaymentResponseText =>
      if state == WriteAttempted then Required else if state == SettlementFailed then Optional else Forbidden
    case OriginResultBinding => OriginResultContract(state)
    case OriginResultBody => OriginResultContract(state)
  }

  /** The result exists exactly when the handler produced one that this run did not discard unseen. */
  function OriginResultContract(state: TerminalState): Expectation {
    if state == WriteAttempted || state == HandlerErrorStatus || state == SettlementFailed then Required else Forbidden
  }

  datatype Violation = Violation(artifact: Artifact, expectation: Expectation, present: bool)

  predicate Violates(state: TerminalState, present: set<Artifact>, artifact: Artifact) {
    || (Contract(state, artifact) == Required && artifact !in present)
    || (Contract(state, artifact) == Forbidden && artifact in present)
  }

  predicate Conforms(state: TerminalState, present: set<Artifact>) {
    forall artifact: Artifact :: !Violates(state, present, artifact)
  }

  lemma EveryArtifactIsListed(artifact: Artifact)
    ensures artifact in EVIDENCE_ARTIFACTS
  {
    var k :=
      match artifact
      case RecordJws => 0
      case RequestBinding => 1
      case OriginResultBinding => 2
      case OriginResultBody => 3
      case PaymentRequiredText => 4
      case PaymentSignatureText => 5
      case PaymentResponseText => 6
      case ChainObservation => 7;
    assert EVIDENCE_ARTIFACTS[k] == artifact;
  }

  /** The violations are exactly the artifacts that are missing though required, or there though forbidden. */
  method CheckPresence(state: TerminalState, present: set<Artifact>) returns (violations: seq<Violation>)
    ensures violations == [] <==> Conforms(state, present)
    ensures forall v | v in violations ::
      Violates(state, present, v.artifact) && v.expectation == Contract(state, v.artifact)
      && (v.present <==> v.artifact in present)
    ensures forall artifact: Artifact | Violates(state, present, artifact) ::
      exists v | v in violations :: v.artifact == artifact
  {
    hide Contract;
    violations := [];
    for i := 0 to |EVIDENCE_ARTIFACTS|
      invariant forall v | v in violations ::
        Violates(state, present, v.artifact) && v.expectation == Contract(state, v.artifact)
        && (v.present <==> v.artifact in present)
      invariant forall k | 0 <= k < i && Violates(state, present, EVIDENCE_ARTIFACTS[k]) ::
        exists v | v in violations :: v.artifact == EVIDENCE_ARTIFACTS[k]
    {
      var artifact := EVIDENCE_ARTIFACTS[i];
      var expectation := Contract(state, artifact);
      var isPresent := artifact in present;
      ghost var before := violations;
      if expectation == Required && !isPresent {
        violations := violations + [Violation(artifact, expectation, false)];
        assert violations[|before|].artifact == artifact;
      }
      if expectation == Forbidden && isPresent {
        violations := violations + [Violation(artifact, expectation, true)];
        assert violations[|before|].artifact == artifact;
      }
      assert forall v | v in before :: v in violations;
    }
    forall artifact: Artifact | Violates(state, present, artifact)
      ensures exists v | v in violations :: v.artifact == artifact
    {
      EveryArtifactIsListed(artifact);
    }
    if violations != [] {
      assert violations[0] in violations;
    }
  }

  /** A conforming artifact set is determined by the state, but for the settlement field of a failed one. */
  lemma StateDeterminesArtifacts(state: TerminalState, a: set<Artifact>, b: set<Artifact>)
    requires Conforms(state, a) && Conforms(state, b)
    requires state == SettlementFailed ==> (PaymentResponseText in a <==> PaymentResponseText in b)
    ensures a == b
  {
    forall artifact: Artifact ensures artifact in a <==> artifact in b {
      assert !Violates(state, a, artifact) && !Violates(state, b, artifact);
    }
  }
}
