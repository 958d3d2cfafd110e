/** `verifyEvidence` itself: it reads every artifact, pushes its checks in order and returns early where the source
    does. A report has no failed check exactly when the directory is one the rules accept. */
module Verifier {
  import opened Wrappers
  import opened CodeUnits
  import opened Json
  import opened Lifecycle
  import opened Presence
  import opened Scanning
  import opened StrictJson
  import opened Jcs
  import opened Observation
  import opened Documents
  import opened Evidence

  lemma AllOkJoin(a: seq<Check>, b: seq<Check>)
    ensures AllOk(a + b) <==> AllOk(a) && AllOk(b)
  {
    assert forall i | 0 <= i < |a| :: (a + b)[i] == a[i];
    assert forall i | 0 <= i < |b| :: (a + b)[|a| + i] == b[i];
  }

  lemma AllOkPushed(a: seq<Check>, check: Check)
    ensures AllOk(a + [check]) <==> AllOk(a) && check.ok
  {
    AllOkJoin(a, [check]);
  }

  /** Reads every artifact once. What cannot be read is never taken for absent. */
  method ReadArtifacts(dir: Directory) returns (present: Files, unreadable: seq<Artifact>)
    ensures present == FilesIn(dir)
    ensures unreadable == [] <==> forall a | a in EVIDENCE_ARTIFACTS :: !dir.read(a).Unreadable?
  {
    present, unreadable := map[], [];
    for i := 0 to |EVIDENCE_ARTIFACTS|
      invariant forall a :: a in present <==> a in EVIDENCE_ARTIFACTS[..i] && dir.read(a).Holds?
      invariant forall a | a in present :: present[a] == dir.read(a).bytes
      invariant unreadable == [] <==> forall k | 0 <= k < i :: !dir.read(EVIDENCE_ARTIFACTS[k]).Unreadable?
    {
      var artifact := EVIDENCE_ARTIFACTS[i];
      assert EVIDENCE_ARTIFACTS[..i + 1] == EVIDENCE_ARTIFACTS[..i] + [artifact];
      var read := dir.read(artifact);
      if read.Holds? {
        present := present[artifact := read.bytes];
      } else if read.Unreadable? {
        unreadable := unreadable + [artifact];
      }
    }
    assert EVIDENCE_ARTIFACTS[..|EVIDENCE_ARTIFACTS|] == EVIDENCE_ARTIFACTS;
  }

  /** Admits one sidecar. */
  method ReadJsonArtifact(rt: Runtime, files: Files, artifact: Artifact) returns (read: DocumentRead)
    ensures read == ReadOf(rt, files, artifact)
  {
    hide StrictRead;
    if artifact !in files {
      return Missing;
    }
    var admitted := ParseStrictJson(rt.decode, rt.parse, files[artifact]);
    match admitted {
      case Parsed(value) => return Admitted(value);
      case Refused(refusal) => return NotAdmitted(refusal);
    }
  }

  /** Recomputes one bound digest from the document beside the record; none when the document has none. */
  method RecomputeJson(
    rt: Runtime, files: Files, name: string, artifact: Artifact, claimed: Option<Json>, read: DocumentRead)
    returns (check: Option<Check>)
    requires read == ReadOf(rt, files, artifact)
    ensures check.None? <==> JsonThrows(rt, files, artifact, claimed)
    ensures check.None? ==> !JsonBound(rt, files, artifact, claimed)
    ensures check.Some? ==> (check.value.ok <==> JsonBound(rt, files, artifact, claimed))
  {
    hide StrictRead, DocumentDigest;
    if claimed.None? {
      return Some(Check(name, Integrity, artifact !in files));
    }
    if !read.Admitted? {
      return Some(Check(name, Integrity, false));
    }
    var recomputed := DocumentDigest(rt, read.value);
    if recomputed.None? {
      return None;
    }
    return Some(Check(name, Integrity, claimed.value == Str(recomputed.value)));
  }

  /** Holds one admitted sidecar to its committed schema; one that was not admitted has already failed. */
  method CheckLocalProfile(rt: Runtime, files: Files, name: string, artifact: Artifact, read: DocumentRead)
    returns (checks: seq<Check>)
    requires read == ReadOf(rt, files, artifact)
    ensures AllOk(checks) <==> FollowsSchema(rt, files, artifact)
  {
    hide StrictRead;
    if !read.Admitted? {
      return [];
    }
    return [Check(name, Structure, rt.schemaOk(artifact, read.value))];
  }

  method RecomputeObserved(rt: Runtime, files: Files, name: string, artifact: Artifact, claimed: Option<Json>)
    returns (check: Check)
    ensures check.ok <==> BytesBound(rt, files, artifact, claimed)
  {
    if claimed.None? {
      return Check(name, Integrity, artifact !in files);
    }
    if artifact !in files {
      return Check(name, Integrity, false);
    }
    var recomputed := rt.hash(files[artifact]);
    return Check(name, Integrity, claimed.value == Str(recomputed));
  }

  /** Checks the body against the digest inside the result binding. */
  method CheckBody(rt: Runtime, files: Files, binding: DocumentRead) returns (checks: seq<Check>)
    requires binding == ReadOf(rt, files, OriginResultBinding)
    ensures AllOk(checks) <==> BodyBound(rt, files)
  {
    hide StrictRead, Get;
    if binding.Missing? {
      return [];
    }
    if binding.NotAdmitted? || !binding.value.Obj? || OriginResultBody !in files {
      return [Check("result body", Integrity, false)];
    }
    var boundBodyDigest := Get(binding.value, BodyDigestKey());
    var recomputed := rt.hash(files[OriginResultBody]);
    return [Check("result body", Integrity, boundBodyDigest == Stated(recomputed))];
  }

  method CheckSuppliedKey(supplied: Option<SuppliedKey>, record: Verified) returns (checks: seq<Check>)
    ensures AllOk(checks) <==> KeyAgrees(supplied, record)
  {
    if supplied.None? {
      return [];
    }
    var key := supplied.value;
    checks := [
      Check("key algorithm", Integrity, key.algorithm == PublicKeyAlgorithm()),
      Check("key identifier", Integrity, key.kid == record.kid),
      Check("key issuer", Integrity, Stated(key.issuer) == record.claims.issuer)];
    assert AllOk(checks) <==> checks[0].ok && checks[1].ok && checks[2].ok;
  }

  /** One sidecar's digest and schema checks. */
  method CheckSidecar(
    rt: Runtime, files: Files, digestName: string, profileName: string, artifact: Artifact, claimed: Option<Json>,
    read: DocumentRead)
    returns (checks: Option<seq<Check>>)
    requires read == ReadOf(rt, files, artifact)
    ensures checks.None? <==> JsonThrows(rt, files, artifact, claimed)
    ensures checks.None? ==> !JsonBound(rt, files, artifact, claimed)
    ensures checks.Some? ==>
      (AllOk(checks.value) <==> JsonBound(rt, files, artifact, claimed) && FollowsSchema(rt, files, artifact))
  {
    hide ReadOf, JsonBound, JsonThrows, FollowsSchema, AllOk;
    var digest := RecomputeJson(rt, files, digestName, artifact, claimed, read);
    if digest.None? {
      return None;
    }
    var profile := CheckLocalProfile(rt, files, profileName, artifact, read);
    AllOkJoin([digest.value], profile);
    AllOkPushed([], digest.value);
    NoChecks();
    assert [] + [digest.value] == [digest.value];
    return Some([digest.value] + profile);
  }

  lemma NoChecks()
    ensures AllOk([])
  {
  }

  /** Every digest the record binds, each document's schema, and the body. */
  method CheckIntegrity(rt: Runtime, files: Files, evidence: Json, binding: DocumentRead, observation: DocumentRead)
    returns (checks: Option<seq<Check>>)
    requires binding == ReadOf(rt, files, OriginResultBinding)
    requires observation == ReadOf(rt, files, ChainObservation)
    ensures checks.None? <==> IntegrityThrows(rt, files, evidence)
    ensures checks.None? ==> !IntegrityHolds(rt, files, evidence)
    ensures checks.Some? ==>
      (AllOk(checks.value) <==> IntegrityHolds(rt, files, evidence) && SchemasHold(rt, files))
  {
    hide ReadOf, JsonBound, JsonThrows, FollowsSchema, BytesBound, BodyBound, AllOk, Get;
    var request := ReadJsonArtifact(rt, files, RequestBinding);
    var first := CheckSidecar(rt, files, "request digest", "request schema",
      RequestBinding, Get(evidence, RequestBindingDigestKey()), request);
    if first.None? {
      return None;
    }
    var second := CheckSidecar(rt, files, "result digest", "result schema",
      OriginResultBinding, Get(evidence, OriginResultBindingDigestKey()), binding);
    if second.None? {
      return None;
    }
    var third := CheckSidecar(rt, files, "chain digest", "chain schema",
      ChainObservation, Get(evidence, ChainObservationDigestKey()), observation);
    if third.None? {
      return None;
    }
    var required := RecomputeObserved(rt, files, "payment-required", PaymentRequiredText,
      Get(evidence, PaymentRequiredDigestKey()));
    var signature := RecomputeObserved(rt, files, "payment-signature", PaymentSignatureText,
      Get(evidence, PaymentSignatureDigestKey()));
    var response := RecomputeObserved(rt, files, "payment-response", PaymentResponseText,
      Get(evidence, PaymentResponseDigestKey()));
    var body := CheckBody(rt, files, binding);
    var all := first.value + second.value + third.value;
    AllOkJoin(first.value, second.value);
    AllOkJoin(first.value + second.value, third.value);
    AllOkPushed(all, required);
    AllOkPushed(all + [required], signature);
    AllOkPushed(all + [required] + [signature], response);
    AllOkJoin(all + [required] + [signature] + [response], body);
    return Some(all + [required] + [signature] + [response] + body);
  }

  /** The comparison recomputed from the rest of the document; none when computing it throws. */
  method CheckComparison(expectation: Json, report: Json, rpc: Option<Json>, recorded: Option<Json>)
    returns (checks: Option<seq<Check>>)
    ensures checks.None? <==> ComparisonThrows(expectation, report, rpc, recorded)
    ensures checks.None? ==> !ComparisonFacts(expectation, report, rpc, recorded)
    ensures checks.Some? ==> (AllOk(checks.value) <==> ComparisonFacts(expectation, report, rpc, recorded))
  {
    hide CompareIn, Records, Get;
    if recorded.None? {
      var failed := [Check("comparison", Consistency, false)];
      assert !failed[0].ok;
      return Some(failed);
    }
    var recomputed := CompareIn(expectation, report, rpc);
    if recomputed.None? {
      return None;
    }
    var agrees := RecordedVerdictsAgree(recorded.value, recomputed.value);
    var pushed := [Check("comparison", Consistency, agrees)];
    assert AllOk(pushed) <==> pushed[0].ok;
    if rpc.Some? && IsText(Get(rpc.value, ReceiptStatusKey())) {
      var evaluated :=
        Check("transfer event", Consistency, recomputed.value.transferEvent != NotEvaluated);
      AllOkPushed(pushed, evaluated);
      pushed := pushed + [evaluated];
    }
    return Some(pushed);
  }

  method RecordedVerdictsAgree(recorded: Json, c: Comparison) returns (agree: bool)
    ensures agree <==> Records(recorded, c)
  {
    hide Get;
    var entries := ComparisonParts(c);
    for i := 0 to |entries|
      invariant forall k | 0 <= k < i :: Get(recorded, entries[k].name) == entries[k].value
    {
      if Get(recorded, entries[i].name) != entries[i].value {
        return false;
      }
    }
    return true;
  }

  /** What the observation says of itself, and what it and the record say twice. */
  method CheckDocument(commerce: Json, evidence: Json, binding: DocumentRead, doc: Json)
    returns (checks: Option<seq<Check>>, complete: bool)
    ensures checks.None? <==> DocumentThrows(doc)
    ensures checks.None? ==> !DocumentHolds(commerce, evidence, binding, doc)
    ensures checks.Some? && !complete ==> !AllOk(checks.value) && !DocumentHolds(commerce, evidence, binding, doc)
    ensures checks.Some? && complete ==> (AllOk(checks.value) <==> DocumentHolds(commerce, evidence, binding, doc))
  {
    hide *;
    DocumentHoldsWhen(commerce, evidence, binding, doc);
    DocumentThrowsWhen(doc);
    var expectation, report := ObjectAt(doc, PaymentExpectationKey()), ObjectAt(doc, ChainObservationKey());
    var heads := CheckHead(doc, expectation.Some? && report.Some?);
    if expectation.None? || report.None? {
      return Some(heads), false;
    }
    var rpc := ObjectAt(doc, RpcObservationKey());
    var parts := CheckParts(commerce, evidence, binding, doc, expectation.value, report.value, rpc);
    if parts.None? {
      return None, false;
    }
    AllOkJoin(heads, parts.value);
    return Some(heads + parts.value), true;
  }

  method CheckParts(
    commerce: Json, evidence: Json, binding: DocumentRead, doc: Json, expectation: Json, report: Json,
    rpc: Option<Json>)
    returns (checks: Option<seq<Check>>)
    ensures checks.None? <==> ComparisonThrows(expectation, report, rpc, ObjectAt(doc, ComparisonKey()))
    ensures checks.None? ==> !PartsHold(commerce, evidence, binding, doc, expectation, report, rpc)
    ensures checks.Some? ==>
      (AllOk(checks.value) <==> PartsHold(commerce, evidence, binding, doc, expectation, report, rpc))
  {
    hide AllOk, ComparisonFacts, ComparisonThrows, RpcFacts, SettlementFacts, ObjectAt, DocumentsAgree, ResultAgrees;
    var facts := CheckFacts(report, rpc);
    var comparison := CheckComparison(expectation, report, rpc, ObjectAt(doc, ComparisonKey()));
    if comparison.None? {
      return None;
    }
    var agreement := CheckAgreement(commerce, evidence, expectation, doc);
    var result := CheckResult(binding, doc);
    AllOkJoin(facts, comparison.value);
    AllOkJoin(facts + comparison.value, agreement);
    AllOkJoin(facts + comparison.value + agreement, result);
    return Some(facts + comparison.value + agreement + result);
  }

  method CheckHead(doc: Json, attributed: bool) returns (checks: seq<Check>)
    ensures AllOk(checks) <==> HeadHolds(doc) && attributed
  {
    hide Get;
    checks := [
      Check("chain profile", Structure, Get(doc, ProfileKey()) == Stated(ChainObservationProfileText())),
      Check("chain scheme", Structure, Get(doc, SchemeKey()) == Stated(ObservedScheme())),
      Check("attribution", Structure, attributed)];
    assert AllOk(checks) <==> checks[0].ok && checks[1].ok && checks[2].ok;
  }

  method CheckFacts(report: Json, rpc: Option<Json>) returns (checks: seq<Check>)
    ensures AllOk(checks) <==> SettlementFacts(report) && (rpc.Some? ==> RpcFacts(report, rpc.value))
  {
    hide Get, OutcomeText;
    var settled := Get(report, SettlementOutcomeKey()) == Stated(OutcomeText(SettlementSucceeded));
    var hasTransaction := IsText(Get(report, TransactionHashKey()));
    checks := [Check("settlement facts", Structure, settled == hasTransaction)];
    assert AllOk(checks) <==> checks[0].ok;
    if rpc.Some? {
      var sameTransaction :=
        hasTransaction && Get(rpc.value, TransactionHashKey()) == Get(report, TransactionHashKey());
      var claimsInclusion := Get(rpc.value, ObservationLevelKey()) == Stated(InclusionText());
      var based := IsText(Get(rpc.value, BlockNumberKey())) && IsText(Get(rpc.value, BlockHashKey()));
      checks := [
        checks[0],
        Check("rpc transaction", Structure, sameTransaction),
        Check("rpc basis", Structure, !claimsInclusion || based)];
      assert AllOk(checks) <==> checks[0].ok && checks[1].ok && checks[2].ok;
    }
  }

  method CheckAgreement(commerce: Json, evidence: Json, expectation: Json, doc: Json) returns (checks: seq<Check>)
    ensures AllOk(checks) <==> DocumentsAgree(commerce, evidence, expectation, doc)
  {
    hide AllOk, AgreeOnValue, AgreeOnDigest, Get;
    NoChecks();
    checks := PushAgreement([], "same network", Get(evidence, NetworkKey()), Get(expectation, NetworkKey()));
    checks := PushAgreement(checks, "same state", Get(evidence, TerminalStateKey()), Get(doc, TerminalStateKey()));
    checks := PushAgreement(checks, "same asset", Get(commerce, AssetKey()), Get(expectation, AssetKey()));
    checks := PushAgreement(checks, "same amount",
      Get(commerce, AmountMinorKey()), Get(expectation, AmountBaseUnitsKey()));
    var response := Check("same response", Consistency,
      AgreeOnDigest(Get(evidence, PaymentResponseDigestKey()), Get(doc, SettlementResponseDigestKey())));
    AllOkPushed(checks, response);
    checks := checks + [response];
  }

  /** `agreeOnValue`. */
  method PushAgreement(before: seq<Check>, name: string, recorded: Option<Json>, observed: Option<Json>)
    returns (checks: seq<Check>)
    ensures AllOk(checks) <==> AllOk(before) && AgreeOnValue(recorded, observed)
  {
    hide AllOk;
    var check := Check(name, Consistency, IsText(recorded) && IsText(observed) && recorded == observed);
    AllOkPushed(before, check);
    return before + [check];
  }

  /** The origin result as the binding and the observation name it. */
  method CheckResult(binding: DocumentRead, doc: Json) returns (checks: seq<Check>)
    ensures AllOk(checks) <==> ResultAgrees(binding, doc)
  {
    hide Get, AgreeOnDigest;
    checks := [];
    if !binding.NotAdmitted? {
      var boundBodyDigest := if binding.Admitted? then Get(binding.value, BodyDigestKey()) else None;
      if binding.Missing? || boundBodyDigest.Some? {
        checks := [Check("same result", Consistency,
          AgreeOnDigest(boundBodyDigest, Get(doc, ServiceResultDigestKey())))];
        assert AllOk(checks) <==> checks[0].ok;
      }
    }
  }

  /** Verifies an evidence directory: nothing is decided from what could not be read, and nothing is trusted
      before the record that names it. */
  method VerifyEvidence(rt: Runtime, dir: Directory, supplied: Option<SuppliedKey>) returns (report: VerificationReport)
    ensures report.Aborted? <==> Throws(rt, dir)
    ensures IsOk(report) <==> Accepts(rt, dir, supplied)
  {
    hide AllOk, Consistent, ClaimsThrow, KeyAgrees, NativeAgrees, FilesIn;
    RefusalsFail();
    if dir.containerRefused {
      return Refusal("directories", Structure);
    }
    var present, unreadable := ReadArtifacts(dir);
    if unreadable != [] {
      return Refusal("readable", Structure);
    }
    if RecordJws !in present {
      return Refusal("record present", Structure);
    }
    var recordText := rt.decode(present[RecordJws]);
    if recordText.None? {
      return Refusal("record signature", Integrity);
    }
    var verified := rt.verifyRecord(recordText.value);
    if verified.None? {
      return Refusal("record signature", Integrity);
    }
    var checks := [Check("record signature", Integrity, true)];
    var key := CheckSuppliedKey(supplied, verified.value);
    AllOkJoin(checks, key);
    OneCheck(checks[0]);
    report := VerifyClaims(rt, dir, present, verified.value.claims, checks + key);
  }

  lemma OneCheck(check: Check)
    ensures AllOk([check]) <==> check.ok
  {
  }

  lemma RefusalsFail()
    ensures forall name, category :: !IsOk(Refusal(name, category))
  {
    forall name, category ensures !IsOk(Refusal(name, category)) {
      var report := Refusal(name, category);
      assert !report.checks[0].ok;
    }
  }

  /** Everything after the record: its type and groups, the bound files, the presence contract, the observation. */
  method VerifyClaims(rt: Runtime, dir: Directory, files: Files, claims: Claims, before: seq<Check>)
    returns (report: VerificationReport)
    requires files == FilesIn(dir)
    ensures report.Aborted? <==> ClaimsThrow(rt, files, claims)
    ensures IsOk(report) <==> AllOk(before) && Consistent(rt, files, claims) && NativeAgrees(rt, dir, claims)
  {
    hide AllOk, IntegrityHolds, IntegrityThrows, SchemasHold, Conforms, DocumentHolds, DocumentThrows,
      ReadOf, Get, FilesIn;
    var typed := Check("record type", Structure, claims.recordType == Stated(PaymentRecordType()));
    AllOkPushed(before, typed);
    var checks := before + [typed];
    if claims.commerce.None? || claims.evidence.None? {
      AllOkPushed(checks, Check("extension groups", Structure, false));
      return Reported(checks + [Check("extension groups", Structure, false)]);
    }
    var evidence := claims.evidence.value;
    AllOkPushed(checks, Check("extension groups", Structure, true));
    checks := checks + [Check("extension groups", Structure, true)];
    var binding := ReadJsonArtifact(rt, files, OriginResultBinding);
    var observation := ReadJsonArtifact(rt, files, ChainObservation);
    var integrity := CheckIntegrity(rt, files, evidence, binding, observation);
    if integrity.None? {
      return Aborted;
    }
    AllOkJoin(checks, integrity.value);
    checks := checks + integrity.value;
    var state := StateOf(Get(evidence, TerminalStateKey()));
    if state.None? {
      AllOkPushed(checks, Check("terminal state", Structure, false));
      return Reported(checks + [Check("terminal state", Structure, false)]);
    }
    var violations := CheckPresence(state.value, files.Keys);
    AllOkPushed(checks, Check("presence", Structure, violations == []));
    checks := checks + [Check("presence", Structure, violations == [])];
    NotAdmittedIsUnbound(rt, files, evidence);
    report := VerifyObservation(rt, dir, files, claims, state.value, binding, observation, checks);
  }

  /** A sidecar that was refused has failed its digest check already. */
  lemma NotAdmittedIsUnbound(rt: Runtime, files: Files, evidence: Json)
    ensures ReadOf(rt, files, ChainObservation).NotAdmitted? ==> !IntegrityHolds(rt, files, evidence)
  {
    hide StrictRead, Get;
  }

  method VerifyObservation(
    rt: Runtime, dir: Directory, files: Files, claims: Claims, state: TerminalState, binding: DocumentRead,
    observation: DocumentRead, before: seq<Check>)
    returns (report: VerificationReport)
    requires files == FilesIn(dir) && claims.commerce.Some? && claims.evidence.Some?
    requires StateOf(Get(claims.evidence.value, TerminalStateKey())) == Some(state)
    requires observation == ReadOf(rt, files, ChainObservation)
    requires observation.NotAdmitted? ==> !AllOk(before)
    ensures report.Aborted? <==> observation.Admitted? && observation.value.Obj? && DocumentThrows(observation.value)
    ensures IsOk(report) <==>
      && AllOk(before)
      && (observation.Admitted? ==>
            && observation.value.Obj?
            && DocumentHolds(claims.commerce.value, claims.evidence.value, binding, observation.value))
      && NativeAgrees(rt, dir, claims)
  {
    hide AllOk, DocumentHolds, DocumentThrows, ReadOf, Get, FilesIn;
    if observation.Missing? {
      return Reported(before);
    }
    if observation.NotAdmitted? || !observation.value.Obj? {
      AllOkPushed(before, Check("chain observation", Structure, false));
      return Reported(before + [Check("chain observation", Structure, false)]);
    }
    var document, complete :=
      CheckDocument(claims.commerce.value, claims.evidence.value, binding, observation.value);
    if document.None? {
      return Aborted;
    }
    AllOkJoin(before, document.value);
    var checks := before + document.value;
    if !complete {
      return Reported(checks);
    }
    var native := Check("native", Native, rt.nativeOk(dir, claims, observation.value, state));
    AllOkPushed(checks, native);
    return Reported(checks + [native]);
  }
}
