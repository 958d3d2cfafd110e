/** Honest evidence is accepted: whatever one run's evidence was issued as verifies, in every integrity, structure
    and consistency check. */
module IssueThenVerify {
  import opened Wrappers
  import opened CodeUnits
  import opened Json
  import opened Lifecycle
  import opened Presence
  import opened Scanning
  import opened StrictJson
  import opened Jcs
  import opened JsonObjects
  import opened Stringify
  import opened Observation
  import opened Documents
  import opened Evidence
  import opened Issuance

  /** The text this document is written as decodes to itself and parses as the document. */
  predicate SurvivesWriting(rt: Runtime, j: Json)
    requires Plain(j)
  {
    var text := DocumentText(j);
    rt.decode(rt.encode(text)) == Some(text) && rt.parse(text) == Some(j)
  }

  /** The record signed over these claims verifies, as a record of these claims. */
  predicate SurvivesSigning(rt: Runtime, issuer: Issuer, claims: Claims) {
    var text := rt.decode(rt.encode(issuer.sign(claims) + [NEWLINE]));
    text.Some? && rt.verifyRecord(text.value) == Some(Verified(issuer.kid, claims))
  }

  /** What is relied on of the runtime and the issuer's key, for what is issued and nothing else: each of the
      documents written can be read back, and the one record signed verifies. */
  predicate Reliable(rt: Runtime, issuer: Issuer, i: Inputs, claims: Claims) {
    && DocumentsPlain(i)
    && SurvivesWriting(rt, i.requestBinding)
    && SurvivesWriting(rt, ObservedDocument(i.observation))
    && (i.resultBinding.Some? ==> SurvivesWriting(rt, i.resultBinding.value))
    && SurvivesSigning(rt, issuer, claims)
  }

  /** What a run leaves behind when its handler returned and its verified payment got an answer: the result and the
      settlement field are there in the states that have them, a successful settlement names its transaction, and
      an RPC account is about that one. */
  predicate Answered(run: Run, options: Options) {
    && (run.signature.Some? <==> run.terminal != PaymentRequiredOnly)
    && (run.result.Some? <==> OriginResultContract(run.terminal) == Required)
    && (run.terminal == WriteAttempted ==> run.response.Some?)
    && (run.terminal != WriteAttempted && run.terminal != SettlementFailed ==> run.response.None?)
    && (Settled(run) ==> run.settle.value.transaction != [])
    && (Settled(run) && options.rpc.Some? ==>
          options.rpc.value.observation.transactionHash == run.settle.value.transaction)
    && run.scheme == ObservedScheme()
  }

  /** The committed schemas take the documents this run produced. */
  predicate SchemasTake(rt: Runtime, i: Inputs) {
    && rt.schemaOk(RequestBinding, i.requestBinding)
    && (i.resultBinding.Some? ==> rt.schemaOk(OriginResultBinding, i.resultBinding.value))
    && rt.schemaOk(ChainObservation, ObservedDocument(i.observation))
  }

  // ---------------------------------------------------------------- reading back what was written

  lemma IssuedDocument(rt: Runtime, files: Files, artifact: Artifact, j: Json)
    requires Plain(j) && SurvivesWriting(rt, j) && Shaped(j, 3)
    requires artifact in files && files[artifact] == DocumentBytes(rt, j)
    ensures ReadOf(rt, files, artifact) == Admitted(j)
  {
    hide Plain, Distinct, DocumentText, ScanText, Nesting;
    DocumentsAreAdmitted(j, MAX_DEPTH);
  }

  lemma RecordReads(rt: Runtime, issuer: Issuer, i: Inputs, layout: Layout)
    requires Reliable(rt, issuer, i, layout.claims) && FilesAre(rt, issuer, i, layout)
    ensures RecordIn(rt, layout.files) == Some(Verified(issuer.kid, layout.claims))
  {
    hide Plain, DocumentText, SurvivesWriting;
    FileOfRecord(rt, issuer, i, layout);
  }

  lemma FileOfRecord(rt: Runtime, issuer: Issuer, i: Inputs, layout: Layout)
    requires DocumentsPlain(i) && FilesAre(rt, issuer, i, layout)
    ensures RecordJws in layout.files
    ensures layout.files[RecordJws] == rt.encode(issuer.sign(layout.claims) + [NEWLINE])
  {
    hide Plain, DocumentBytes;
  }

  lemma EvidenceNames(rt: Runtime, i: Inputs, d: Digests)
    ensures DistinctNames(EvidenceParts(rt, i, d))
  {
    hide DistinctNames, StateText, TextDigest;
    NamedApart(EvidenceParts(rt, i, d), ["terminal_state", "lifecycle_states", "network", "request_binding_digest",
      "origin_result_binding_digest", "payment_required_digest", "payment_signature_digest",
      "payment_response_digest", "chain_observation_digest"]);
  }

  lemma EvidenceReads(rt: Runtime, i: Inputs, d: Digests)
    ensures
      var j := Object(EvidenceParts(rt, i, d));
      && Get(j, TerminalStateKey()) == Stated(StateText(i.terminal))
      && Get(j, NetworkKey()) == Stated(i.observation.expectation.network)
      && Get(j, RequestBindingDigestKey()) == Stated(d.request)
      && Get(j, OriginResultBindingDigestKey()) == OptionalText(d.result)
      && Get(j, PaymentRequiredDigestKey()) == Stated(TextDigest(rt, i.required))
      && Get(j, PaymentSignatureDigestKey()) == OptionalText(OptionalDigest(rt, i.signature))
      && Get(j, PaymentResponseDigestKey()) == OptionalText(OptionalDigest(rt, i.response))
      && Get(j, ChainObservationDigestKey()) == Stated(d.observation)
  {
    hide DistinctNames, StateText, TextDigest, OptionalDigest, Members, Get;
    EvidenceNames(rt, i, d);
    var parts := EvidenceParts(rt, i, d);
    ReadsBack(parts, 0);
    ReadsBack(parts, 2);
    ReadsBack(parts, 3);
    ReadsBack(parts, 4);
    ReadsBack(parts, 5);
    ReadsBack(parts, 6);
    ReadsBack(parts, 7);
    ReadsBack(parts, 8);
  }

  lemma CommerceReads(i: Inputs)
    ensures
      var j := Object(CommerceParts(i));
      && Get(j, AmountMinorKey()) == Stated(i.observation.expectation.amount)
      && Get(j, AssetKey()) == Stated(i.observation.expectation.asset)
  {
    hide DistinctNames, Members, Get;
    var parts := CommerceParts(i);
    NamedApart(parts, ["payment_rail", "amount_minor", "currency", "asset", "env", "reference", "event"]);
    ReadsBack(parts, 1);
    ReadsBack(parts, 3);
  }

  lemma StateReads(state: TerminalState)
    ensures StateOf(Stated(StateText(state))) == Some(state)
  {
    var texts := [
      StateText(WriteAttempted), StateText(RejectedPreVerification), StateText(VerificationRefused),
      StateText(HandlerErrorStatus), StateText(SettlementFailed), StateText(PaymentRequiredOnly)];
    assert |texts[0]| == 24 && |texts[1]| == 33 && |texts[2]| == 21 && |texts[3]| == 20 && |texts[4]| == 17;
    assert |texts[5]| == 21 && texts[5][0] != texts[2][0];
  }

  // ---------------------------------------------------------------- integrity

  /** The three documents an issuance writes. */
  predicate Shapes(i: Inputs) {
    && Shaped(i.requestBinding, 3) && Shaped(ObservedDocument(i.observation), 3)
    && (i.resultBinding.Some? ==> Shaped(i.resultBinding.value, 3))
  }

  ghost predicate Issued(rt: Runtime, issuer: Issuer, i: Inputs, layout: Layout) {
    && DocumentsPlain(i) && Shapes(i) && DigestsOf(rt, i).Some?
    && layout.claims == ClaimsOf(rt, issuer, i, DigestsOf(rt, i).value)
    && FilesAre(rt, issuer, i, layout)
  }

  lemma ReadsIssued(rt: Runtime, issuer: Issuer, i: Inputs, layout: Layout)
    requires Reliable(rt, issuer, i, layout.claims) && Issued(rt, issuer, i, layout)
    ensures ReadOf(rt, layout.files, RequestBinding) == Admitted(i.requestBinding)
    ensures ReadOf(rt, layout.files, ChainObservation) == Admitted(ObservedDocument(i.observation))
    ensures ReadOf(rt, layout.files, OriginResultBinding) ==
      if i.resultBinding.Some? then Admitted(i.resultBinding.value) else Missing
  {
    hide Plain, Shaped, ObservedDocument, DocumentBytes, SurvivesWriting, SurvivesSigning, DigestsOf, ClaimsOf;
    IssuedDocument(rt, layout.files, RequestBinding, i.requestBinding);
    IssuedDocument(rt, layout.files, ChainObservation, ObservedDocument(i.observation));
    if i.resultBinding.Some? {
      IssuedDocument(rt, layout.files, OriginResultBinding, i.resultBinding.value);
    }
  }

  lemma IssuedDocumentsBound(rt: Runtime, issuer: Issuer, i: Inputs, layout: Layout)
    requires Reliable(rt, issuer, i, layout.claims) && Issued(rt, issuer, i, layout)
    ensures
      var evidence := layout.claims.evidence.value;
      && JsonBound(rt, layout.files, RequestBinding, Get(evidence, RequestBindingDigestKey()))
      && JsonBound(rt, layout.files, OriginResultBinding, Get(evidence, OriginResultBindingDigestKey()))
      && JsonBound(rt, layout.files, ChainObservation, Get(evidence, ChainObservationDigestKey()))
  {
    hide Get, ReadOf, DocumentDigest, EvidenceParts, CommerceParts, Reliable, ObservedDocument, Plain,
      DocumentBytes;
    var d := DigestsOf(rt, i).value;
    EvidenceReads(rt, i, d);
    ReadsIssued(rt, issuer, i, layout);
  }

  lemma IssuedBytesBound(rt: Runtime, issuer: Issuer, i: Inputs, layout: Layout)
    requires Issued(rt, issuer, i, layout)
    ensures
      var evidence := layout.claims.evidence.value;
      && BytesBound(rt, layout.files, PaymentRequiredText, Get(evidence, PaymentRequiredDigestKey()))
      && BytesBound(rt, layout.files, PaymentSignatureText, Get(evidence, PaymentSignatureDigestKey()))
      && BytesBound(rt, layout.files, PaymentResponseText, Get(evidence, PaymentResponseDigestKey()))
  {
    hide Get, EvidenceParts, CommerceParts, ObservedDocument, Plain, DocumentBytes, DigestsOf, Shapes;
    EvidenceReads(rt, i, DigestsOf(rt, i).value);
  }

  /** The result body and its binding come from one result. */
  predicate ResultFits(rt: Runtime, i: Inputs) {
    && (i.resultBinding.Some? <==> i.resultBody.Some?)
    && (i.resultBinding.Some? ==>
          && i.resultBinding.value.Obj?
          && Get(i.resultBinding.value, BodyDigestKey()) == Stated(rt.hash(i.resultBody.value)))
  }

  lemma IssuedIntegrity(rt: Runtime, issuer: Issuer, i: Inputs, layout: Layout)
    requires Reliable(rt, issuer, i, layout.claims) && Issued(rt, issuer, i, layout)
    requires ResultFits(rt, i) && SchemasTake(rt, i)
    ensures IntegrityHolds(rt, layout.files, layout.claims.evidence.value) && SchemasHold(rt, layout.files)
  {
    hide Get, ReadOf, JsonBound, BytesBound, Reliable, ObservedDocument, DocumentsPlain, Shapes, DigestsOf, FilesAre;
    IssuedDocumentsBound(rt, issuer, i, layout);
    IssuedBytesBound(rt, issuer, i, layout);
    ReadsIssued(rt, issuer, i, layout);
    BodyFile(rt, issuer, i, layout);
  }

  lemma BodyFile(rt: Runtime, issuer: Issuer, i: Inputs, layout: Layout)
    requires Issued(rt, issuer, i, layout)
    ensures OriginResultBody in layout.files <==> i.resultBody.Some?
    ensures i.resultBody.Some? ==> layout.files[OriginResultBody] == i.resultBody.value
  {
    hide Plain, DocumentBytes, DigestsOf, ClaimsOf, Shapes;
  }

  // ---------------------------------------------------------------- one run

  lemma RunShapes(rt: Runtime, run: Run, options: Options)
    requires InputsOf(rt, run, options).Some?
    ensures
      var i := InputsOf(rt, run, options).value;
      Shapes(i) && ResultFits(rt, i)
  {
    hide Shaped, ObservedDocument, BuildRequestBinding, BuildOriginResultBinding, ObserveSettlement, Get,
      DocumentDigest;
    var i := InputsOf(rt, run, options).value;
    RequestBindingShaped(options.components, rt.hash(options.requestBody), OptionalDigest(rt, run.signature));
    ObservedShaped(i.observation);
    if run.result.Some? {
      var result := run.result.value;
      OriginResultShaped(result.status, result.contentType, rt.hash(result.body));
      ShapedWithin(BuildOriginResultBinding(result.status, result.contentType, rt.hash(result.body)), 1, 3);
      IsObject(result.status, result.contentType, rt.hash(result.body));
    }
  }

  lemma ShapedWithin(j: Json, depth: nat, more: nat)
    requires Shaped(j, depth) && depth <= more
    ensures Shaped(j, more)
  {
  }

  lemma IsObject(status: NumberText, contentType: Text, bodyDigest: Text)
    ensures BuildOriginResultBinding(status, contentType, bodyDigest).Obj?
  {
  }

  /** The artifact set a run leaves is the one its terminal state calls for. */
  lemma RunConforms(rt: Runtime, issuer: Issuer, run: Run, options: Options, layout: Layout)
    requires InputsOf(rt, run, options).Some? && Issued(rt, issuer, InputsOf(rt, run, options).value, layout)
    requires Answered(run, options)
    ensures Conforms(run.terminal, layout.files.Keys)
  {
    hide Plain, DocumentBytes, DigestsOf, ClaimsOf, Shapes, ObserveSettlement, BuildRequestBinding;
    hide BuildOriginResultBinding, ObservedDocument;
  }

  /** The report names a transaction exactly when it says the settlement succeeded. */
  lemma RunSettlementFacts(run: Run, options: Options)
    requires Answered(run, options)
    ensures SettlementFacts(Object(ReportParts(ReportOf(run, options))))
  {
    hide Get, ReportParts;
    ReportReads(ReportOf(run, options));
    OutcomesApart(OutcomeOf(run));
  }

  lemma OutcomesApart(outcome: SettlementOutcome)
    ensures OutcomeText(outcome) == OutcomeText(SettlementSucceeded) <==> outcome == SettlementSucceeded
  {
    assert |Lit("succeeded")| == 9 && |Lit("refused")| == 7 && |Lit("not_reached")| == 11;
  }

  lemma RunRpcFacts(run: Run, options: Options)
    requires Answered(run, options) && RpcOf(run, options).Some?
    ensures RpcFacts(Object(ReportParts(ReportOf(run, options))), Object(RpcParts(RpcOf(run, options).value)))
  {
    hide Get, ReportParts, RpcParts, OutcomeText;
    ReportReads(ReportOf(run, options));
    RpcReads(RpcOf(run, options).value);
  }

  /** The verifier recomputes the comparison the writer recorded. */
  lemma RunComparison(e: PaymentExpectation, report: SettlementReport, rpc: Option<RpcAccount>)
    ensures
      var c := ComparisonOf(e, report.networkReported, rpc);
      ComparisonFacts(
        Object(ExpectationParts(e)), Object(ReportParts(report)),
        if rpc.Some? then Some(Object(RpcParts(rpc.value))) else None, Some(Object(ComparisonParts(c))))
  {
    hide Get, ExpectationParts, ReportParts, RpcParts, ComparisonParts, TermsStated, TermsIn, Records, OutcomeText;
    var c := ComparisonOf(e, report.networkReported, rpc);
    ExpectationReads(e);
    ReportReads(report);
    ComparisonRecords(c);
    TypedComparisonIsDefined(e, report.networkReported, rpc);
    if rpc.Some? {
      hide RpcViewIn, RpcViewOf;
      RpcReads(rpc.value);
      StatusReads(rpc.value);
      EvaluatedWithReceipt(TermsStated(e), OptionalText(report.networkReported), RpcViewOf(rpc.value.observation));
    }
  }

  lemma StatusReads(a: RpcAccount)
    ensures IsText(Get(Object(RpcParts(a)), ReceiptStatusKey())) ==> RpcViewOf(a.observation).receiptStatus.Some?
  {
    hide Get, RpcParts, StatusText;
    RpcReads(a);
    assert RpcViewIn(Object(RpcParts(a))).receiptStatus == Get(Object(RpcParts(a)), ReceiptStatusKey());
  }

  lemma EvaluatedWithReceipt(terms: Terms, network: Option<Json>, rpc: RpcView)
    requires Compare(terms, network, Some(rpc)).Some?
    ensures rpc.receiptStatus.Some? ==> Compare(terms, network, Some(rpc)).value.transferEvent != NotEvaluated
  {
    hide WholeTransferMatches;
  }

  lemma ObjectIsObj(parts: seq<Part>)
    ensures Object(parts).Obj?
  {
  }

  /** The parts an observation document is read by. */
  lemma ObservedSections(o: Observed)
    ensures
      var doc := ObservedDocument(o);
      && doc.Obj?
      && ObjectAt(doc, PaymentExpectationKey()) == Some(Object(ExpectationParts(o.expectation)))
      && ObjectAt(doc, ChainObservationKey()) == Some(Object(ReportParts(o.report)))
      && ObjectAt(doc, RpcObservationKey()) == (if o.rpc.Some? then Some(Object(RpcParts(o.rpc.value))) else None)
      && ObjectAt(doc, ComparisonKey()) == Some(Object(ComparisonParts(o.comparison)))
  {
    hide Get, ExpectationParts, ReportParts, RpcParts, ComparisonParts, Object, Members;
    ObservedReads(o);
    ObjectIsObj(ObservedParts(o));
    ObjectIsObj(ExpectationParts(o.expectation));
    ObjectIsObj(ReportParts(o.report));
    ObjectIsObj(ComparisonParts(o.comparison));
    if o.rpc.Some? {
      ObjectIsObj(RpcParts(o.rpc.value));
    }
  }

  /** Record and observation state the same things. */
  lemma RunAgrees(rt: Runtime, i: Inputs, d: Digests)
    requires i.observation.terminal == i.terminal && i.observation.responseDigest == OptionalDigest(rt, i.response)
    ensures DocumentsAgree(
      Object(CommerceParts(i)), Object(EvidenceParts(rt, i, d)),
      Object(ExpectationParts(i.observation.expectation)), ObservedDocument(i.observation))
  {
    hide Get, CommerceParts, EvidenceParts, ExpectationParts, StateText, OptionalDigest, ObservedDocument;
    EvidenceReads(rt, i, d);
    CommerceReads(i);
    ObservedReads(i.observation);
    ExpectationReadsTerms(i.observation.expectation);
  }

  lemma ExpectationReadsTerms(e: PaymentExpectation)
    ensures
      var j := Object(ExpectationParts(e));
      && Get(j, NetworkKey()) == Stated(e.network)
      && Get(j, AssetKey()) == Stated(e.asset)
      && Get(j, AmountBaseUnitsKey()) == Stated(e.amount)
  {
    hide Get, ExpectationParts;
    ExpectationReads(e);
    assert TermsIn(Object(ExpectationParts(e))) == TermsStated(e);
  }

  lemma RunResultAgrees(rt: Runtime, i: Inputs)
    requires ResultFits(rt, i)
    requires i.observation.resultDigest == if i.resultBody.Some? then Some(rt.hash(i.resultBody.value)) else None
    ensures ResultAgrees(
      if i.resultBinding.Some? then Admitted(i.resultBinding.value) else Missing, ObservedDocument(i.observation))
  {
    hide Get, ObservedDocument;
    ObservedReads(i.observation);
  }

  lemma RunHead(o: Observed)
    requires o.scheme == ObservedScheme()
    ensures HeadHolds(ObservedDocument(o))
  {
    hide Get, ObservedDocument, ChainObservationProfileText, ObservedScheme;
    ObservedReads(o);
  }

  /** Everything the verifier checks inside the observation holds of one that a run produced. */
  lemma RunDocumentHolds(rt: Runtime, run: Run, options: Options, d: Digests)
    requires InputsOf(rt, run, options).Some? && Answered(run, options)
    ensures
      var i := InputsOf(rt, run, options).value;
      DocumentHolds(
        Object(CommerceParts(i)), Object(EvidenceParts(rt, i, d)),
        if i.resultBinding.Some? then Admitted(i.resultBinding.value) else Missing, ObservedDocument(i.observation))
  {
    hide *;
    var i := InputsOf(rt, run, options).value;
    RunSchemeIsExact(rt, run, options);
    RunHead(i.observation);
    ObservedSections(i.observation);
    RunPartsHold(rt, run, options, d);
    DocumentHoldsWhen(
      Object(CommerceParts(i)), Object(EvidenceParts(rt, i, d)),
      if i.resultBinding.Some? then Admitted(i.resultBinding.value) else Missing, ObservedDocument(i.observation));
  }

  lemma RunSchemeIsExact(rt: Runtime, run: Run, options: Options)
    requires InputsOf(rt, run, options).Some? && Answered(run, options)
    ensures InputsOf(rt, run, options).value.observation.scheme == ObservedScheme()
  {
    hide InputsOf, ObservedScheme;
    RunObservation(rt, run, options);
  }

  lemma RunPartsHold(rt: Runtime, run: Run, options: Options, d: Digests)
    requires InputsOf(rt, run, options).Some? && Answered(run, options)
    ensures
      var i := InputsOf(rt, run, options).value;
      var o := i.observation;
      PartsHold(
        Object(CommerceParts(i)), Object(EvidenceParts(rt, i, d)),
        if i.resultBinding.Some? then Admitted(i.resultBinding.value) else Missing,
        ObservedDocument(o), Object(ExpectationParts(o.expectation)), Object(ReportParts(o.report)),
        if o.rpc.Some? then Some(Object(RpcParts(o.rpc.value))) else None)
  {
    hide InputsOf, ResultFits, Shapes, ComparisonOf, ReportOf, RpcOf, Answered, SettlementFacts, RpcFacts;
    hide ComparisonFacts, DocumentsAgree, ResultAgrees, ObjectAt, ObservedDocument, Object, CommerceParts,
      EvidenceParts;
    hide ExpectationParts, ReportParts, RpcParts, ComparisonParts;
    var i := InputsOf(rt, run, options).value;
    var o := i.observation;
    RunShapes(rt, run, options);
    RunObservation(rt, run, options);
    RunSettlementFacts(run, options);
    if RpcOf(run, options).Some? {
      RunRpcFacts(run, options);
    }
    RunComparison(o.expectation, o.report, o.rpc);
    RunAgrees(rt, i, d);
    RunResultAgrees(rt, i);
    ObservedSections(o);
  }

  lemma RunObservation(rt: Runtime, run: Run, options: Options)
    requires InputsOf(rt, run, options).Some?
    ensures
      var i := InputsOf(rt, run, options).value;
      var o := i.observation;
      && o.report == ReportOf(run, options) && o.rpc == RpcOf(run, options)
      && o.comparison == ComparisonOf(o.expectation, o.report.networkReported, o.rpc)
      && o.scheme == run.scheme && o.terminal == i.terminal == run.terminal
      && o.responseDigest == OptionalDigest(rt, i.response)
      && o.resultDigest == (if i.resultBody.Some? then Some(rt.hash(i.resultBody.value)) else None)
  {
    hide ComparisonOf, ReportOf, RpcOf, BuildRequestBinding, BuildOriginResultBinding, DocumentDigest;
  }

  lemma ClaimsAre(rt: Runtime, issuer: Issuer, i: Inputs, d: Digests)
    ensures
      var claims := ClaimsOf(rt, issuer, i, d);
      && claims.recordType == Stated(PaymentRecordType())
      && claims.commerce == Some(Object(CommerceParts(i))) && claims.evidence == Some(Object(EvidenceParts(rt, i, d)))
  {
  }

  /** Issue, then verify: the record verifies, and everything it and the files say is consistent. */
  lemma IssuedEvidenceIsConsistent(rt: Runtime, issuer: Issuer, run: Run, options: Options, layout: Layout)
    requires Answered(run, options)
    requires InputsOf(rt, run, options).Some?
    requires
      var i := InputsOf(rt, run, options).value;
      && Reliable(rt, issuer, i, layout.claims) && DigestsOf(rt, i).Some? && SchemasTake(rt, i)
      && layout.claims == ClaimsOf(rt, issuer, i, DigestsOf(rt, i).value) && FilesAre(rt, issuer, i, layout)
    ensures RecordIn(rt, layout.files) == Some(Verified(issuer.kid, layout.claims))
    ensures Consistent(rt, layout.files, layout.claims)
  {
    hide SurvivesWriting, SurvivesSigning, Answered, DocumentsPlain, DigestsOf, SchemasTake, FilesAre, InputsOf,
      ClaimsOf;
    hide IntegrityHolds, SchemasHold, DocumentHolds, ReadOf, Get, Conforms, RecordIn, Object, ObservedDocument, Shapes;
    hide ResultFits, StateText, StateOf;
    var i := InputsOf(rt, run, options).value;
    var d := DigestsOf(rt, i).value;
    RecordReads(rt, issuer, i, layout);
    RunShapes(rt, run, options);
    ClaimsAre(rt, issuer, i, d);
    IssuedIntegrity(rt, issuer, i, layout);
    ReadsIssued(rt, issuer, i, layout);
    RunObservation(rt, run, options);
    EvidenceReads(rt, i, d);
    StateReads(run.terminal);
    RunConforms(rt, issuer, run, options, layout);
    RunDocumentHolds(rt, run, options, d);
    ObservedSections(i.observation);
  }

  /** A directory holding exactly the issued files. */
  predicate Written(dir: Directory, files: Files) {
    && !dir.containerRefused
    && forall a: Artifact :: dir.read(a) == if a in files then Holds(files[a]) else Absent
  }

  lemma WrittenReads(dir: Directory, files: Files)
    requires Written(dir, files)
    ensures FilesIn(dir) == files
  {
    forall a: Artifact ensures a in FilesIn(dir) <==> a in files {
      EveryArtifactIsListed(a);
    }
  }

  /** The directory a run's evidence was written to is accepted, unless its captured native artifacts disagree. */
  lemma IssuedEvidenceVerifies(
    rt: Runtime, issuer: Issuer, run: Run, options: Options, layout: Layout, dir: Directory, key: Option<SuppliedKey>)
    requires Answered(run, options) && Written(dir, layout.files)
    requires InputsOf(rt, run, options).Some?
    requires
      var i := InputsOf(rt, run, options).value;
      && Reliable(rt, issuer, i, layout.claims) && DigestsOf(rt, i).Some? && SchemasTake(rt, i)
      && layout.claims == ClaimsOf(rt, issuer, i, DigestsOf(rt, i).value) && FilesAre(rt, issuer, i, layout)
    requires KeyAgrees(key, Verified(issuer.kid, layout.claims))
    ensures Accepts(rt, dir, key) <==> NativeAgrees(rt, dir, layout.claims)
  {
    hide SurvivesWriting, SurvivesSigning, Answered, DocumentsPlain, DigestsOf, SchemasTake, FilesAre, InputsOf,
      ClaimsOf;
    hide Consistent, RecordIn, NativeAgrees, KeyAgrees, FilesIn;
    IssuedEvidenceIsConsistent(rt, issuer, run, options, layout);
    WrittenReads(dir, layout.files);
  }
}
