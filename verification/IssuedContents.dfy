/** What an issued directory says of the run it was issued for, name by name. */
module IssuedContents {
  import opened Wrappers
  import opened CodeUnits
  import opened Json
  import opened Lifecycle
  import opened Presence
  import opened Jcs
  import opened JsonObjects
  import opened Stringify
  import opened Observation
  import opened Documents
  import opened Evidence
  import opened Acceptance
  import opened Issuance
  import opened IssueThenVerify
  import Components
  import Transfers

  // ---------------------------------------------------------------- the expectation

  /** The text a value holds under a name; none for anything but text. */
  function TextUnder(value: Option<Json>, name: string): Option<Json> {
    if value.Some? && IsText(Under(value.value, name)) then Under(value.value, name) else None
  }

  /** The digest of a value over its canonical text. */
  predicate IsDigestOf(rt: Runtime, value: Option<Json>, of: Json) {
    Canonicalize(of).Some? && value == Stated(rt.hash(rt.encode(Canonicalize(of).value)))
  }

  /** The payment the run accepted: its network, asset, amount and recipient, who authorized it, and the digest of
      the authorization. */
  predicate ExpectationStates(rt: Runtime, run: Run, options: Options, expectation: Json) {
    && ReadsText(Under(expectation, "source"), "native_x402_artifact")
    && Under(expectation, "network") == Stated(run.network)
    && Under(expectation, "asset") == Stated(run.asset)
    && Under(expectation, "amount_base_units") == Stated(run.amount)
    && Under(expectation, "asset_decimals") == Some(Num(Finite(options.assetDecimals)))
    && Under(expectation, "recipient") == Stated(run.payTo)
    && Under(expectation, "payer") == TextUnder(run.authorization, "from")
    && (run.authorization.None? ==> Under(expectation, "authorization_digest").None?)
    && (run.authorization.Some? ==>
          IsDigestOf(rt, Under(expectation, "authorization_digest"), run.authorization.value))
  }

  lemma ExpectationReadUnder(e: PaymentExpectation)
    ensures
      var j := Object(ExpectationParts(e));
      && Under(j, "source") == Stated(ArtifactSource())
      && Under(j, "network") == Stated(e.network) && Under(j, "asset") == Stated(e.asset)
      && Under(j, "amount_base_units") == Stated(e.amount)
      && Under(j, "asset_decimals") == Some(Num(Finite(e.decimals)))
      && Under(j, "recipient") == Stated(e.recipient) && Under(j, "payer") == OptionalText(e.payer)
      && Under(j, "authorization_digest") == OptionalText(e.authorizationDigest)
  {
    hide Under, Object;
    var parts, names := ExpectationParts(e), ["source", "network", "asset", "amount_base_units", "asset_decimals",
      "recipient", "payer", "authorization_digest"];
    AllReadUnder(parts, names);
    hide Named;
    assert Under(Object(parts), names[0]) == parts[0].value && Under(Object(parts), names[1]) == parts[1].value;
    assert Under(Object(parts), names[2]) == parts[2].value && Under(Object(parts), names[3]) == parts[3].value;
    assert Under(Object(parts), names[4]) == parts[4].value && Under(Object(parts), names[5]) == parts[5].value;
    assert Under(Object(parts), names[6]) == parts[6].value && Under(Object(parts), names[7]) == parts[7].value;
  }

  lemma ExpectationIsTheRuns(rt: Runtime, run: Run, options: Options, digest: Option<Text>)
    requires digest == if run.authorization.Some? then DocumentDigest(rt, run.authorization.value) else None
    requires run.authorization.Some? ==> digest.Some?
    ensures ExpectationStates(rt, run, options, Object(ExpectationParts(ExpectationOf(run, options, digest))))
  {
    hide Under, Object, ExpectationParts, Canonicalize, Get, FromKey;
    ExpectationReadUnder(ExpectationOf(run, options, digest));
    SourceSpelled();
    if run.authorization.Some? {
      UnderKey(run.authorization.value, "from", FromKey());
    }
  }

  lemma SourceSpelled()
    ensures Spells(ArtifactSource(), "native_x402_artifact") && Spells(FromKey(), "from")
  {
  }

  // ---------------------------------------------------------------- the settlement report

  /** The response went out, and the client decoded a settlement that succeeded. */
  predicate PaidFor(run: Run) {
    run.terminal == WriteAttempted && run.settle.Some? && run.settle.value.success
  }

  /** A settlement was answered otherwise, or is what failed. */
  predicate TurnedDown(run: Run) {
    !PaidFor(run) && (run.settle.Some? || run.terminal == SettlementFailed)
  }

  function OutcomeWord(run: Run): string {
    if PaidFor(run) then "succeeded" else if TurnedDown(run) then "refused" else "not_reached"
  }

  /** What the settlement reporter said, of a settlement that succeeded its transaction and its network and of no
      other, and who is reported to have paid. */
  predicate ReportStates(run: Run, options: Options, report: Json) {
    && ReadsText(Under(report, "settlement_outcome"), OutcomeWord(run))
    && Under(report, "transaction_hash") ==
         (if PaidFor(run) && run.settle.value.transaction != [] then Stated(run.settle.value.transaction) else None)
    && Under(report, "network_reported") == (if PaidFor(run) then OptionalText(run.settle.value.network) else None)
    && Under(report, "payer_reported") == OptionalText(run.payer)
    && Under(report, "observed_at_unix_seconds") == Some(Num(Finite(options.observedAt)))
    && SourceStates(Under(report, "source"), options.sourceKind, options.sourceReference)
  }

  predicate SourceStates(source: Option<Json>, kind: Text, reference: Text) {
    && source.Some?
    && Under(source.value, "kind") == Stated(kind) && Under(source.value, "reference") == Stated(reference)
  }

  lemma SourceReadUnder(kind: Text, reference: Text)
    ensures SourceStates(Some(Object(SourceParts(kind, reference))), kind, reference)
  {
    hide Under, Object;
    var parts, names := SourceParts(kind, reference), ["kind", "reference"];
    AllReadUnder(parts, names);
    assert Under(Object(parts), names[0]) == parts[0].value && Under(Object(parts), names[1]) == parts[1].value;
  }

  lemma ReportReadUnder(r: SettlementReport)
    ensures
      var j := Object(ReportParts(r));
      && Under(j, "source") == Some(Object(SourceParts(r.sourceKind, r.sourceReference)))
      && Under(j, "settlement_outcome") == Stated(OutcomeText(r.outcome))
      && Under(j, "transaction_hash") == OptionalText(r.transactionHash)
      && Under(j, "network_reported") == OptionalText(r.networkReported)
      && Under(j, "payer_reported") == OptionalText(r.payerReported)
      && Under(j, "observed_at_unix_seconds") == Some(Num(Finite(r.observedAt)))
  {
    hide Under, Object, SourceParts, OutcomeText;
    var parts, names := ReportParts(r), ["source", "settlement_outcome", "transaction_hash", "network_reported",
      "payer_reported", "observed_at_unix_seconds"];
    AllReadUnder(parts, names);
    hide Named;
    assert Under(Object(parts), names[0]) == parts[0].value && Under(Object(parts), names[1]) == parts[1].value;
    assert Under(Object(parts), names[2]) == parts[2].value && Under(Object(parts), names[3]) == parts[3].value;
    assert Under(Object(parts), names[4]) == parts[4].value && Under(Object(parts), names[5]) == parts[5].value;
  }

  lemma OutcomeSpelled(run: Run)
    ensures Spells(OutcomeText(OutcomeOf(run)), OutcomeWord(run))
  {
  }

  lemma ReportIsTheRuns(run: Run, options: Options)
    ensures ReportStates(run, options, Object(ReportParts(ReportOf(run, options))))
  {
    hide Under, Object, ReportParts, SourceParts, OutcomeText, OutcomeWord, Spells;
    ReportReadUnder(ReportOf(run, options));
    OutcomeSpelled(run);
    SourceReadUnder(options.sourceKind, options.sourceReference);
  }

  // ---------------------------------------------------------------- the RPC account

  predicate TransferStates(transfer: Option<Json>, t: Option<Transfers.Transfer>) {
    && (transfer.Some? <==> t.Some?)
    && (t.Some? ==>
          && Under(transfer.value, "token_contract") == Stated(t.value.tokenContract)
          && Under(transfer.value, "transfer_from") == Stated(t.value.transferFrom)
          && Under(transfer.value, "transfer_to") == Stated(t.value.transferTo)
          && Under(transfer.value, "transfer_amount") == Stated(t.value.transferAmount))
  }

  function InclusionUnder(inclusion: Option<Inclusion>): (Option<Json>, Option<Json>) {
    if inclusion.Some? then (Stated(inclusion.value.blockNumber), Stated(inclusion.value.blockHash)) else (None, None)
  }

  /** The account the RPC observer gave, as it gave it. */
  predicate RpcStates(a: RpcAccount, rpc: Json) {
    var o := a.observation;
    && Under(rpc, "transaction_hash") == Stated(o.transactionHash)
    && ReadsText(
         Under(rpc, "observation_state"),
         match o.state case Found => "found" case NotFound => "not_found" case Unavailable => "unavailable")
    && (o.inclusion.Some? ==> ReadsText(Under(rpc, "observation_level"), "l2_block_inclusion"))
    && (o.inclusion.None? ==> Under(rpc, "observation_level").None?)
    && (o.receiptStatus.Some? ==>
          ReadsText(
            Under(rpc, "receipt_status"),
            match o.receiptStatus.value case Success => "success" case Reverted => "reverted"))
    && (o.receiptStatus.None? ==> Under(rpc, "receipt_status").None?)
    && Under(rpc, "transaction_sender") == OptionalText(o.sender)
    && (Under(rpc, "block_number"), Under(rpc, "block_hash")) == InclusionUnder(o.inclusion)
    && TransferStates(Under(rpc, "token_transfer"), o.transfer)
    && Under(rpc, "unavailable_reason") == OptionalText(a.reason)
    && Under(rpc, "statement") == Stated(a.statement)
  }

  lemma TransferReadUnder(t: Transfers.Transfer)
    ensures TransferStates(Some(Object(TransferParts(t))), Some(t))
  {
    hide Under, Object;
    var parts, names := TransferParts(t), ["token_contract", "transfer_from", "transfer_to", "transfer_amount"];
    AllReadUnder(parts, names);
    hide Named;
    assert Under(Object(parts), names[0]) == parts[0].value && Under(Object(parts), names[1]) == parts[1].value;
    assert Under(Object(parts), names[2]) == parts[2].value && Under(Object(parts), names[3]) == parts[3].value;
  }

  lemma RpcReadUnder(a: RpcAccount)
    ensures
      var j, o := Object(RpcParts(a)), a.observation;
      && Under(j, "transaction_hash") == Stated(o.transactionHash)
      && Under(j, "observation_state") == Stated(ObservationStateText(o.state))
      && Under(j, "observation_level") == (if o.inclusion.Some? then Stated(InclusionText()) else None)
      && Under(j, "receipt_status") ==
           (if o.receiptStatus.Some? then Stated(StatusText(o.receiptStatus.value)) else None)
      && Under(j, "transaction_sender") == OptionalText(o.sender)
      && (Under(j, "block_number"), Under(j, "block_hash")) == InclusionUnder(o.inclusion)
      && Under(j, "token_transfer") ==
           (if o.transfer.Some? then Some(Object(TransferParts(o.transfer.value))) else None)
      && Under(j, "unavailable_reason") == OptionalText(a.reason)
      && Under(j, "statement") == Stated(a.statement)
  {
    hide Under, Object, SourceParts, TransferParts, StatusText, ObservationStateText, InclusionText;
    var parts, names := RpcParts(a), RpcMemberNames();
    RpcNamed(a);
    hide Named;
    AllReadUnder(parts, names);
    assert Under(Object(parts), names[1]) == parts[1].value && Under(Object(parts), names[2]) == parts[2].value;
    assert Under(Object(parts), names[3]) == parts[3].value && Under(Object(parts), names[4]) == parts[4].value;
    assert Under(Object(parts), names[5]) == parts[5].value && Under(Object(parts), names[6]) == parts[6].value;
    assert Under(Object(parts), names[7]) == parts[7].value && Under(Object(parts), names[8]) == parts[8].value;
    assert Under(Object(parts), names[9]) == parts[9].value && Under(Object(parts), names[11]) == parts[11].value;
  }

  lemma RpcWordsSpelled()
    ensures Spells(ObservationStateText(Found), "found") && Spells(ObservationStateText(NotFound), "not_found")
    ensures Spells(ObservationStateText(Unavailable), "unavailable")
    ensures Spells(InclusionText(), "l2_block_inclusion")
    ensures Spells(StatusText(Success), "success") && Spells(StatusText(Reverted), "reverted")
  {
  }

  lemma RpcIsTheObservers(a: RpcAccount)
    ensures RpcStates(a, Object(RpcParts(a)))
  {
    hide Under, Object, RpcParts, TransferParts, StatusText, ObservationStateText, InclusionText, Spells;
    RpcReadUnder(a);
    RpcWordsSpelled();
    if a.observation.transfer.Some? {
      TransferReadUnder(a.observation.transfer.value);
    }
  }

  // ---------------------------------------------------------------- the observation

  predicate IsTextDigest(rt: Runtime, value: Option<Json>, of: Option<Text>) {
    value == if of.Some? then Stated(rt.hash(rt.encode(of.value))) else None
  }

  /** Whether an RPC account was asked for a transaction this run paid with. */
  predicate AccountShown(run: Run, options: Options) {
    PaidFor(run) && run.settle.value.transaction != [] && options.rpc.Some?
  }

  /** What the observation document says: the expectation, the report, an RPC account of a payment that succeeded,
      the comparison these give, where the run ended and why a settlement was turned down, and the digests of the
      settlement response and of the result. */
  ghost predicate ObservationStates(rt: Runtime, run: Run, options: Options, doc: Json) {
    var expectation, report := ObjectUnder(doc, "payment_expectation"), ObjectUnder(doc, "chain_observation");
    var rpc, recorded := ObjectUnder(doc, "rpc_observation"), ObjectUnder(doc, "comparison");
    && ReadsText(Under(doc, "profile"), ProfileWord())
    && Under(doc, "scheme") == Stated(run.scheme)
    && expectation.Some? && ExpectationStates(rt, run, options, expectation.value)
    && report.Some? && ReportStates(run, options, report.value)
    && (rpc.Some? <==> AccountShown(run, options))
    && (rpc.Some? ==> RpcStates(options.rpc.value, rpc.value))
    && recorded.Some? && VerdictsMean(expectation.value, report.value, rpc, recorded.value)
    && ReadsText(Under(doc, "terminal_state"), StateWord(run.terminal))
    && Under(doc, "settlement_failure_reason") == (if TurnedDown(run) then OptionalText(run.failureReason) else None)
    && IsTextDigest(rt, Under(doc, "settlement_response_digest"), run.response)
    && Under(doc, "service_result_digest") ==
         (if run.result.Some? then Stated(rt.hash(run.result.value.body)) else None)
  }

  lemma ObservedReadUnder(o: Observed)
    ensures
      var j := ObservedDocument(o);
      && Under(j, "profile") == Stated(ChainObservationProfileText())
      && Under(j, "scheme") == Stated(o.scheme)
      && Under(j, "payment_expectation") == Some(Object(ExpectationParts(o.expectation)))
      && Under(j, "chain_observation") == Some(Object(ReportParts(o.report)))
      && Under(j, "rpc_observation") == (if o.rpc.Some? then Some(Object(RpcParts(o.rpc.value))) else None)
      && Under(j, "comparison") == Some(Object(ComparisonParts(o.comparison)))
      && Under(j, "terminal_state") == Stated(StateText(o.terminal))
      && Under(j, "settlement_failure_reason") == OptionalText(o.failureReason)
      && Under(j, "settlement_response_digest") == OptionalText(o.responseDigest)
      && Under(j, "service_result_digest") == OptionalText(o.resultDigest)
  {
    hide Under, Object, ExpectationParts, ReportParts, RpcParts, ComparisonParts, StateText;
    hide ChainObservationProfileText;
    var parts, names := ObservedParts(o), ObservedMemberNames();
    ObservedNamed(o);
    hide Named;
    AllReadUnder(parts, names);
    assert Under(Object(parts), names[0]) == parts[0].value && Under(Object(parts), names[1]) == parts[1].value;
    assert Under(Object(parts), names[2]) == parts[2].value && Under(Object(parts), names[3]) == parts[3].value;
    assert Under(Object(parts), names[4]) == parts[4].value && Under(Object(parts), names[5]) == parts[5].value;
    assert Under(Object(parts), names[6]) == parts[6].value && Under(Object(parts), names[7]) == parts[7].value;
    assert Under(Object(parts), names[8]) == parts[8].value && Under(Object(parts), names[9]) == parts[9].value;
  }

  /** An object literal found under a name is an object. */
  lemma ObjectFound(j: Json, name: string, parts: seq<Part>)
    requires Under(j, name) == Some(Object(parts))
    ensures ObjectUnder(j, name) == Some(Object(parts))
  {
  }

  lemma ObservedObjects(o: Observed)
    ensures
      var j := ObservedDocument(o);
      && ObjectUnder(j, "payment_expectation") == Some(Object(ExpectationParts(o.expectation)))
      && ObjectUnder(j, "chain_observation") == Some(Object(ReportParts(o.report)))
      && ObjectUnder(j, "rpc_observation") == (if o.rpc.Some? then Some(Object(RpcParts(o.rpc.value))) else None)
      && ObjectUnder(j, "comparison") == Some(Object(ComparisonParts(o.comparison)))
  {
    hide Under, Object, ExpectationParts, ReportParts, RpcParts, ComparisonParts, ObservedDocument;
    ObservedReadUnder(o);
    var j := ObservedDocument(o);
    ObjectFound(j, "payment_expectation", ExpectationParts(o.expectation));
    ObjectFound(j, "chain_observation", ReportParts(o.report));
    if o.rpc.Some? {
      ObjectFound(j, "rpc_observation", RpcParts(o.rpc.value));
    }
    ObjectFound(j, "comparison", ComparisonParts(o.comparison));
  }

  /** The comparison of what a run expected with what was reported is the one the document gives. */
  lemma ComparisonIsTheDocuments(e: PaymentExpectation, report: SettlementReport, rpc: Option<RpcAccount>)
    ensures VerdictsMean(
      Object(ExpectationParts(e)), Object(ReportParts(report)),
      if rpc.Some? then Some(Object(RpcParts(rpc.value))) else None,
      Object(ComparisonParts(ComparisonOf(e, report.networkReported, rpc))))
  {
    hide Under, Object, ExpectationParts, ReportParts, RpcParts, ComparisonParts, ComparisonOf, ComparisonFacts,
      VerdictsMean;
    RunComparison(e, report, rpc);
    ExpectationReadUnder(e);
    FactsMeanVerdicts(
      Object(ExpectationParts(e)), Object(ReportParts(report)),
      if rpc.Some? then Some(Object(RpcParts(rpc.value))) else None,
      Some(Object(ComparisonParts(ComparisonOf(e, report.networkReported, rpc)))));
  }

  lemma ObservationIsTheRuns(
    rt: Runtime, run: Run, options: Options, digest: Option<Text>, responseDigest: Option<Text>,
    resultDigest: Option<Text>)
    requires digest == if run.authorization.Some? then DocumentDigest(rt, run.authorization.value) else None
    requires run.authorization.Some? ==> digest.Some?
    requires responseDigest == OptionalDigest(rt, run.response)
    requires resultDigest == if run.result.Some? then Some(rt.hash(run.result.value.body)) else None
    ensures ObservationStates(
      rt, run, options,
      ObservedDocument(ObserveSettlement(run, options, digest, responseDigest, resultDigest)))
  {
    hide Under, Object, ExpectationParts, ReportParts, RpcParts, ComparisonParts, ObservedDocument, Spells, StateText,
      StateWord, ChainObservationProfileText, ProfileWord, ComparisonOf, ReportOf, ExpectationOf, ExpectationStates,
      ReportStates, RpcStates, VerdictsMean, DocumentDigest, ObjectUnder;
    var o := ObserveSettlement(run, options, digest, responseDigest, resultDigest);
    ObservedReadUnder(o);
    ObservedObjects(o);
    ProfileSpelled();
    StateSpelled(run.terminal);
    ExpectationIsTheRuns(rt, run, options, digest);
    ReportIsTheRuns(run, options);
    ComparisonIsTheDocuments(o.expectation, o.report, o.rpc);
    if o.rpc.Some? {
      RpcIsTheObservers(o.rpc.value);
    }
  }

  // ---------------------------------------------------------------- the bindings

  /** The components of the request that was observed, as it was captured at the origin. */
  predicate ComponentsState(options: Options, components: Option<Json>) {
    var c := options.components;
    && components.Some?
    && Under(components.value, "@method") == Stated(c.verb)
    && ReadsText(
         Under(components.value, "@scheme"), match c.scheme case Http => "http" case Https => "https")
    && Under(components.value, "@authority") == Stated(c.authority)
    && Under(components.value, "@path") == Stated(c.path)
    && Under(components.value, "@query") == Stated(c.query)
  }

  /** The payment field the request carried, by its name and its digest; none when it carried none. */
  predicate HeadersState(rt: Runtime, run: Run, headers: Option<Json>) {
    && headers.Some? && headers.value.Arr?
    && |headers.value.items| == (if run.signature.Some? then 1 else 0)
    && (run.signature.Some? ==>
          && ReadsText(Under(headers.value.items[0], "name"), "payment-signature")
          && IsTextDigest(rt, Under(headers.value.items[0], "observedValueDigest"), run.signature))
  }

  /** The request as it was bound: its components, its body and the payment field it carried. */
  predicate RequestStates(rt: Runtime, run: Run, options: Options, binding: Json) {
    && ComponentsState(options, Under(binding, "components"))
    && Under(binding, "bodyDigest") == Stated(rt.hash(options.requestBody))
    && HeadersState(rt, run, Under(binding, "selectedHeaders"))
  }

  /** The result as it was bound: its status, its content type and its body. */
  predicate ResultStates(rt: Runtime, result: RunBody, binding: Json) {
    && Under(binding, "status") == Some(Num(Finite(result.status)))
    && Under(binding, "contentType") == (if result.contentType == [] then None else Stated(result.contentType))
    && Under(binding, "bodyDigest") == Stated(rt.hash(result.body))
  }

  lemma ComponentsReadUnder(options: Options)
    ensures ComponentsState(options, Some(Object(ComponentParts(options.components))))
  {
    hide Under, Object, Components.SchemeText;
    var parts, names := ComponentParts(options.components), ["@method", "@scheme", "@authority", "@path", "@query",
      "capturePoint", "proxyTrustProfile"];
    AllReadUnder(parts, names);
    hide Named;
    SchemeSpelled(options.components.scheme);
    hide Spells;
    assert Under(Object(parts), names[0]) == parts[0].value && Under(Object(parts), names[1]) == parts[1].value;
    assert Under(Object(parts), names[2]) == parts[2].value && Under(Object(parts), names[3]) == parts[3].value;
    assert Under(Object(parts), names[4]) == parts[4].value;
  }

  lemma SchemeSpelled(scheme: Components.Scheme)
    ensures Spells(
      Components.SchemeText(scheme), match scheme case Http => "http" case Https => "https")
  {
  }

  lemma HeaderReadUnder(digest: Text)
    ensures
      var header := SelectedHeaders(Some(digest)).items[0];
      && ReadsText(Under(header, "name"), "payment-signature")
      && Under(header, "observedValueDigest") == Stated(digest)
  {
    hide Under, Object;
    var parts, names := HeaderParts(SignatureField(), digest), ["name", "observedValueDigest"];
    AllReadUnder(parts, names);
    assert Under(Object(parts), names[0]) == parts[0].value && Under(Object(parts), names[1]) == parts[1].value;
    assert Spells(SignatureField(), "payment-signature");
  }

  lemma RequestIsTheRuns(rt: Runtime, run: Run, options: Options)
    ensures RequestStates(
      rt, run, options,
      BuildRequestBinding(options.components, rt.hash(options.requestBody), OptionalDigest(rt, run.signature)))
  {
    hide Under, Object, ComponentParts, ReadsText, ComponentsState, Components.SchemeText, SelectedHeaders;
    var parts := RequestBindingParts(
      options.components, rt.hash(options.requestBody), OptionalDigest(rt, run.signature));
    var names := ["profile", "components", "bodyDigest", "selectedHeaders"];
    AllReadUnder(parts, names);
    hide Named;
    assert Under(Object(parts), names[1]) == parts[1].value && Under(Object(parts), names[2]) == parts[2].value;
    assert Under(Object(parts), names[3]) == parts[3].value;
    ComponentsReadUnder(options);
    HeadersAreTheRuns(rt, run);
  }

  lemma HeadersAreTheRuns(rt: Runtime, run: Run)
    ensures HeadersState(rt, run, Some(SelectedHeaders(OptionalDigest(rt, run.signature))))
  {
    hide Under, Object;
    if run.signature.Some? {
      HeaderReadUnder(OptionalDigest(rt, run.signature).value);
    }
  }

  lemma ResultIsTheRuns(rt: Runtime, result: RunBody)
    ensures ResultStates(
      rt, result, BuildOriginResultBinding(result.status, result.contentType, rt.hash(result.body)))
  {
    hide Under, Object;
    var parts := OriginResultParts(result.status, result.contentType, rt.hash(result.body));
    var names := ["profile", "status", "contentType", "bodyDigest", "capturePoint"];
    AllReadUnder(parts, names);
    hide Named;
    assert Under(Object(parts), names[1]) == parts[1].value && Under(Object(parts), names[2]) == parts[2].value;
    assert Under(Object(parts), names[3]) == parts[3].value;
  }

  // ---------------------------------------------------------------- the record

  /** The registered group: the rail, the payment's amount and asset, the caller's labels, and that a settlement took
      place only where the run was paid for. */
  predicate CommerceStates(run: Run, options: Options, commerce: Json) {
    && ReadsText(Under(commerce, "payment_rail"), "x402")
    && Under(commerce, "amount_minor") == Stated(run.amount)
    && Under(commerce, "asset") == Stated(run.asset)
    && Under(commerce, "currency") == Stated(options.currency)
    && Under(commerce, "env") == Stated(options.environment)
    && Under(commerce, "reference") == OptionalText(options.reference)
    && (PaidFor(run) ==> ReadsText(Under(commerce, "event"), "settlement"))
    && (!PaidFor(run) ==> Under(commerce, "event").None?)
  }

  /** The example's own group: where the run ended and by which states, the payment's network, and the digests of the
      field values. */
  predicate GroupStates(rt: Runtime, run: Run, evidence: Json) {
    && ReadsText(Under(evidence, "terminal_state"), StateWord(run.terminal))
    && Under(evidence, "lifecycle_states") == Some(Strings(run.states))
    && Under(evidence, "network") == Stated(run.network)
    && IsTextDigest(rt, Under(evidence, "payment_required_digest"), Some(run.required))
    && IsTextDigest(rt, Under(evidence, "payment_signature_digest"), run.signature)
    && IsTextDigest(rt, Under(evidence, "payment_response_digest"), run.response)
  }

  lemma CommerceWords()
    ensures Spells(RailText(), "x402") && Spells(EventText(), "settlement")
  {
  }

  lemma CommerceIsTheRuns(i: Inputs, run: Run, options: Options)
    requires i.observation.expectation.amount == run.amount && i.observation.expectation.asset == run.asset
    requires i.currency == options.currency && i.environment == options.environment && i.reference == options.reference
    requires i.observation.report.outcome == SettlementSucceeded <==> PaidFor(run)
    ensures CommerceStates(run, options, Object(CommerceParts(i)))
  {
    hide Under, Object, RailText, EventText, PaidFor;
    var parts, names := CommerceParts(i), ["payment_rail", "amount_minor", "currency", "asset", "env", "reference",
      "event"];
    AllReadUnder(parts, names);
    hide Named;
    CommerceWords();
    hide Spells;
    assert Under(Object(parts), names[0]) == parts[0].value && Under(Object(parts), names[1]) == parts[1].value;
    assert Under(Object(parts), names[2]) == parts[2].value && Under(Object(parts), names[3]) == parts[3].value;
    assert Under(Object(parts), names[4]) == parts[4].value && Under(Object(parts), names[5]) == parts[5].value;
    assert Under(Object(parts), names[6]) == parts[6].value;
  }

  lemma EvidenceReadUnder(rt: Runtime, i: Inputs, d: Digests)
    ensures
      var j := Object(EvidenceParts(rt, i, d));
      && Under(j, "terminal_state") == Stated(StateText(i.terminal))
      && Under(j, "lifecycle_states") == Some(Strings(i.states))
      && Under(j, "network") == Stated(i.observation.expectation.network)
      && Under(j, "request_binding_digest") == Stated(d.request)
      && Under(j, "origin_result_binding_digest") == OptionalText(d.result)
      && Under(j, "payment_required_digest") == Stated(TextDigest(rt, i.required))
      && Under(j, "payment_signature_digest") == OptionalText(OptionalDigest(rt, i.signature))
      && Under(j, "payment_response_digest") == OptionalText(OptionalDigest(rt, i.response))
      && Under(j, "chain_observation_digest") == Stated(d.observation)
  {
    hide Under, Object, StateText, TextDigest, OptionalDigest, Strings;
    var parts, names := EvidenceParts(rt, i, d), ["terminal_state", "lifecycle_states", "network",
      "request_binding_digest", "origin_result_binding_digest", "payment_required_digest", "payment_signature_digest",
      "payment_response_digest", "chain_observation_digest"];
    AllReadUnder(parts, names);
    hide Named;
    assert Under(Object(parts), names[0]) == parts[0].value && Under(Object(parts), names[1]) == parts[1].value;
    assert Under(Object(parts), names[2]) == parts[2].value && Under(Object(parts), names[3]) == parts[3].value;
    assert Under(Object(parts), names[4]) == parts[4].value && Under(Object(parts), names[5]) == parts[5].value;
    assert Under(Object(parts), names[6]) == parts[6].value && Under(Object(parts), names[7]) == parts[7].value;
    assert Under(Object(parts), names[8]) == parts[8].value;
  }

  // ---------------------------------------------------------------- the whole directory

  /** A document of the directory: the file that holds it, written out, and the digest of it under this name in the
      record's own group. */
  predicate IssuedAs(rt: Runtime, layout: Layout, artifact: Artifact, name: string, doc: Json) {
    && Plain(doc)
    && artifact in layout.files && layout.files[artifact] == rt.encode(DocumentText(doc))
    && layout.claims.evidence.Some?
    && IsDigestOf(rt, Under(layout.claims.evidence.value, name), doc)
  }

  /** A field value's own file: its bytes when there was one, and no file otherwise. */
  predicate HeldAs(rt: Runtime, files: Files, artifact: Artifact, value: Option<Text>) {
    && (artifact in files <==> value.Some?)
    && (value.Some? ==> files[artifact] == rt.encode(value.value))
  }

  /** What the record says, and the files that are not documents. */
  predicate RecordStates(rt: Runtime, issuer: Issuer, run: Run, options: Options, layout: Layout) {
    var Layout(claims, files) := layout;
    && claims.issuer == Stated(issuer.iss) && ReadsText(claims.recordType, "org.peacprotocol/payment")
    && claims.commerce.Some? && CommerceStates(run, options, claims.commerce.value)
    && claims.evidence.Some? && GroupStates(rt, run, claims.evidence.value)
    && HeldAs(rt, files, RecordJws, Some(issuer.sign(claims) + [NEWLINE]))
    && HeldAs(rt, files, PaymentRequiredText, Some(run.required))
    && HeldAs(rt, files, PaymentSignatureText, run.signature)
    && HeldAs(rt, files, PaymentResponseText, run.response)
    && (OriginResultBody in files <==> run.result.Some?)
    && (run.result.Some? ==> files[OriginResultBody] == run.result.value.body)
  }

  /** The documents: a request binding and an observation always, a result binding when there was a result. */
  ghost predicate DocumentsState(rt: Runtime, run: Run, options: Options, layout: Layout) {
    && (exists request ::
          IssuedAs(rt, layout, RequestBinding, "request_binding_digest", request)
          && RequestStates(rt, run, options, request))
    && (exists doc ::
          IssuedAs(rt, layout, ChainObservation, "chain_observation_digest", doc)
          && ObservationStates(rt, run, options, doc))
    && (run.result.None? ==> OriginResultBinding !in layout.files)
    && (run.result.Some? ==>
          exists result ::
            IssuedAs(rt, layout, OriginResultBinding, "origin_result_binding_digest", result)
            && ResultStates(rt, run.result.value, result))
  }

  /** The inputs come from this run. */
  predicate InputsFit(rt: Runtime, run: Run, options: Options, i: Inputs) {
    InputsOf(rt, run, options) == Some(i)
  }

  /** The directory was issued from these inputs. */
  ghost predicate IssuedFrom(rt: Runtime, issuer: Issuer, i: Inputs, layout: Layout) {
    && DocumentsPlain(i) && DigestsOf(rt, i).Some?
    && layout.claims == ClaimsOf(rt, issuer, i, DigestsOf(rt, i).value)
    && FilesAre(rt, issuer, i, layout)
  }

  lemma RecordIsTheRuns(rt: Runtime, issuer: Issuer, run: Run, options: Options, i: Inputs, layout: Layout)
    requires InputsFit(rt, run, options, i) && IssuedFrom(rt, issuer, i, layout)
    ensures RecordStates(rt, issuer, run, options, layout)
  {
    hide Under, Object, CommerceParts, EvidenceParts, Plain, DocumentText, DocumentBytes, ObservedDocument, StateText,
      StateWord, DigestsOf, CommerceStates, Strings, ComparisonOf, BuildRequestBinding, BuildOriginResultBinding,
      DocumentDigest, Spells;
    CommerceIsTheRuns(i, run, options);
    EvidenceReadUnder(rt, i, DigestsOf(rt, i).value);
    StateSpelled(run.terminal);
    TypeSpelled();
  }

  lemma TypeSpelled()
    ensures Spells(PaymentRecordType(), "org.peacprotocol/payment")
  {
  }

  lemma IssuedDocumentAs(rt: Runtime, layout: Layout, artifact: Artifact, name: string, doc: Json)
    requires Plain(doc) && artifact in layout.files && layout.files[artifact] == DocumentBytes(rt, doc)
    requires layout.claims.evidence.Some? && DocumentDigest(rt, doc).Some?
    requires Under(layout.claims.evidence.value, name) == Stated(DocumentDigest(rt, doc).value)
    ensures IssuedAs(rt, layout, artifact, name, doc)
  {
    hide Plain, DocumentText, Canonicalize, Under;
  }

  /** Each document is in its file and bound under its name. */
  lemma DocumentsAreIssued(rt: Runtime, issuer: Issuer, i: Inputs, layout: Layout)
    requires IssuedFrom(rt, issuer, i, layout)
    ensures IssuedAs(rt, layout, RequestBinding, "request_binding_digest", i.requestBinding)
    ensures IssuedAs(rt, layout, ChainObservation, "chain_observation_digest", ObservedDocument(i.observation))
    ensures OriginResultBinding in layout.files <==> i.resultBinding.Some?
    ensures i.resultBinding.Some? ==>
      IssuedAs(rt, layout, OriginResultBinding, "origin_result_binding_digest", i.resultBinding.value)
  {
    hide Under, Object, EvidenceParts, CommerceParts, Plain, DocumentBytes, ObservedDocument, DocumentDigest, IssuedAs,
      TextDigest, StateText, Strings;
    var d := DigestsOf(rt, i).value;
    EvidenceReadUnder(rt, i, d);
    IssuedDocumentAs(rt, layout, RequestBinding, "request_binding_digest", i.requestBinding);
    IssuedDocumentAs(rt, layout, ChainObservation, "chain_observation_digest", ObservedDocument(i.observation));
    if i.resultBinding.Some? {
      IssuedDocumentAs(rt, layout, OriginResultBinding, "origin_result_binding_digest", i.resultBinding.value);
    }
  }

  /** The documents the inputs hold say what the run was. */
  lemma InputsState(rt: Runtime, run: Run, options: Options, i: Inputs)
    requires InputsFit(rt, run, options, i)
    ensures RequestStates(rt, run, options, i.requestBinding)
    ensures ObservationStates(rt, run, options, ObservedDocument(i.observation))
    ensures i.resultBinding.Some? <==> run.result.Some?
    ensures run.result.Some? ==> ResultStates(rt, run.result.value, i.resultBinding.value)
  {
    hide ObserveSettlement, BuildRequestBinding, BuildOriginResultBinding, ObservedDocument, RequestStates,
      ObservationStates, ResultStates, OptionalDigest, DocumentDigest;
    var digest := if run.authorization.Some? then DocumentDigest(rt, run.authorization.value) else None;
    RequestIsTheRuns(rt, run, options);
    ObservationIsTheRuns(
      rt, run, options, digest, OptionalDigest(rt, run.response),
      if run.result.Some? then Some(rt.hash(run.result.value.body)) else None);
    if run.result.Some? {
      ResultIsTheRuns(rt, run.result.value);
    }
  }

  lemma DocumentsAreTheRuns(rt: Runtime, issuer: Issuer, run: Run, options: Options, i: Inputs, layout: Layout)
    requires InputsFit(rt, run, options, i) && IssuedFrom(rt, issuer, i, layout)
    ensures DocumentsState(rt, run, options, layout)
  {
    hide InputsFit, IssuedFrom, IssuedAs, RequestStates, ObservationStates, ResultStates, ObservedDocument;
    DocumentsAreIssued(rt, issuer, i, layout);
    InputsState(rt, run, options, i);
  }

  /** What the directory of a run says is what the run was: its record, its two or three documents and its other
      files, each by the run's own values. */
  method BuildEvidence(rt: Runtime, issuer: Issuer, run: Run, options: Options) returns (layout: Option<Layout>)
    ensures layout.Some? ==>
      && InputsOf(rt, run, options).Some?
      && var i := InputsOf(rt, run, options).value;
      && DocumentsPlain(i) && DigestsOf(rt, i).Some?
      && layout.value.claims == ClaimsOf(rt, issuer, i, DigestsOf(rt, i).value)
      && FilesAre(rt, issuer, i, layout.value)
    ensures layout.Some? ==>
      RecordStates(rt, issuer, run, options, layout.value) && DocumentsState(rt, run, options, layout.value)
    ensures layout.None? ==>
      || InputsOf(rt, run, options).None?
      || !DocumentsPlain(InputsOf(rt, run, options).value) || DigestsOf(rt, InputsOf(rt, run, options).value).None?
  {
    hide DocumentsPlain, DigestsOf, ClaimsOf, FilesAre, InputsOf, RecordStates, DocumentsState;
    var inputs := InputsOf(rt, run, options);
    if inputs.None? {
      return None;
    }
    layout := IssueEvidence(rt, issuer, inputs.value);
    if layout.Some? {
      RecordIsTheRuns(rt, issuer, run, options, inputs.value, layout.value);
      DocumentsAreTheRuns(rt, issuer, run, options, inputs.value, layout.value);
    }
  }
}
