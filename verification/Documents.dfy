/** The sidecar documents: src/binding.ts, src/flow/observe-settlement.ts and src/flow/observe-transaction.ts,
    member by member in the order they are written. */
module Documents {
  import opened Wrappers
  import opened CodeUnits
  import opened Json
  import opened Lifecycle
  import opened Jcs
  import opened JsonObjects
  import opened Observation
  import Components
  import Transfers

  function ProfileKey(): Text { Lit("profile") }
  function ComponentsKey(): Text { Lit("components") }
  function ContentTypeKey(): Text { Lit("contentType") }
  function BodyDigestKey(): Text { Lit("bodyDigest") }
  function SelectedHeadersKey(): Text { Lit("selectedHeaders") }
  function StatusKey(): Text { Lit("status") }
  function CapturePointKey(): Text { Lit("capturePoint") }
  function SourceKey(): Text { Lit("source") }
  function NetworkKey(): Text { Lit("network") }
  function AssetKey(): Text { Lit("asset") }
  function AmountBaseUnitsKey(): Text { Lit("amount_base_units") }
  function AssetDecimalsKey(): Text { Lit("asset_decimals") }
  function RecipientKey(): Text { Lit("recipient") }
  function PayerKey(): Text { Lit("payer") }
  function AuthorizationDigestKey(): Text { Lit("authorization_digest") }
  function SettlementOutcomeKey(): Text { Lit("settlement_outcome") }
  function TransactionHashKey(): Text { Lit("transaction_hash") }
  function NetworkReportedKey(): Text { Lit("network_reported") }
  function PayerReportedKey(): Text { Lit("payer_reported") }
  function ObservedAtKey(): Text { Lit("observed_at_unix_seconds") }
  function ObservationStateKey(): Text { Lit("observation_state") }
  function ObservationLevelKey(): Text { Lit("observation_level") }
  function ReceiptStatusKey(): Text { Lit("receipt_status") }
  function TransactionSenderKey(): Text { Lit("transaction_sender") }
  function BlockNumberKey(): Text { Lit("block_number") }
  function BlockHashKey(): Text { Lit("block_hash") }
  function TokenTransferKey(): Text { Lit("token_transfer") }
  function UnavailableReasonKey(): Text { Lit("unavailable_reason") }
  function StatementKey(): Text { Lit("statement") }
  function TokenContractKey(): Text { Lit("token_contract") }
  function TransferFromKey(): Text { Lit("transfer_from") }
  function TransferToKey(): Text { Lit("transfer_to") }
  function TransferAmountKey(): Text { Lit("transfer_amount") }
  function AmountKey(): Text { Lit("amount") }
  function AuthorizationKey(): Text { Lit("authorization") }
  function TransferEventKey(): Text { Lit("transfer_event") }
  function SchemeKey(): Text { Lit("scheme") }
  function PaymentExpectationKey(): Text { Lit("payment_expectation") }
  function ChainObservationKey(): Text { Lit("chain_observation") }
  function RpcObservationKey(): Text { Lit("rpc_observation") }
  function ComparisonKey(): Text { Lit("comparison") }
  function TerminalStateKey(): Text { Lit("terminal_state") }
  function SettlementFailureReasonKey(): Text { Lit("settlement_failure_reason") }
  function SettlementResponseDigestKey(): Text { Lit("settlement_response_digest") }
  function ServiceResultDigestKey(): Text { Lit("service_result_digest") }

  function InclusionText(): Text { Lit("l2_block_inclusion") }

  function ProfilePrefix(): Text { Lit("org.peacprotocol.") + Lit("examples.payment-") + Lit("evidence/") }
  function RequestBindingProfile(): Text { ProfilePrefix() + Lit("request-binding/1") }
  function OriginResultBindingProfile(): Text { ProfilePrefix() + Lit("origin-result-binding/1") }
  function ChainObservationProfileText(): Text { ProfilePrefix() + Lit("base-chain-observation/1") }

  function Number(n: NumberText): Option<Json> {
    Some(Num(Finite(n)))
  }

  // ---------------------------------------------------------------- bindings

  function HeaderParts(name: Text, digest: Text): seq<Part> {
    [Part(Lit("name"), Stated(name)), Part(Lit("observedValueDigest"), Stated(digest))]
  }

  function SignatureField(): Text { Lit("payment-signature") }

  function SelectedHeaders(signatureDigest: Option<Text>): Json {
    Arr(if signatureDigest.Some? then [Object(HeaderParts(SignatureField(), signatureDigest.value))] else [])
  }

  function ComponentParts(c: Components.RequestComponents): seq<Part> {
    [Part(Lit("@method"), Stated(c.verb)),
     Part(Lit("@scheme"), Stated(Components.SchemeText(c.scheme))),
     Part(Lit("@authority"), Stated(c.authority)),
     Part(Lit("@path"), Stated(c.path)),
     Part(Lit("@query"), Stated(c.query)),
     Part(CapturePointKey(), Stated(Lit("origin_request_") + Lit("after_http_parsing"))),
     Part(Lit("proxyTrustProfile"), Stated(Lit("direct-origin")))]
  }

  function RequestBindingParts(c: Components.RequestComponents, bodyDigest: Text, signatureDigest: Option<Text>)
    : seq<Part>
  {
    [Part(ProfileKey(), Stated(RequestBindingProfile())),
     Part(ComponentsKey(), Some(Object(ComponentParts(c)))),
     Part(BodyDigestKey(), Stated(bodyDigest)),
     Part(SelectedHeadersKey(), Some(SelectedHeaders(signatureDigest)))]
  }

  function BuildRequestBinding(c: Components.RequestComponents, bodyDigest: Text, signatureDigest: Option<Text>): Json {
    Object(RequestBindingParts(c, bodyDigest, signatureDigest))
  }

  function OriginResultParts(status: NumberText, contentType: Text, bodyDigest: Text): seq<Part> {
    [Part(ProfileKey(), Stated(OriginResultBindingProfile())),
     Part(StatusKey(), Number(status)),
     Part(ContentTypeKey(), if contentType == [] then None else Stated(contentType)),
     Part(BodyDigestKey(), Stated(bodyDigest)),
     Part(CapturePointKey(), Stated(Lit("origin_pre_transfer_encoding")))]
  }

  function BuildOriginResultBinding(status: NumberText, contentType: Text, bodyDigest: Text): Json {
    Object(OriginResultParts(status, contentType, bodyDigest))
  }

  lemma RequestBindingShaped(c: Components.RequestComponents, bodyDigest: Text, signatureDigest: Option<Text>)
    ensures Shaped(BuildRequestBinding(c, bodyDigest, signatureDigest), 3)
  {
    hide Members;
    var headers := SelectedHeaders(signatureDigest).items;
    forall k | 0 <= k < |headers| ensures Shaped(headers[k], 1) {
      ObjectShaped(HeaderParts(SignatureField(), signatureDigest.value), 0);
    }
    ArrayShaped(headers, 1);
    ComponentsShaped(c);
    RequestBindingNames(c, bodyDigest, signatureDigest);
    hide DistinctNames;
    ObjectShaped(RequestBindingParts(c, bodyDigest, signatureDigest), 2);
  }

  lemma RequestBindingNames(c: Components.RequestComponents, bodyDigest: Text, signatureDigest: Option<Text>)
    ensures DistinctNames(RequestBindingParts(c, bodyDigest, signatureDigest))
  {
    hide DistinctNames, ComponentParts, SelectedHeaders;
    NamedApart(RequestBindingParts(c, bodyDigest, signatureDigest),
      ["profile", "components", "bodyDigest", "selectedHeaders"]);
  }

  lemma ComponentNames(c: Components.RequestComponents)
    ensures DistinctNames(ComponentParts(c))
  {
    hide DistinctNames, Components.SchemeText;
    NamedApart(ComponentParts(c), ["@method", "@scheme", "@authority", "@path", "@query", "capturePoint",
      "proxyTrustProfile"]);
  }

  lemma ComponentsShaped(c: Components.RequestComponents)
    ensures Shaped(Object(ComponentParts(c)), 1)
  {
    hide Members, Components.SchemeText, DistinctNames;
    ComponentNames(c);
    ObjectShaped(ComponentParts(c), 0);
  }

  lemma OriginResultNames(status: NumberText, contentType: Text, bodyDigest: Text)
    ensures DistinctNames(OriginResultParts(status, contentType, bodyDigest))
  {
  }

  lemma OriginResultShaped(status: NumberText, contentType: Text, bodyDigest: Text)
    ensures Shaped(BuildOriginResultBinding(status, contentType, bodyDigest), 1)
    ensures Get(BuildOriginResultBinding(status, contentType, bodyDigest), BodyDigestKey()) == Stated(bodyDigest)
  {
    hide Members;
    var parts := OriginResultParts(status, contentType, bodyDigest);
    ObjectShaped(parts, 0);
    ReadsBack(parts, 3);
  }

  // ---------------------------------------------------------------- the expectation

  datatype PaymentExpectation = PaymentExpectation(
    network: Text, asset: Text, amount: Text, decimals: NumberText, recipient: Text, payer: Option<Text>,
    authorizationDigest: Option<Text>)

  function ArtifactSource(): Text { Lit("native_x402_artifact") }

  function ExpectationParts(e: PaymentExpectation): seq<Part> {
    [Part(SourceKey(), Stated(ArtifactSource())),
     Part(NetworkKey(), Stated(e.network)),
     Part(AssetKey(), Stated(e.asset)),
     Part(AmountBaseUnitsKey(), Stated(e.amount)),
     Part(AssetDecimalsKey(), Number(e.decimals)),
     Part(RecipientKey(), Stated(e.recipient)),
     Part(PayerKey(), OptionalText(e.payer)),
     Part(AuthorizationDigestKey(), OptionalText(e.authorizationDigest))]
  }

  /** What the comparison reads of an expectation. */
  function TermsIn(expectation: Json): Terms {
    Terms(
      Get(expectation, NetworkKey()), Get(expectation, AssetKey()), Get(expectation, RecipientKey()),
      Get(expectation, AmountBaseUnitsKey()), Get(expectation, PayerKey()), Get(expectation, AuthorizationDigestKey()))
  }

  function TermsStated(e: PaymentExpectation): Terms {
    TermsOf(e.network, e.asset, e.recipient, e.amount, e.payer, e.authorizationDigest)
  }

  lemma ExpectationNames(e: PaymentExpectation)
    ensures DistinctNames(ExpectationParts(e))
  {
    hide DistinctNames;
    NamedApart(ExpectationParts(e), ["source", "network", "asset", "amount_base_units", "asset_decimals", "recipient",
      "payer", "authorization_digest"]);
  }

  lemma ExpectationReads(e: PaymentExpectation)
    ensures TermsIn(Object(ExpectationParts(e))) == TermsStated(e)
    ensures Shaped(Object(ExpectationParts(e)), 1)
  {
    hide Members, Get, DistinctNames;
    ExpectationNames(e);
    var parts := ExpectationParts(e);
    ReadsBack(parts, 1);
    ReadsBack(parts, 2);
    ReadsBack(parts, 3);
    ReadsBack(parts, 5);
    ReadsBack(parts, 6);
    ReadsBack(parts, 7);
    ObjectShaped(parts, 0);
  }

  // ---------------------------------------------------------------- the settlement report

  datatype SettlementOutcome = SettlementSucceeded | SettlementRefused | SettlementNotReached

  function OutcomeText(outcome: SettlementOutcome): Text {
    match outcome
    case SettlementSucceeded => Lit("succeeded")
    case SettlementRefused => Lit("refused")
    case SettlementNotReached => Lit("not_reached")
  }

  datatype SettlementReport = SettlementReport(
    sourceKind: Text, sourceReference: Text, outcome: SettlementOutcome, transactionHash: Option<Text>,
    networkReported: Option<Text>, payerReported: Option<Text>, observedAt: NumberText)

  function SourceParts(kind: Text, reference: Text): seq<Part> {
    [Part(Lit("kind"), Stated(kind)), Part(Lit("reference"), Stated(reference))]
  }

  function ReportParts(r: SettlementReport): seq<Part> {
    [Part(SourceKey(), Some(Object(SourceParts(r.sourceKind, r.sourceReference)))),
     Part(SettlementOutcomeKey(), Stated(OutcomeText(r.outcome))),
     Part(TransactionHashKey(), OptionalText(r.transactionHash)),
     Part(NetworkReportedKey(), OptionalText(r.networkReported)),
     Part(PayerReportedKey(), OptionalText(r.payerReported)),
     Part(ObservedAtKey(), Number(r.observedAt))]
  }

  lemma SourceShaped(kind: Text, reference: Text)
    ensures Shaped(Object(SourceParts(kind, reference)), 1)
  {
    hide Members, DistinctNames;
    NamedApart(SourceParts(kind, reference), ["kind", "reference"]);
    ObjectShaped(SourceParts(kind, reference), 0);
  }

  lemma ReportReads(r: SettlementReport)
    ensures
      var j := Object(ReportParts(r));
      && Get(j, SettlementOutcomeKey()) == Stated(OutcomeText(r.outcome))
      && Get(j, TransactionHashKey()) == OptionalText(r.transactionHash)
      && Get(j, NetworkReportedKey()) == OptionalText(r.networkReported)
      && Shaped(j, 2)
  {
    hide Members, Get, DistinctNames, OutcomeText;
    var parts := ReportParts(r);
    assert DistinctNames(parts) by {
      hide SourceParts;
      NamedApart(parts, ["source", "settlement_outcome", "transaction_hash", "network_reported", "payer_reported",
        "observed_at_unix_seconds"]);
    }
    ReadsBack(parts, 1);
    ReadsBack(parts, 2);
    ReadsBack(parts, 3);
    SourceShaped(r.sourceKind, r.sourceReference);
    ObjectShaped(parts, 1);
  }

  // ---------------------------------------------------------------- the RPC account

  datatype RpcAccount = RpcAccount(
    reference: Text, observation: RpcObservation, reason: Option<Text>, observedAt: NumberText, statement: Text)

  function TransferParts(t: Transfers.Transfer): seq<Part> {
    [Part(TokenContractKey(), Stated(t.tokenContract)),
     Part(TransferFromKey(), Stated(t.transferFrom)),
     Part(TransferToKey(), Stated(t.transferTo)),
     Part(TransferAmountKey(), Stated(t.transferAmount))]
  }

  function ObservationStateText(state: ObservationState): Text {
    match state
    case Found => Lit("found")
    case NotFound => Lit("not_found")
    case Unavailable => Lit("unavailable")
  }

  function RpcParts(a: RpcAccount): seq<Part> {
    var o := a.observation;
    [Part(SourceKey(), Some(Object(SourceParts(Lit("rpc"), a.reference)))),
     Part(TransactionHashKey(), Stated(o.transactionHash)),
     Part(ObservationStateKey(), Stated(ObservationStateText(o.state))),
     Part(ObservationLevelKey(), if o.inclusion.Some? then Stated(InclusionText()) else None),
     Part(ReceiptStatusKey(), if o.receiptStatus.Some? then Stated(StatusText(o.receiptStatus.value)) else None),
     Part(TransactionSenderKey(), OptionalText(o.sender)),
     Part(BlockNumberKey(), if o.inclusion.Some? then Stated(o.inclusion.value.blockNumber) else None),
     Part(BlockHashKey(), if o.inclusion.Some? then Stated(o.inclusion.value.blockHash) else None),
     Part(TokenTransferKey(), if o.transfer.Some? then Some(Object(TransferParts(o.transfer.value))) else None),
     Part(UnavailableReasonKey(), OptionalText(a.reason)),
     Part(ObservedAtKey(), Number(a.observedAt)),
     Part(StatementKey(), Stated(a.statement))]
  }

  function TransferViewIn(transfer: Json): TransferView {
    TransferView(
      Get(transfer, TokenContractKey()), Get(transfer, TransferFromKey()), Get(transfer, TransferToKey()),
      Get(transfer, TransferAmountKey()))
  }

  /** What the comparison reads of an RPC account. */
  function RpcViewIn(rpc: Json): RpcView {
    RpcView(
      Get(rpc, ReceiptStatusKey()),
      if Get(rpc, TokenTransferKey()).Some? then Some(TransferViewIn(Get(rpc, TokenTransferKey()).value)) else None)
  }

  lemma TransferReads(t: Transfers.Transfer)
    ensures TransferViewIn(Object(TransferParts(t))) == TransferViewOf(t)
    ensures Shaped(Object(TransferParts(t)), 1)
  {
    hide Members, Get, DistinctNames;
    var parts := TransferParts(t);
    NamedApart(parts, ["token_contract", "transfer_from", "transfer_to", "transfer_amount"]);
    ReadsBack(parts, 0);
    ReadsBack(parts, 1);
    ReadsBack(parts, 2);
    ReadsBack(parts, 3);
    ObjectShaped(parts, 0);
  }

  function RpcMemberNames(): seq<string> {
    ["source", "transaction_hash", "observation_state", "observation_level", "receipt_status", "transaction_sender",
     "block_number", "block_hash", "token_transfer", "unavailable_reason", "observed_at_unix_seconds", "statement"]
  }

  lemma RpcNamed(a: RpcAccount)
    ensures Named(RpcParts(a), RpcMemberNames())
  {
    hide SourceParts, TransferParts, StatusText, ObservationStateText;
  }

  lemma RpcNames(a: RpcAccount)
    ensures DistinctNames(RpcParts(a))
  {
    hide DistinctNames, RpcParts, Named;
    RpcNamed(a);
    NamedApart(RpcParts(a), RpcMemberNames());
  }

  lemma RpcReads(a: RpcAccount)
    ensures
      var j := Object(RpcParts(a));
      && Get(j, TransactionHashKey()) == Stated(a.observation.transactionHash)
      && Get(j, ObservationLevelKey()) ==
           (if a.observation.inclusion.Some? then Stated(InclusionText()) else None)
      && (a.observation.inclusion.Some? ==>
            Get(j, BlockNumberKey()) == Stated(a.observation.inclusion.value.blockNumber))
      && (a.observation.inclusion.Some? ==> Get(j, BlockHashKey()) == Stated(a.observation.inclusion.value.blockHash))
      && RpcViewIn(j) == RpcViewOf(a.observation)
  {
    hide Members, Get, DistinctNames, SourceParts, TransferParts, StatusText, ObservationStateText;
    var parts := RpcParts(a);
    RpcNames(a);
    ReadsBack(parts, 1);
    ReadsBack(parts, 3);
    ReadsBack(parts, 4);
    ReadsBack(parts, 6);
    ReadsBack(parts, 7);
    ReadsBack(parts, 8);
    if a.observation.transfer.Some? {
      TransferReads(a.observation.transfer.value);
    }
  }

  lemma RpcShaped(a: RpcAccount)
    ensures Shaped(Object(RpcParts(a)), 2)
  {
    hide Members, DistinctNames, SourceParts, TransferParts, StatusText, ObservationStateText;
    RpcNames(a);
    SourceShaped(Lit("rpc"), a.reference);
    if a.observation.transfer.Some? {
      TransferReads(a.observation.transfer.value);
    }
    ObjectShaped(RpcParts(a), 1);
  }

  // ---------------------------------------------------------------- the comparison

  function VerdictText(v: Verdict): Text {
    match v
    case Match => Lit("match")
    case Mismatch => Lit("mismatch")
    case NotEvaluated => Lit("not_evaluated")
  }

  function LinkText(linked: bool): Text {
    if linked then Lit("linked") else Lit("not_evaluated")
  }

  function ComparisonParts(c: Comparison): seq<Part> {
    [Part(NetworkKey(), Stated(VerdictText(c.network))),
     Part(AssetKey(), Stated(VerdictText(c.asset))),
     Part(RecipientKey(), Stated(VerdictText(c.recipient))),
     Part(AmountKey(), Stated(VerdictText(c.amount))),
     Part(AuthorizationKey(), Stated(LinkText(c.authorizationLinked))),
     Part(TransferEventKey(), Stated(VerdictText(c.transferEvent)))]
  }

  /** Whether the recorded verdicts are these. */
  predicate Records(recorded: Json, c: Comparison) {
    forall i | 0 <= i < |ComparisonParts(c)| ::
      Get(recorded, ComparisonParts(c)[i].name) == ComparisonParts(c)[i].value
  }

  lemma ComparisonRecords(c: Comparison)
    ensures Records(Object(ComparisonParts(c)), c)
    ensures Shaped(Object(ComparisonParts(c)), 1)
  {
    hide Members, Get, DistinctNames, VerdictText, LinkText;
    var parts := ComparisonParts(c);
    NamedApart(parts, ["network", "asset", "recipient", "amount", "authorization", "transfer_event"]);
    forall i | 0 <= i < |parts| ensures Get(Object(parts), parts[i].name) == parts[i].value {
      ReadsBack(parts, i);
    }
    ObjectShaped(parts, 0);
  }

  // ---------------------------------------------------------------- the whole observation

  function StateText(state: TerminalState): Text {
    match state
    case WriteAttempted => Lit("response_write_attempted")
    case RejectedPreVerification => Lit("payment_rejected_") + Lit("pre_verification")
    case VerificationRefused => Lit("verification_rejected")
    case HandlerErrorStatus => Lit("handler_error_status")
    case SettlementFailed => Lit("settlement_failed")
    case PaymentRequiredOnly => Lit("payment_required_only")
  }

  datatype Observed = Observed(
    scheme: Text, expectation: PaymentExpectation, report: SettlementReport, rpc: Option<RpcAccount>,
    comparison: Comparison,
    terminal: TerminalState, failureReason: Option<Text>, responseDigest: Option<Text>, resultDigest: Option<Text>,
    observedAt: NumberText)

  function ObservedParts(o: Observed): seq<Part> {
    [Part(ProfileKey(), Stated(ChainObservationProfileText())),
     Part(SchemeKey(), Stated(o.scheme)),
     Part(PaymentExpectationKey(), Some(Object(ExpectationParts(o.expectation)))),
     Part(ChainObservationKey(), Some(Object(ReportParts(o.report)))),
     Part(RpcObservationKey(), if o.rpc.Some? then Some(Object(RpcParts(o.rpc.value))) else None),
     Part(ComparisonKey(), Some(Object(ComparisonParts(o.comparison)))),
     Part(TerminalStateKey(), Stated(StateText(o.terminal))),
     Part(SettlementFailureReasonKey(), OptionalText(o.failureReason)),
     Part(SettlementResponseDigestKey(), OptionalText(o.responseDigest)),
     Part(ServiceResultDigestKey(), OptionalText(o.resultDigest)),
     Part(ObservedAtKey(), Number(o.observedAt))]
  }

  function ObservedDocument(o: Observed): Json {
    Object(ObservedParts(o))
  }

  function ObservedMemberNames(): seq<string> {
    ["profile", "scheme", "payment_expectation", "chain_observation", "rpc_observation", "comparison",
     "terminal_state", "settlement_failure_reason", "settlement_response_digest", "service_result_digest",
     "observed_at_unix_seconds"]
  }

  lemma ObservedNamed(o: Observed)
    ensures Named(ObservedParts(o), ObservedMemberNames())
  {
    hide ExpectationParts, ReportParts, RpcParts, ComparisonParts, StateText;
  }

  lemma ObservedNames(o: Observed)
    ensures DistinctNames(ObservedParts(o))
  {
    hide DistinctNames, ObservedParts, Named;
    ObservedNamed(o);
    NamedApart(ObservedParts(o), ObservedMemberNames());
  }

  lemma ObservedReads(o: Observed)
    ensures
      var j := ObservedDocument(o);
      && Get(j, ProfileKey()) == Stated(ChainObservationProfileText())
      && Get(j, SchemeKey()) == Stated(o.scheme)
      && Get(j, PaymentExpectationKey()) == Some(Object(ExpectationParts(o.expectation)))
      && Get(j, ChainObservationKey()) == Some(Object(ReportParts(o.report)))
      && Get(j, RpcObservationKey()) == (if o.rpc.Some? then Some(Object(RpcParts(o.rpc.value))) else None)
      && Get(j, ComparisonKey()) == Some(Object(ComparisonParts(o.comparison)))
      && Get(j, TerminalStateKey()) == Stated(StateText(o.terminal))
      && Get(j, SettlementResponseDigestKey()) == OptionalText(o.responseDigest)
      && Get(j, ServiceResultDigestKey()) == OptionalText(o.resultDigest)
  {
    hide Members, Get, DistinctNames, ExpectationParts, ReportParts, RpcParts, ComparisonParts, StateText;
    var parts := ObservedParts(o);
    ObservedNames(o);
    ReadsBack(parts, 0);
    ReadsBack(parts, 1);
    ReadsBack(parts, 2);
    ReadsBack(parts, 3);
    ReadsBack(parts, 4);
    ReadsBack(parts, 5);
    ReadsBack(parts, 6);
    ReadsBack(parts, 8);
    ReadsBack(parts, 9);
  }

  lemma ObservedShaped(o: Observed)
    ensures Shaped(ObservedDocument(o), 3)
  {
    hide Members, DistinctNames, ExpectationParts, ReportParts, RpcParts, ComparisonParts, StateText;
    ObservedNames(o);
    ExpectationReads(o.expectation);
    ReportReads(o.report);
    if o.rpc.Some? {
      RpcShaped(o.rpc.value);
    }
    ComparisonRecords(o.comparison);
    ObjectShaped(ObservedParts(o), 2);
  }
}
