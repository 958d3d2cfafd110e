/** From one run to an evidence directory: src/flow/observe-settlement.ts, src/flow/fixture-e2e.ts and
    src/flow/issue-record.ts. An exception is no result. */
module Issuance {
  import opened Wrappers
  import opened CodeUnits
  import opened Json
  import opened Lifecycle
  import opened Presence
  import opened Jcs
  import opened JsonObjects
  import opened Stringify
  import opened Observation
  import opened Documents
  import opened Evidence
  import Components
  import Transfers

  // ---------------------------------------------------------------- a run

  datatype Settle = Settle(success: bool, transaction: Text, network: Option<Text>)

  datatype RunBody = RunBody(status: NumberText, contentType: Text, body: Bytes)

  /** What a run left behind: the field values observed, the result if the handler produced one, where the
      lifecycle ended, the terms the payment accepted, and what the client decoded of the settlement. */
  datatype Run = Run(
    required: Text, signature: Option<Text>, response: Option<Text>,
    result: Option<RunBody>,
    terminal: TerminalState, states: seq<Text>, payer: Option<Text>, failureReason: Option<Text>,
    scheme: Text, network: Text, asset: Text, amount: Text, payTo: Text, authorization: Option<Json>,
    settle: Option<Settle>)

  /** What the caller adds: the request, the observers' identities and accounts, and labels. */
  datatype Options = Options(
    components: Components.RequestComponents, requestBody: Bytes,
    sourceKind: Text, sourceReference: Text, rpc: Option<RpcAccount>,
    observedAt: NumberText, assetDecimals: NumberText,
    reference: Option<Text>, currency: Text, environment: Text)

  // ---------------------------------------------------------------- the observation

  /** The payment settled, by the lifecycle and by the settlement response both. */
  predicate Settled(run: Run) {
    PaymentWasSettled(run.terminal) && run.settle.Some? && run.settle.value.success
  }

  function OutcomeOf(run: Run): SettlementOutcome {
    if Settled(run) then SettlementSucceeded
    else if run.settle.Some? || run.terminal == SettlementFailed then SettlementRefused
    else SettlementNotReached
  }

  /** The transaction reference, recorded only for a settlement that succeeded and named one. */
  function TransactionOf(run: Run): Option<Text> {
    if Settled(run) && run.settle.value.transaction != [] then Some(run.settle.value.transaction) else None
  }

  function FromKey(): Text { Lit("from") }

  function ExpectationOf(run: Run, options: Options, authorizationDigest: Option<Text>): PaymentExpectation {
    PaymentExpectation(
      run.network, run.asset, run.amount, options.assetDecimals, run.payTo,
      if run.authorization.Some? then GetText(run.authorization.value, FromKey()) else None,
      authorizationDigest)
  }

  function ReportOf(run: Run, options: Options): SettlementReport {
    SettlementReport(
      options.sourceKind, options.sourceReference, OutcomeOf(run), TransactionOf(run),
      if Settled(run) then run.settle.value.network else None, run.payer, options.observedAt)
  }

  function RpcOf(run: Run, options: Options): Option<RpcAccount> {
    if TransactionOf(run).Some? then options.rpc else None
  }

  lemma TypedComparisonIsDefined(e: PaymentExpectation, network: Option<Text>, rpc: Option<RpcAccount>)
    ensures Compare(
      TermsStated(e), OptionalText(network),
      if rpc.Some? then Some(RpcViewOf(rpc.value.observation)) else None).Some?
  {
    hide SameText, StatusText;
  }

  function ComparisonOf(e: PaymentExpectation, network: Option<Text>, rpc: Option<RpcAccount>): Comparison {
    TypedComparisonIsDefined(e, network, rpc);
    Compare(
      TermsStated(e), OptionalText(network),
      if rpc.Some? then Some(RpcViewOf(rpc.value.observation)) else None).value
  }

  /** `observeSettlement`. */
  function ObserveSettlement(
    run: Run, options: Options, authorizationDigest: Option<Text>, responseDigest: Option<Text>,
    resultDigest: Option<Text>)
    : Observed
  {
    var expectation := ExpectationOf(run, options, authorizationDigest);
    var report := ReportOf(run, options);
    Observed(
      run.scheme, expectation, report, RpcOf(run, options),
      ComparisonOf(expectation, report.networkReported, RpcOf(run, options)),
      run.terminal, if OutcomeOf(run) == SettlementRefused then run.failureReason else None,
      responseDigest, resultDigest, options.observedAt)
  }

  // ---------------------------------------------------------------- the record

  datatype Issuer = Issuer(kid: Text, iss: Text, sign: Claims -> Text)

  datatype Inputs = Inputs(
    requestBinding: Json, resultBinding: Option<Json>, resultBody: Option<Bytes>,
    required: Text, signature: Option<Text>, response: Option<Text>,
    observation: Observed, states: seq<Text>, terminal: TerminalState,
    reference: Option<Text>, currency: Text, environment: Text)

  datatype Layout = Layout(claims: Claims, files: Files)

  function TextDigest(rt: Runtime, value: Text): Text {
    rt.hash(rt.encode(value))
  }

  function OptionalDigest(rt: Runtime, value: Option<Text>): Option<Text> {
    if value.Some? then Some(TextDigest(rt, value.value)) else None
  }

  function RailText(): Text { Lit("x402") }
  function EventText(): Text { Lit("settlement") }

  function CommerceParts(i: Inputs): seq<Part> {
    [Part(Lit("payment_rail"), Stated(RailText())),
     Part(AmountMinorKey(), Stated(i.observation.expectation.amount)),
     Part(Lit("currency"), Stated(i.currency)),
     Part(AssetKey(), Stated(i.observation.expectation.asset)),
     Part(Lit("env"), Stated(i.environment)),
     Part(Lit("reference"), OptionalText(i.reference)),
     Part(Lit("event"),
       if i.observation.report.outcome == SettlementSucceeded then Stated(EventText()) else None)]
  }

  function Strings(texts: seq<Text>): Json {
    Arr(seq(|texts|, k requires 0 <= k < |texts| => Str(texts[k])))
  }

  /** The digests in force when the record is made. */
  datatype Digests = Digests(request: Text, result: Option<Text>, observation: Text)

  function EvidenceParts(rt: Runtime, i: Inputs, d: Digests): seq<Part> {
    [Part(TerminalStateKey(), Stated(StateText(i.terminal))),
     Part(Lit("lifecycle_states"), Some(Strings(i.states))),
     Part(NetworkKey(), Stated(i.observation.expectation.network)),
     Part(RequestBindingDigestKey(), Stated(d.request)),
     Part(OriginResultBindingDigestKey(), OptionalText(d.result)),
     Part(PaymentRequiredDigestKey(), Stated(TextDigest(rt, i.required))),
     Part(PaymentSignatureDigestKey(), OptionalText(OptionalDigest(rt, i.signature))),
     Part(PaymentResponseDigestKey(), OptionalText(OptionalDigest(rt, i.response))),
     Part(ChainObservationDigestKey(), Stated(d.observation))]
  }

  function ClaimsOf(rt: Runtime, issuer: Issuer, i: Inputs, d: Digests): Claims {
    Claims(
      Stated(issuer.iss), Stated(PaymentRecordType()),
      Some(Object(CommerceParts(i))), Some(Object(EvidenceParts(rt, i, d))))
  }

  /** Every document an issuance writes can be: no string in it holds a lone surrogate. */
  predicate DocumentsPlain(i: Inputs) {
    && Plain(i.requestBinding) && Plain(ObservedDocument(i.observation))
    && (i.resultBinding.Some? ==> Plain(i.resultBinding.value))
  }

  function DigestsOf(rt: Runtime, i: Inputs): Option<Digests> {
    var request := DocumentDigest(rt, i.requestBinding);
    var observation := DocumentDigest(rt, ObservedDocument(i.observation));
    var result := if i.resultBinding.Some? then DocumentDigest(rt, i.resultBinding.value) else None;
    if request.None? || observation.None? || (i.resultBinding.Some? && result.None?) then None
    else Some(Digests(request.value, result, observation.value))
  }

  function DocumentBytes(rt: Runtime, j: Json): Bytes
    requires Plain(j)
  {
    rt.encode(DocumentText(j))
  }

  /** What each file of an issued directory holds. */
  ghost predicate FilesAre(rt: Runtime, issuer: Issuer, i: Inputs, layout: Layout)
    requires DocumentsPlain(i)
  {
    var files := layout.files;
    && RecordJws in files && files[RecordJws] == rt.encode(issuer.sign(layout.claims) + [NEWLINE])
    && RequestBinding in files && files[RequestBinding] == DocumentBytes(rt, i.requestBinding)
    && ChainObservation in files && files[ChainObservation] == DocumentBytes(rt, ObservedDocument(i.observation))
    && PaymentRequiredText in files && files[PaymentRequiredText] == rt.encode(i.required)
    && (PaymentSignatureText in files <==> i.signature.Some?)
    && (i.signature.Some? ==> files[PaymentSignatureText] == rt.encode(i.signature.value))
    && (PaymentResponseText in files <==> i.response.Some?)
    && (i.response.Some? ==> files[PaymentResponseText] == rt.encode(i.response.value))
    && (OriginResultBinding in files <==> i.resultBinding.Some?)
    && (i.resultBinding.Some? ==> files[OriginResultBinding] == DocumentBytes(rt, i.resultBinding.value))
    && (OriginResultBody in files <==> i.resultBody.Some?)
    && (i.resultBody.Some? ==> files[OriginResultBody] == i.resultBody.value)
  }

  /** Digests first, then the record that binds them, then the files. */
  method IssueEvidence(rt: Runtime, issuer: Issuer, i: Inputs) returns (layout: Option<Layout>)
    ensures layout.Some? <==> DocumentsPlain(i) && DigestsOf(rt, i).Some?
    ensures layout.Some? ==>
      layout.value.claims == ClaimsOf(rt, issuer, i, DigestsOf(rt, i).value) && FilesAre(rt, issuer, i, layout.value)
  {
    hide Plain, DocumentDigest, DocumentText, ObservedDocument, CommerceParts, EvidenceParts;
    var digests := DigestsOf(rt, i);
    if digests.None? || !DocumentsPlain(i) {
      return None;
    }
    var claims := ClaimsOf(rt, issuer, i, digests.value);
    var files: Files := map[];
    files := files[RecordJws := rt.encode(issuer.sign(claims) + [NEWLINE])];
    files := files[RequestBinding := DocumentBytes(rt, i.requestBinding)];
    files := files[ChainObservation := DocumentBytes(rt, ObservedDocument(i.observation))];
    files := files[PaymentRequiredText := rt.encode(i.required)];
    if i.signature.Some? {
      files := files[PaymentSignatureText := rt.encode(i.signature.value)];
    }
    if i.response.Some? {
      files := files[PaymentResponseText := rt.encode(i.response.value)];
    }
    if i.resultBinding.Some? {
      files := files[OriginResultBinding := DocumentBytes(rt, i.resultBinding.value)];
    }
    if i.resultBody.Some? {
      files := files[OriginResultBody := i.resultBody.value];
    }
    return Some(Layout(claims, files));
  }

  /** `buildEvidence`, up to issuance: the bindings, the observation and the record's inputs. */
  function InputsOf(rt: Runtime, run: Run, options: Options): Option<Inputs> {
    var authorizationDigest := if run.authorization.Some? then DocumentDigest(rt, run.authorization.value) else None;
    if run.authorization.Some? && authorizationDigest.None? then None
    else
      var bodyDigest := if run.result.Some? then Some(rt.hash(run.result.value.body)) else None;
      Some(Inputs(
        BuildRequestBinding(options.components, rt.hash(options.requestBody), OptionalDigest(rt, run.signature)),
        if run.result.Some? then
          Some(BuildOriginResultBinding(run.result.value.status, run.result.value.contentType, bodyDigest.value))
        else None,
        if run.result.Some? then Some(run.result.value.body) else None,
        run.required, run.signature, run.response,
        ObserveSettlement(run, options, authorizationDigest, OptionalDigest(rt, run.response), bodyDigest),
        run.states, run.terminal, options.reference, options.currency, options.environment))
  }
}
