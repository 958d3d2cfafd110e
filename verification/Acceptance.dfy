/** What an accepted directory says, name by name: what its record and its observation state in common, what each
    recorded verdict means, and what was checked of the record, the key and every file. */
module Acceptance {
  import opened Wrappers
  import opened CodeUnits
  import opened Json
  import opened Lifecycle
  import opened Presence
  import opened StrictJson
  import opened Jcs
  import opened Observation
  import opened Documents
  import opened Evidence
  import opened EvidenceMeaning

  /** One text stands under both names. */
  predicate SameUnder(a: Json, name: string, b: Json, name': string) {
    IsText(Under(a, name)) && Under(a, name) == Under(b, name')
  }

  // ---------------------------------------------------------------- what is stated twice

  /** The record and the observation state one network, one asset, one amount and one terminal state, and name one
      settlement response or none. */
  predicate OnePayment(commerce: Json, evidence: Json, expectation: Json, doc: Json) {
    && SameUnder(evidence, "network", expectation, "network")
    && SameUnder(commerce, "asset", expectation, "asset")
    && SameUnder(commerce, "amount_minor", expectation, "amount_base_units")
    && SameUnder(evidence, "terminal_state", doc, "terminal_state")
    && Under(evidence, "payment_response_digest") == Under(doc, "settlement_response_digest")
  }

  lemma AgreementKeys()
    ensures Spells(NetworkKey(), "network") && Spells(AssetKey(), "asset") && Spells(AmountMinorKey(), "amount_minor")
    ensures Spells(AmountBaseUnitsKey(), "amount_base_units") && Spells(TerminalStateKey(), "terminal_state")
    ensures Spells(PaymentResponseDigestKey(), "payment_response_digest")
    ensures Spells(SettlementResponseDigestKey(), "settlement_response_digest")
  {
  }

  lemma AgreementIsOnePayment(commerce: Json, evidence: Json, expectation: Json, doc: Json)
    requires DocumentsAgree(commerce, evidence, expectation, doc)
    ensures OnePayment(commerce, evidence, expectation, doc)
  {
    hide Under, Get, Spells, NetworkKey, AssetKey, AmountMinorKey, AmountBaseUnitsKey, TerminalStateKey,
      PaymentResponseDigestKey, SettlementResponseDigestKey;
    AgreementKeys();
    UnderKey(evidence, "network", NetworkKey());
    UnderKey(expectation, "network", NetworkKey());
    UnderKey(commerce, "asset", AssetKey());
    UnderKey(expectation, "asset", AssetKey());
    UnderKey(commerce, "amount_minor", AmountMinorKey());
    UnderKey(expectation, "amount_base_units", AmountBaseUnitsKey());
    UnderKey(evidence, "terminal_state", TerminalStateKey());
    UnderKey(doc, "terminal_state", TerminalStateKey());
    UnderKey(evidence, "payment_response_digest", PaymentResponseDigestKey());
    UnderKey(doc, "settlement_response_digest", SettlementResponseDigestKey());
  }

  // ---------------------------------------------------------------- the verdicts

  function Word(evaluated: bool, holds: bool): string {
    if !evaluated then "not_evaluated" else if holds then "match" else "mismatch"
  }

  /** Two members hold one address, however its hexadecimal letters are cased. */
  predicate SameAddressUnder(a: Json, name: string, b: Json, name': string) {
    SameAddressText(Under(a, name), Under(b, name'))
  }

  /** The transfer is the whole expected one: its contract, its sender, its receiver and its amount. */
  predicate WholeTransfer(transfer: Json, expectation: Json) {
    && SameAddressUnder(transfer, "token_contract", expectation, "asset")
    && SameAddressUnder(transfer, "transfer_from", expectation, "payer")
    && SameAddressUnder(transfer, "transfer_to", expectation, "recipient")
    && SameUnder(transfer, "transfer_amount", expectation, "amount_base_units")
  }

  predicate NetworkVerdict(expectation: Json, report: Json, recorded: Json) {
    ReadsText(Under(recorded, "network"), Word(
      Under(report, "network_reported").Some?, Under(report, "network_reported") == Under(expectation, "network")))
  }

  predicate AssetVerdict(expectation: Json, transfer: Option<Json>, recorded: Json) {
    ReadsText(Under(recorded, "asset"), Word(
      transfer.Some?, transfer.Some? && SameAddressUnder(transfer.value, "token_contract", expectation, "asset")))
  }

  predicate RecipientVerdict(expectation: Json, transfer: Option<Json>, recorded: Json) {
    ReadsText(Under(recorded, "recipient"), Word(
      transfer.Some?, transfer.Some? && SameAddressUnder(transfer.value, "transfer_to", expectation, "recipient")))
  }

  predicate AmountVerdict(expectation: Json, transfer: Option<Json>, recorded: Json) {
    ReadsText(Under(recorded, "amount"), Word(
      transfer.Some?,
      transfer.Some? && SameUnder(transfer.value, "transfer_amount", expectation, "amount_base_units")))
  }

  predicate AuthorizationVerdict(expectation: Json, recorded: Json) {
    ReadsText(
      Under(recorded, "authorization"),
      if Under(expectation, "authorization_digest").Some? then "linked" else "not_evaluated")
  }

  predicate TransferVerdict(expectation: Json, rpc: Option<Json>, transfer: Option<Json>, recorded: Json) {
    ReadsText(Under(recorded, "transfer_event"), Word(
      rpc.Some? && Under(rpc.value, "receipt_status").Some?,
      transfer.Some? && WholeTransfer(transfer.value, expectation)))
  }

  /** The transfer an RPC account reports. */
  function TransferUnderRpc(rpc: Option<Json>): Option<Json> {
    if rpc.Some? then Under(rpc.value, "token_transfer") else None
  }

  predicate VerdictsMean(expectation: Json, report: Json, rpc: Option<Json>, recorded: Json) {
    var transfer := TransferUnderRpc(rpc);
    && NetworkVerdict(expectation, report, recorded)
    && AssetVerdict(expectation, transfer, recorded)
    && RecipientVerdict(expectation, transfer, recorded)
    && AmountVerdict(expectation, transfer, recorded)
    && AuthorizationVerdict(expectation, recorded)
    && TransferVerdict(expectation, rpc, transfer, recorded)
  }

  lemma VerdictKeys()
    ensures Spells(NetworkReportedKey(), "network_reported") && Spells(RecipientKey(), "recipient")
    ensures Spells(AmountKey(), "amount") && Spells(Documents.AuthorizationKey(), "authorization")
    ensures Spells(AuthorizationDigestKey(), "authorization_digest") && Spells(TransferEventKey(), "transfer_event")
    ensures Spells(ReceiptStatusKey(), "receipt_status") && Spells(TokenTransferKey(), "token_transfer")
    ensures Spells(TokenContractKey(), "token_contract") && Spells(TransferFromKey(), "transfer_from")
    ensures Spells(TransferToKey(), "transfer_to") && Spells(TransferAmountKey(), "transfer_amount")
    ensures Spells(PayerKey(), "payer")
  {
  }

  function VerdictWord(v: Verdict): string {
    match v
    case Match => "match"
    case Mismatch => "mismatch"
    case NotEvaluated => "not_evaluated"
  }

  lemma VerdictSpelled(v: Verdict)
    ensures Spells(VerdictText(v), VerdictWord(v))
  {
  }

  lemma LinkSpelled(linked: bool)
    ensures Spells(LinkText(linked), if linked then "linked" else "not_evaluated")
  {
  }

  /** Each verdict the comparison records reads as its word under its name. */
  lemma RecordedWords(recorded: Json, c: Comparison)
    requires Records(recorded, c)
    ensures ReadsText(Under(recorded, "network"), VerdictWord(c.network))
    ensures ReadsText(Under(recorded, "asset"), VerdictWord(c.asset))
    ensures ReadsText(Under(recorded, "recipient"), VerdictWord(c.recipient))
    ensures ReadsText(Under(recorded, "amount"), VerdictWord(c.amount))
    ensures ReadsText(
      Under(recorded, "authorization"), if c.authorizationLinked then "linked" else "not_evaluated")
    ensures ReadsText(Under(recorded, "transfer_event"), VerdictWord(c.transferEvent))
  {
    RecordedUnder(recorded, c);
    hide Under, Get, Records, Spells, VerdictText, VerdictWord, LinkText;
    VerdictSpelled(c.network);
    VerdictSpelled(c.asset);
    VerdictSpelled(c.recipient);
    VerdictSpelled(c.amount);
    LinkSpelled(c.authorizationLinked);
    VerdictSpelled(c.transferEvent);
  }

  lemma RecordedUnder(recorded: Json, c: Comparison)
    requires Records(recorded, c)
    ensures Under(recorded, "network") == Stated(VerdictText(c.network))
    ensures Under(recorded, "asset") == Stated(VerdictText(c.asset))
    ensures Under(recorded, "recipient") == Stated(VerdictText(c.recipient))
    ensures Under(recorded, "amount") == Stated(VerdictText(c.amount))
    ensures Under(recorded, "authorization") == Stated(LinkText(c.authorizationLinked))
    ensures Under(recorded, "transfer_event") == Stated(VerdictText(c.transferEvent))
  {
    hide Under, Get, Spells, VerdictText, LinkText, NetworkKey, AssetKey, RecipientKey, AmountKey,
      Documents.AuthorizationKey, TransferEventKey;
    AgreementKeys();
    VerdictKeys();
    var parts := ComparisonParts(c);
    assert Get(recorded, parts[0].name) == parts[0].value && Get(recorded, parts[1].name) == parts[1].value;
    assert Get(recorded, parts[2].name) == parts[2].value && Get(recorded, parts[3].name) == parts[3].value;
    assert Get(recorded, parts[4].name) == parts[4].value && Get(recorded, parts[5].name) == parts[5].value;
    UnderKey(recorded, "network", NetworkKey());
    UnderKey(recorded, "asset", AssetKey());
    UnderKey(recorded, "recipient", RecipientKey());
    UnderKey(recorded, "amount", AmountKey());
    UnderKey(recorded, "authorization", Documents.AuthorizationKey());
    UnderKey(recorded, "transfer_event", TransferEventKey());
  }

  function Judged(evaluated: bool, holds: bool): (v: Verdict)
    ensures VerdictWord(v) == Word(evaluated, holds)
  {
    if !evaluated then NotEvaluated else VerdictOf(holds)
  }

  /** What the comparison judges, from the members it reads. */
  lemma ComparisonJudges(terms: Terms, network: Option<Json>, rpc: Option<RpcView>)
    requires Compare(terms, network, rpc).Some? && IsText(terms.network) && IsText(terms.amount)
    ensures
      var c, t := Compare(terms, network, rpc).value, if rpc.Some? then rpc.value.transfer else None;
      && c.network == Judged(network.Some?, network == terms.network)
      && c.asset == Judged(t.Some?, t.Some? && SameAddressText(t.value.tokenContract, terms.asset))
      && c.recipient == Judged(t.Some?, t.Some? && SameAddressText(t.value.transferTo, terms.recipient))
      && c.amount == Judged(t.Some?, t.Some? && t.value.transferAmount == terms.amount)
      && (c.authorizationLinked <==> terms.authorizationDigest.Some?)
      && c.transferEvent == Judged(
           rpc.Some? && rpc.value.receiptStatus.Some?,
           && t.Some? && SameAddressText(t.value.tokenContract, terms.asset)
           && SameAddressText(t.value.transferFrom, terms.payer)
           && SameAddressText(t.value.transferTo, terms.recipient) && t.value.transferAmount == terms.amount)
  {
    hide Word, VerdictWord;
  }

  lemma ExpectationUnder(expectation: Json)
    ensures
      var terms := TermsIn(expectation);
      && terms.network == Under(expectation, "network") && terms.asset == Under(expectation, "asset")
      && terms.recipient == Under(expectation, "recipient") && terms.amount == Under(expectation, "amount_base_units")
      && terms.payer == Under(expectation, "payer")
      && terms.authorizationDigest == Under(expectation, "authorization_digest")
  {
    hide Under, Get, Spells, NetworkKey, AssetKey, RecipientKey, AmountBaseUnitsKey, PayerKey, AuthorizationDigestKey;
    AgreementKeys();
    VerdictKeys();
    UnderKey(expectation, "network", NetworkKey());
    UnderKey(expectation, "asset", AssetKey());
    UnderKey(expectation, "recipient", RecipientKey());
    UnderKey(expectation, "amount_base_units", AmountBaseUnitsKey());
    UnderKey(expectation, "payer", PayerKey());
    UnderKey(expectation, "authorization_digest", AuthorizationDigestKey());
  }

  lemma TransferUnder(transfer: Json)
    ensures
      var t := TransferViewIn(transfer);
      && t.tokenContract == Under(transfer, "token_contract") && t.transferFrom == Under(transfer, "transfer_from")
      && t.transferTo == Under(transfer, "transfer_to") && t.transferAmount == Under(transfer, "transfer_amount")
  {
    hide Under, Get, Spells, TokenContractKey, TransferFromKey, TransferToKey, TransferAmountKey;
    VerdictKeys();
    UnderKey(transfer, "token_contract", TokenContractKey());
    UnderKey(transfer, "transfer_from", TransferFromKey());
    UnderKey(transfer, "transfer_to", TransferToKey());
    UnderKey(transfer, "transfer_amount", TransferAmountKey());
  }

  lemma RpcUnder(rpc: Json)
    ensures
      var view := RpcViewIn(rpc);
      && view.receiptStatus == Under(rpc, "receipt_status")
      && (view.transfer.Some? <==> Under(rpc, "token_transfer").Some?)
      && (view.transfer.Some? ==> view.transfer.value == TransferViewIn(Under(rpc, "token_transfer").value))
  {
    hide Under, Get, Spells, ReceiptStatusKey, TokenTransferKey, TransferViewIn;
    VerdictKeys();
    UnderKey(rpc, "receipt_status", ReceiptStatusKey());
    UnderKey(rpc, "token_transfer", TokenTransferKey());
  }

  /** The same of a document: the verdicts recomputed from it, by what it holds under each name. */
  lemma DocumentJudges(expectation: Json, report: Json, rpc: Option<Json>)
    requires CompareIn(expectation, report, rpc).Some?
    requires IsText(Under(expectation, "network")) && IsText(Under(expectation, "amount_base_units"))
    ensures
      var c, t := CompareIn(expectation, report, rpc).value, TransferUnderRpc(rpc);
      && c.network == Judged(
           Under(report, "network_reported").Some?,
           Under(report, "network_reported") == Under(expectation, "network"))
      && c.asset == Judged(t.Some?, t.Some? && SameAddressUnder(t.value, "token_contract", expectation, "asset"))
      && c.recipient == Judged(t.Some?, t.Some? && SameAddressUnder(t.value, "transfer_to", expectation, "recipient"))
      && c.amount == Judged(
           t.Some?, t.Some? && SameUnder(t.value, "transfer_amount", expectation, "amount_base_units"))
      && (c.authorizationLinked <==> Under(expectation, "authorization_digest").Some?)
      && c.transferEvent == Judged(
           rpc.Some? && Under(rpc.value, "receipt_status").Some?, t.Some? && WholeTransfer(t.value, expectation))
  {
    hide Under, Get, Spells, Compare, Word, VerdictWord, Judged, TermsIn, TransferViewIn, RpcViewIn, SameAddressText,
      NetworkReportedKey;
    ExpectationUnder(expectation);
    VerdictKeys();
    UnderKey(report, "network_reported", NetworkReportedKey());
    if rpc.Some? {
      RpcUnder(rpc.value);
      if Under(rpc.value, "token_transfer").Some? {
        TransferUnder(Under(rpc.value, "token_transfer").value);
      }
    }
    ComparisonJudges(
      TermsIn(expectation), Get(report, NetworkReportedKey()),
      if rpc.Some? then Some(RpcViewIn(rpc.value)) else None);
  }

  /** Every recorded verdict is the one the document itself gives. */
  lemma FactsMeanVerdicts(expectation: Json, report: Json, rpc: Option<Json>, recorded: Option<Json>)
    requires ComparisonFacts(expectation, report, rpc, recorded)
    requires IsText(Under(expectation, "network")) && IsText(Under(expectation, "amount_base_units"))
    ensures recorded.Some? && VerdictsMean(expectation, report, rpc, recorded.value)
  {
    hide Under, ReadsText, CompareIn, Records, Word, VerdictWord, Judged, SameAddressUnder, SameUnder, WholeTransfer;
    RecordedWords(recorded.value, CompareIn(expectation, report, rpc).value);
    DocumentJudges(expectation, report, rpc);
  }

  // ---------------------------------------------------------------- the facts of the observation

  /** A settlement is reported to have succeeded exactly when a transaction is reported for it. */
  predicate SettlementMeans(report: Json) {
    ReadsText(Under(report, "settlement_outcome"), "succeeded") <==> IsText(Under(report, "transaction_hash"))
  }

  /** The RPC account is of that transaction, and names the block of an inclusion it claims. */
  predicate RpcMeans(report: Json, rpc: Json) {
    && SameUnder(report, "transaction_hash", rpc, "transaction_hash")
    && (ReadsText(Under(rpc, "observation_level"), "l2_block_inclusion") ==>
          IsText(Under(rpc, "block_number")) && IsText(Under(rpc, "block_hash")))
  }

  lemma FactKeys()
    ensures Spells(SettlementOutcomeKey(), "settlement_outcome") && Spells(TransactionHashKey(), "transaction_hash")
    ensures Spells(ObservationLevelKey(), "observation_level") && Spells(BlockNumberKey(), "block_number")
    ensures Spells(BlockHashKey(), "block_hash")
    ensures Spells(OutcomeText(SettlementSucceeded), "succeeded")
    ensures Spells(InclusionText(), "l2_block_inclusion")
  {
  }

  lemma SettlementFactsMean(report: Json)
    requires SettlementFacts(report)
    ensures SettlementMeans(report)
  {
    hide Under, Get, Spells, SettlementOutcomeKey, TransactionHashKey, OutcomeText, ReadsText;
    FactKeys();
    UnderKey(report, "settlement_outcome", SettlementOutcomeKey());
    UnderKey(report, "transaction_hash", TransactionHashKey());
    ReadsExactly(Get(report, SettlementOutcomeKey()), "succeeded", OutcomeText(SettlementSucceeded));
  }

  lemma RpcFactsMean(report: Json, rpc: Json)
    requires RpcFacts(report, rpc)
    ensures RpcMeans(report, rpc)
  {
    hide Under, Get, Spells, TransactionHashKey, ObservationLevelKey, BlockNumberKey, BlockHashKey, ReadsText,
      InclusionText;
    FactKeys();
    UnderKey(report, "transaction_hash", TransactionHashKey());
    UnderKey(rpc, "transaction_hash", TransactionHashKey());
    UnderKey(rpc, "observation_level", ObservationLevelKey());
    UnderKey(rpc, "block_number", BlockNumberKey());
    UnderKey(rpc, "block_hash", BlockHashKey());
    ReadsExactly(Get(rpc, ObservationLevelKey()), "l2_block_inclusion", InclusionText());
  }

  function ProfileWord(): string {
    "org.peacprotocol." + "examples.payment-" + "evidence/" + "base-chain-observation/1"
  }

  predicate HeadMeans(doc: Json) {
    ReadsText(Under(doc, "profile"), ProfileWord()) && ReadsText(Under(doc, "scheme"), "exact")
  }

  /** What an accepted observation says, by itself and beside the record's two groups. */
  predicate ObservationMeans(commerce: Json, evidence: Json, doc: Json) {
    var expectation, report := ObjectUnder(doc, "payment_expectation"), ObjectUnder(doc, "chain_observation");
    var rpc, recorded := ObjectUnder(doc, "rpc_observation"), ObjectUnder(doc, "comparison");
    && HeadMeans(doc)
    && expectation.Some? && report.Some? && recorded.Some?
    && OnePayment(commerce, evidence, expectation.value, doc)
    && SettlementMeans(report.value)
    && (rpc.Some? ==> RpcMeans(report.value, rpc.value))
    && VerdictsMean(expectation.value, report.value, rpc, recorded.value)
  }

  lemma HeadKeys()
    ensures Spells(ProfileKey(), "profile") && Spells(SchemeKey(), "scheme") && Spells(ObservedScheme(), "exact")
    ensures Spells(PaymentExpectationKey(), "payment_expectation") && Spells(ChainObservationKey(), "chain_observation")
    ensures Spells(RpcObservationKey(), "rpc_observation") && Spells(ComparisonKey(), "comparison")
  {
  }

  lemma ProfileSpelled()
    ensures Spells(ChainObservationProfileText(), ProfileWord())
  {
    var a, b, c := Lit("org.peacprotocol."), Lit("examples.payment-"), Lit("evidence/");
    var d := Lit("base-chain-observation/1");
    assert Spells(a, "org.peacprotocol.") && Spells(b, "examples.payment-") && Spells(c, "evidence/");
    assert Spells(d, "base-chain-observation/1");
    hide Spells;
    SpelledJoin(a, "org.peacprotocol.", b, "examples.payment-");
    SpelledJoin(a + b, "org.peacprotocol." + "examples.payment-", c, "evidence/");
    SpelledJoin(a + b + c, "org.peacprotocol." + "examples.payment-" + "evidence/", d, "base-chain-observation/1");
  }

  lemma HeadHoldsMeans(doc: Json)
    requires HeadHolds(doc)
    ensures HeadMeans(doc)
  {
    hide Under, Get, Spells, ProfileKey, SchemeKey, ObservedScheme, ChainObservationProfileText, ProfileWord, ReadsText;
    HeadKeys();
    ProfileSpelled();
    UnderKey(doc, "profile", ProfileKey());
    UnderKey(doc, "scheme", SchemeKey());
    ReadsExactly(Get(doc, ProfileKey()), ProfileWord(), ChainObservationProfileText());
    ReadsExactly(Get(doc, SchemeKey()), "exact", ObservedScheme());
  }

  lemma ObjectKey(j: Json, name: string, key: Text)
    requires Spells(key, name)
    ensures ObjectUnder(j, name) == ObjectAt(j, key)
  {
    UnderKey(j, name, key);
  }

  lemma DocumentMeans(commerce: Json, evidence: Json, binding: DocumentRead, doc: Json)
    requires DocumentHolds(commerce, evidence, binding, doc)
    ensures ObservationMeans(commerce, evidence, doc)
  {
    hide HeadHolds, HeadMeans, ObjectAt, ObjectUnder, Under, Spells, SettlementFacts, SettlementMeans, RpcFacts;
    hide RpcMeans,
      ComparisonFacts, VerdictsMean, DocumentsAgree, PaymentExpectationKey, ChainObservationKey, RpcObservationKey,
      ComparisonKey, ResultAgrees;
    HeadKeys();
    ObjectKey(doc, "payment_expectation", PaymentExpectationKey());
    ObjectKey(doc, "chain_observation", ChainObservationKey());
    ObjectKey(doc, "rpc_observation", RpcObservationKey());
    ObjectKey(doc, "comparison", ComparisonKey());
    var expectation := ObjectUnder(doc, "payment_expectation").value;
    var report := ObjectUnder(doc, "chain_observation").value;
    var rpc := ObjectUnder(doc, "rpc_observation");
    HeadHoldsMeans(doc);
    AgreementIsOnePayment(commerce, evidence, expectation, doc);
    SettlementFactsMean(report);
    if rpc.Some? {
      RpcFactsMean(report, rpc.value);
    }
    FactsMeanVerdicts(expectation, report, rpc, ObjectUnder(doc, "comparison"));
  }

  // ---------------------------------------------------------------- acceptance

  /** What an accepted directory's observation says: the payment the record says, the facts it reports, and a
      comparison that is the one it gives; and the record is a payment record. */
  lemma AcceptedObservation(rt: Runtime, dir: Directory, key: Option<SuppliedKey>)
    requires Accepts(rt, dir, key)
    ensures
      var claims, read := RecordIn(rt, FilesIn(dir)).value.claims, ReadOf(rt, FilesIn(dir), ChainObservation);
      && ReadsText(claims.recordType, "org.peacprotocol/payment")
      && claims.commerce.Some? && claims.evidence.Some? && read.Admitted?
      && ObservationMeans(claims.commerce.value, claims.evidence.value, read.value)
  {
    hide FilesIn, RecordIn, KeyAgrees, NativeAgrees, Consistent, DocumentHolds, ReadOf, ObservationMeans, ReadsText;
    var files, claims := FilesIn(dir), RecordIn(rt, FilesIn(dir)).value.claims;
    ObservationIsThere(rt, files, claims);
    GroupsAreThere(rt, files, claims);
    TypeIsPayment(rt, files, claims);
    DocumentMeans(
      claims.commerce.value, claims.evidence.value, ReadOf(rt, files, OriginResultBinding),
      ReadOf(rt, files, ChainObservation).value);
  }

  lemma TypeIsPayment(rt: Runtime, files: Files, claims: Claims)
    requires Consistent(rt, files, claims)
    ensures ReadsText(claims.recordType, "org.peacprotocol/payment")
  {
    hide IntegrityHolds, SchemasHold, StateOf, Conforms, DocumentHolds, Get, ReadOf;
  }

  /** The file and the digest under this name are both there or both not; a document there is admitted, follows its
      schema, and the digest is that of its canonical text. */
  predicate DocumentBound(rt: Runtime, files: Files, evidence: Json, name: string, artifact: Artifact) {
    && (artifact in files <==> Under(evidence, name).Some?)
    && (artifact in files ==>
          && var read := ReadOf(rt, files, artifact);
          && read.Admitted? && rt.schemaOk(artifact, read.value)
          && Canonicalize(read.value).Some?
          && Under(evidence, name) == Stated(rt.hash(rt.encode(Canonicalize(read.value).value))))
  }

  /** The file and the digest under this name are both there or both not, and the digest is that of its bytes. */
  predicate TextBound(rt: Runtime, files: Files, evidence: Json, name: string, artifact: Artifact) {
    && (artifact in files <==> Under(evidence, name).Some?)
    && (artifact in files ==> Under(evidence, name) == Stated(rt.hash(files[artifact])))
  }

  predicate AllBound(rt: Runtime, files: Files, evidence: Json) {
    && DocumentBound(rt, files, evidence, "request_binding_digest", RequestBinding)
    && DocumentBound(rt, files, evidence, "origin_result_binding_digest", OriginResultBinding)
    && DocumentBound(rt, files, evidence, "chain_observation_digest", ChainObservation)
    && TextBound(rt, files, evidence, "payment_required_digest", PaymentRequiredText)
    && TextBound(rt, files, evidence, "payment_signature_digest", PaymentSignatureText)
    && TextBound(rt, files, evidence, "payment_response_digest", PaymentResponseText)
  }

  /** The body beside the record is the one its result binding names. */
  predicate BodyIsBound(rt: Runtime, files: Files) {
    OriginResultBinding in files ==>
      && OriginResultBody in files && ReadOf(rt, files, OriginResultBinding).Admitted?
      && Under(ReadOf(rt, files, OriginResultBinding).value, "bodyDigest") == Stated(rt.hash(files[OriginResultBody]))
  }

  lemma DigestKeys()
    ensures Spells(RequestBindingDigestKey(), "request_binding_digest")
    ensures Spells(OriginResultBindingDigestKey(), "origin_result_binding_digest")
    ensures Spells(ChainObservationDigestKey(), "chain_observation_digest")
    ensures Spells(PaymentRequiredDigestKey(), "payment_required_digest")
    ensures Spells(PaymentSignatureDigestKey(), "payment_signature_digest")
    ensures Spells(PaymentResponseDigestKey(), "payment_response_digest")
    ensures Spells(BodyDigestKey(), "bodyDigest")
  {
  }

  lemma JsonIsBound(rt: Runtime, files: Files, evidence: Json, name: string, key: Text, artifact: Artifact)
    requires Spells(key, name)
    requires JsonBound(rt, files, artifact, Get(evidence, key)) && FollowsSchema(rt, files, artifact)
    ensures DocumentBound(rt, files, evidence, name, artifact)
  {
    hide Get, Under, StrictRead, Canonicalize;
    UnderKey(evidence, name, key);
  }

  lemma TextIsBound(rt: Runtime, files: Files, evidence: Json, name: string, key: Text, artifact: Artifact)
    requires Spells(key, name) && BytesBound(rt, files, artifact, Get(evidence, key))
    ensures TextBound(rt, files, evidence, name, artifact)
  {
    hide Get, Under;
    UnderKey(evidence, name, key);
  }

  lemma IntegrityBinds(rt: Runtime, files: Files, evidence: Json)
    requires IntegrityHolds(rt, files, evidence) && SchemasHold(rt, files)
    ensures AllBound(rt, files, evidence) && BodyIsBound(rt, files)
  {
    hide JsonBound, FollowsSchema, BytesBound, DocumentBound, TextBound, Spells, Get, Under, StrictRead,
      RequestBindingDigestKey, OriginResultBindingDigestKey, ChainObservationDigestKey, PaymentRequiredDigestKey,
      PaymentSignatureDigestKey, PaymentResponseDigestKey, BodyDigestKey;
    DigestKeys();
    JsonIsBound(rt, files, evidence, "request_binding_digest", RequestBindingDigestKey(), RequestBinding);
    JsonIsBound(
      rt, files, evidence, "origin_result_binding_digest", OriginResultBindingDigestKey(), OriginResultBinding);
    JsonIsBound(rt, files, evidence, "chain_observation_digest", ChainObservationDigestKey(), ChainObservation);
    TextIsBound(rt, files, evidence, "payment_required_digest", PaymentRequiredDigestKey(), PaymentRequiredText);
    TextIsBound(rt, files, evidence, "payment_signature_digest", PaymentSignatureDigestKey(), PaymentSignatureText);
    TextIsBound(rt, files, evidence, "payment_response_digest", PaymentResponseDigestKey(), PaymentResponseText);
    if OriginResultBinding in files && ReadOf(rt, files, OriginResultBinding).Admitted? {
      UnderKey(ReadOf(rt, files, OriginResultBinding).value, "bodyDigest", BodyDigestKey());
    }
  }

  function StateWord(state: TerminalState): string {
    match state
    case WriteAttempted => "response_write_attempted"
    case RejectedPreVerification => "payment_rejected_" + "pre_verification"
    case VerificationRefused => "verification_rejected"
    case HandlerErrorStatus => "handler_error_status"
    case SettlementFailed => "settlement_failed"
    case PaymentRequiredOnly => "payment_required_only"
  }

  lemma StateSpelled(state: TerminalState)
    ensures Spells(StateText(state), StateWord(state))
  {
    if state == RejectedPreVerification {
      var a, b := Lit("payment_rejected_"), Lit("pre_verification");
      assert Spells(a, "payment_rejected_") && Spells(b, "pre_verification");
      SpelledJoin(a, "payment_rejected_", b, "pre_verification");
    }
  }

  lemma StateRead(value: Option<Json>, state: TerminalState)
    requires StateOf(value) == Some(state)
    ensures ReadsText(value, StateWord(state))
  {
    StateSpelled(state);
    hide StateText, StateWord, Spells;
  }

  /** The supplied key is one of this algorithm, and it is the record's own key and issuer. */
  predicate KeyIsTheRecords(key: SuppliedKey, record: Verified) {
    && Spells(key.algorithm, "Ed25519")
    && key.kid == record.kid
    && record.claims.issuer == Some(Str(key.issuer))
  }

  /** What acceptance checked of the files: nothing refused or unreadable; a record that verifies, under the supplied
      key when there is one; every digest under its name, every schema and the body; the terminal state the record
      names, with the artifacts that state calls for, and the native artifacts beside it. */
  lemma AcceptedFiles(rt: Runtime, dir: Directory, key: Option<SuppliedKey>)
    requires Accepts(rt, dir, key)
    ensures !dir.containerRefused && forall a | a in EVIDENCE_ARTIFACTS :: !dir.read(a).Unreadable?
    ensures RecordJws in FilesIn(dir) && rt.decode(FilesIn(dir)[RecordJws]).Some?
    ensures rt.verifyRecord(rt.decode(FilesIn(dir)[RecordJws]).value).Some?
    ensures
      var files, record := FilesIn(dir), rt.verifyRecord(rt.decode(FilesIn(dir)[RecordJws]).value).value;
      && (key.Some? ==> KeyIsTheRecords(key.value, record))
      && record.claims.evidence.Some?
      && var evidence, doc := record.claims.evidence.value, ReadOf(rt, files, ChainObservation);
      && AllBound(rt, files, evidence) && BodyIsBound(rt, files)
      && doc.Admitted?
      && (exists state ::
            ReadsText(Under(evidence, "terminal_state"), StateWord(state)) && Conforms(state, files.Keys)
            && rt.nativeOk(dir, record.claims, doc.value, state))
  {
    hide FilesIn, Consistent, ReadOf, Conforms, AllBound, BodyIsBound, StateWord, StateOf, Under, ReadsText, Get,
      EVIDENCE_ARTIFACTS;
    var files, record := FilesIn(dir), RecordIn(rt, FilesIn(dir)).value;
    GroupsAreThere(rt, files, record.claims);
    ObservationIsThere(rt, files, record.claims);
    ConsistentFiles(rt, files, record.claims);
    var state := StateOf(Get(record.claims.evidence.value, TerminalStateKey())).value;
    StateRead(Get(record.claims.evidence.value, TerminalStateKey()), state);
    AgreementKeys();
    UnderKey(record.claims.evidence.value, "terminal_state", TerminalStateKey());
    if key.Some? {
      KeyRead(key.value, record);
    }
  }

  lemma ConsistentFiles(rt: Runtime, files: Files, claims: Claims)
    requires Consistent(rt, files, claims)
    ensures AllBound(rt, files, claims.evidence.value) && BodyIsBound(rt, files)
    ensures StateOf(Get(claims.evidence.value, TerminalStateKey())).Some?
    ensures Conforms(StateOf(Get(claims.evidence.value, TerminalStateKey())).value, files.Keys)
  {
    hide IntegrityHolds, SchemasHold, StateOf, Conforms, DocumentHolds, Get, ReadOf, AllBound, BodyIsBound;
    IntegrityBinds(rt, files, claims.evidence.value);
  }

  lemma KeyRead(key: SuppliedKey, record: Verified)
    requires KeyAgrees(Some(key), record)
    ensures KeyIsTheRecords(key, record)
  {
  }
}
