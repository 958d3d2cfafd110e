/** What acceptance tells a reader across documents, which no one check says. */
module EvidenceMeaning {
  import opened Wrappers
  import opened CodeUnits
  import opened Json
  import opened Lifecycle
  import opened Presence
  import opened StrictJson
  import opened Observation
  import opened Documents
  import opened Evidence
  import Transfers

  /** The observation of an accepted directory, which every terminal state requires. */
  lemma ObservationIsThere(rt: Runtime, files: Files, claims: Claims)
    requires Consistent(rt, files, claims)
    ensures ReadOf(rt, files, ChainObservation).Admitted?
    ensures DocumentHolds(
      claims.commerce.value, claims.evidence.value, ReadOf(rt, files, OriginResultBinding),
      ReadOf(rt, files, ChainObservation).value)
  {
    hide DocumentHolds, SchemasHold, StateOf, Get, StrictRead, DocumentDigest;
    var state := StateOf(Get(claims.evidence.value, TerminalStateKey())).value;
    assert !Violates(state, files.Keys, ChainObservation);
    assert JsonBound(rt, files, ChainObservation, Get(claims.evidence.value, ChainObservationDigestKey()));
  }

  lemma GroupsAreThere(rt: Runtime, files: Files, claims: Claims)
    requires Consistent(rt, files, claims)
    ensures claims.commerce.Some? && claims.evidence.Some?
  {
  }

  lemma AgreementOf(commerce: Json, evidence: Json, binding: DocumentRead, doc: Json)
    requires DocumentHolds(commerce, evidence, binding, doc)
    ensures ObjectAt(doc, PaymentExpectationKey()).Some?
    ensures DocumentsAgree(commerce, evidence, ObjectAt(doc, PaymentExpectationKey()).value, doc)
    ensures ResultAgrees(binding, doc)
  {
    hide ObjectAt, HeadHolds, SettlementFacts, RpcFacts, ComparisonFacts, DocumentsAgree, ResultAgrees;
  }

  /** Accepted evidence hangs together: the record, the observation and the files name one terminal state, one
      settlement response and one result body, and what is absent from one is absent from all. */
  lemma AcceptedEvidenceHangsTogether(rt: Runtime, dir: Directory, key: Option<SuppliedKey>)
    requires Accepts(rt, dir, key)
    ensures
      var files, claims := FilesIn(dir), RecordIn(rt, FilesIn(dir)).value.claims;
      && claims.evidence.Some? && ReadOf(rt, files, ChainObservation).Admitted?
      && var doc := ReadOf(rt, files, ChainObservation).value;
      && Get(doc, TerminalStateKey()) == Get(claims.evidence.value, TerminalStateKey())
      && (PaymentResponseText in files ==>
            Get(doc, SettlementResponseDigestKey()) == Stated(rt.hash(files[PaymentResponseText])))
      && (PaymentResponseText !in files ==> Get(doc, SettlementResponseDigestKey()).None?)
      && (OriginResultBody in files ==>
            Get(doc, ServiceResultDigestKey()) == Stated(rt.hash(files[OriginResultBody])))
      && (OriginResultBody !in files ==> Get(doc, ServiceResultDigestKey()).None?)
  {
    hide FilesIn, RecordIn, KeyAgrees, NativeAgrees, Consistent;
    GroupsAreThere(rt, FilesIn(dir), RecordIn(rt, FilesIn(dir)).value.claims);
    ConsistentHangsTogether(rt, FilesIn(dir), RecordIn(rt, FilesIn(dir)).value.claims);
  }

  lemma ConsistentHangsTogether(rt: Runtime, files: Files, claims: Claims)
    requires Consistent(rt, files, claims)
    ensures ReadOf(rt, files, ChainObservation).Admitted?
    ensures
      var doc := ReadOf(rt, files, ChainObservation).value;
      && Get(doc, TerminalStateKey()) == Get(claims.evidence.value, TerminalStateKey())
      && (PaymentResponseText in files ==>
            Get(doc, SettlementResponseDigestKey()) == Stated(rt.hash(files[PaymentResponseText])))
      && (PaymentResponseText !in files ==> Get(doc, SettlementResponseDigestKey()).None?)
      && (OriginResultBody in files ==>
            Get(doc, ServiceResultDigestKey()) == Stated(rt.hash(files[OriginResultBody])))
      && (OriginResultBody !in files ==> Get(doc, ServiceResultDigestKey()).None?)
  {
    ObservationIsThere(rt, files, claims);
    ResultsPaired(rt, files, claims);
    hide DocumentHolds, SchemasHold, StateOf, Get, ReadOf, Conforms, JsonBound, ObjectAt;
    var doc := ReadOf(rt, files, ChainObservation).value;
    AgreementOf(claims.commerce.value, claims.evidence.value, ReadOf(rt, files, OriginResultBinding), doc);
  }

  lemma ResultsPaired(rt: Runtime, files: Files, claims: Claims)
    requires Consistent(rt, files, claims)
    ensures OriginResultBody in files <==> OriginResultBinding in files
    ensures OriginResultBinding in files <==> !ReadOf(rt, files, OriginResultBinding).Missing?
  {
    hide DocumentHolds, SchemasHold, IntegrityHolds, StateOf, Get, StrictRead;
    var state := StateOf(Get(claims.evidence.value, TerminalStateKey())).value;
    assert !Violates(state, files.Keys, OriginResultBody) && !Violates(state, files.Keys, OriginResultBinding);
  }

  /** The RPC account of a document and the transfer in it. */
  function TransferIn(doc: Json): Option<Json> {
    var rpc := ObjectAt(doc, RpcObservationKey());
    if rpc.Some? then Get(rpc.value, TokenTransferKey()) else None
  }

  predicate SameAddressText(a: Option<Json>, b: Option<Json>) {
    IsText(a) && IsText(b) && Transfers.SameAddress(a.value.text, b.value.text)
  }

  /** A recorded match in accepted evidence is the recorded payment: the transfer moved the record's own amount of
      the record's own asset from the expected payer to the expected recipient, in the transaction the settlement
      reporter named for a settlement it said succeeded. */
  lemma AcceptedMatchIsTheRecordedPayment(rt: Runtime, dir: Directory, key: Option<SuppliedKey>)
    requires Accepts(rt, dir, key)
    requires
      var read := ReadOf(rt, FilesIn(dir), ChainObservation);
      && read.Admitted? && ObjectAt(read.value, ComparisonKey()).Some?
      && Get(ObjectAt(read.value, ComparisonKey()).value, TransferEventKey()) == Stated(VerdictText(Match))
    ensures
      var claims := RecordIn(rt, FilesIn(dir)).value.claims;
      var doc := ReadOf(rt, FilesIn(dir), ChainObservation).value;
      && claims.commerce.Some?
      && MatchMeans(claims.commerce.value, doc)
  {
    hide FilesIn, RecordIn, KeyAgrees, NativeAgrees, Consistent, DocumentHolds, Get, ObjectAt, MatchMeans, ReadOf;
    var files, claims := FilesIn(dir), RecordIn(rt, FilesIn(dir)).value.claims;
    ObservationIsThere(rt, files, claims);
    GroupsAreThere(rt, files, claims);
    DocumentMatchMeans(
      claims.commerce.value, claims.evidence.value, ReadOf(rt, files, OriginResultBinding),
      ReadOf(rt, files, ChainObservation).value);
  }

  predicate MatchMeans(commerce: Json, doc: Json) {
    var expectation, report := ObjectAt(doc, PaymentExpectationKey()), ObjectAt(doc, ChainObservationKey());
    var rpc, transfer := ObjectAt(doc, RpcObservationKey()), TransferIn(doc);
    && expectation.Some? && report.Some? && rpc.Some? && transfer.Some?
    && Get(transfer.value, TransferAmountKey()) == Get(commerce, AmountMinorKey())
    && SameAddressText(Get(transfer.value, TokenContractKey()), Get(commerce, AssetKey()))
    && SameAddressText(Get(transfer.value, TransferFromKey()), Get(expectation.value, PayerKey()))
    && SameAddressText(Get(transfer.value, TransferToKey()), Get(expectation.value, RecipientKey()))
    && Get(report.value, SettlementOutcomeKey()) == Stated(OutcomeText(SettlementSucceeded))
    && Get(rpc.value, TransactionHashKey()) == Get(report.value, TransactionHashKey())
  }

  lemma VerdictsApart(v: Verdict)
    ensures VerdictText(v) == VerdictText(Match) <==> v == Match
  {
    assert |Lit("match")| == 5 && |Lit("mismatch")| == 8 && |Lit("not_evaluated")| == 13;
  }

  /** A recorded match is a recomputed one. */
  lemma RecordedMatch(recorded: Json, c: Comparison)
    requires Records(recorded, c) && Get(recorded, TransferEventKey()) == Stated(VerdictText(Match))
    ensures c.transferEvent == Match
  {
    hide Get;
    assert ComparisonParts(c)[5].name == TransferEventKey();
    VerdictsApart(c.transferEvent);
  }

  lemma MatchReads(terms: Terms, network: Option<Json>, rpc: Option<RpcView>)
    requires Compare(terms, network, rpc).Some? && Compare(terms, network, rpc).value.transferEvent == Match
    ensures rpc.Some? && rpc.value.transfer.Some?
    ensures
      var t := rpc.value.transfer.value;
      && BothText(t.tokenContract, terms.asset) && SameText(t.tokenContract, terms.asset)
      && BothText(t.transferFrom, terms.payer) && SameText(t.transferFrom, terms.payer)
      && BothText(t.transferTo, terms.recipient) && SameText(t.transferTo, terms.recipient)
      && StrictlyEqual(t.transferAmount, terms.amount)
  {
  }

  lemma DocumentMatchMeans(commerce: Json, evidence: Json, binding: DocumentRead, doc: Json)
    requires DocumentHolds(commerce, evidence, binding, doc)
    requires ObjectAt(doc, ComparisonKey()).Some?
    requires Get(ObjectAt(doc, ComparisonKey()).value, TransferEventKey()) == Stated(VerdictText(Match))
    ensures MatchMeans(commerce, doc)
  {
    hide Get, Records, VerdictText, OutcomeText, HeadHolds, Compare, ObjectAt;
    var expectation, report := ObjectAt(doc, PaymentExpectationKey()).value, ObjectAt(doc, ChainObservationKey()).value;
    var rpc := ObjectAt(doc, RpcObservationKey());
    RecordedMatch(ObjectAt(doc, ComparisonKey()).value, CompareIn(expectation, report, rpc).value);
    MatchReads(
      TermsIn(expectation), Get(report, NetworkReportedKey()),
      if rpc.Some? then Some(RpcViewIn(rpc.value)) else None);
  }
}
