/** Independent verification of an evidence directory: src/flow/verify-evidence.ts. The method reads, checks and
    reports as the source does; `Accepts` says what a report without a failed check amounts to. */
module Evidence {
  import opened Wrappers
  import opened CodeUnits
  import opened Json
  import opened Lifecycle
  import opened Presence
  import opened Scanning
  import opened StrictJson
  import opened Jcs
  import opened Observation
  import opened Documents

  function PaymentRecordType(): Text { Lit("org.peacprotocol/payment") }
  function PublicKeyAlgorithm(): Text { Lit("Ed25519") }
  function ObservedScheme(): Text { Lit("exact") }
  function RequestBindingDigestKey(): Text { Lit("request_binding_digest") }
  function OriginResultBindingDigestKey(): Text { Lit("origin_result_binding_digest") }
  function ChainObservationDigestKey(): Text { Lit("chain_observation_digest") }
  function PaymentRequiredDigestKey(): Text { Lit("payment_required_digest") }
  function PaymentSignatureDigestKey(): Text { Lit("payment_signature_digest") }
  function PaymentResponseDigestKey(): Text { Lit("payment_response_digest") }
  function AmountMinorKey(): Text { Lit("amount_minor") }

  // ---------------------------------------------------------------- what is outside this model

  /** What a verified record says: its issuer, its type, and the two extension groups this flow reads. */
  datatype Claims = Claims(issuer: Option<Json>, recordType: Option<Json>, commerce: Option<Json>,
    evidence: Option<Json>)

  datatype Verified = Verified(kid: Text, claims: Claims)

  datatype ArtifactRead = Holds(bytes: Bytes) | Absent | Unreadable

  datatype Directory = Directory(containerRefused: bool, read: Artifact -> ArtifactRead)

  /** The hash, the codecs, the record primitive under the supplied key, the committed schemas, and the agreement
      of the captured native artifacts. */
  datatype Runtime = Runtime(
    hash: Bytes -> Text,
    encode: Text -> Bytes,
    decode: Bytes -> Option<Text>,
    parse: Text -> Option<Json>,
    verifyRecord: Text -> Option<Verified>,
    schemaOk: (Artifact, Json) -> bool,
    nativeOk: (Directory, Claims, Json, TerminalState) -> bool)

  datatype SuppliedKey = SuppliedKey(algorithm: Text, kid: Text, issuer: Text)

  // ---------------------------------------------------------------- reports

  datatype Category = Integrity | Structure | Consistency | Native

  datatype Check = Check(name: string, category: Category, ok: bool)

  /** A report, or the exception a document without a canonical form raises. */
  datatype VerificationReport = Reported(checks: seq<Check>) | Aborted

  predicate AllOk(checks: seq<Check>) {
    forall check | check in checks :: check.ok
  }

  predicate IsOk(report: VerificationReport) {
    report.Reported? && AllOk(report.checks)
  }

  function Refusal(name: string, category: Category): VerificationReport {
    Reported([Check(name, category, false)])
  }

  // ---------------------------------------------------------------- what holds of a directory

  type Files = map<Artifact, Bytes>

  function FilesIn(dir: Directory): Files {
    map a | a in EVIDENCE_ARTIFACTS && dir.read(a).Holds? :: dir.read(a).bytes
  }

  /** The digest of a document over its canonical bytes; none when it has no canonical form. */
  function DocumentDigest(rt: Runtime, j: Json): Option<Text> {
    match Canonicalize(j)
    case None => None
    case Some(text) => Some(rt.hash(rt.encode(text)))
  }

  datatype DocumentRead = Missing | Admitted(value: Json) | NotAdmitted(refusal: StrictJsonRefusal)

  function ReadOf(rt: Runtime, files: Files, artifact: Artifact): DocumentRead {
    if artifact !in files then Missing
    else
      match StrictRead(rt.decode, rt.parse, files[artifact])
      case Parsed(value) => Admitted(value)
      case Refused(refusal) => NotAdmitted(refusal)
  }

  /** The record binds the document there is, or neither exists. */
  predicate JsonBound(rt: Runtime, files: Files, artifact: Artifact, claimed: Option<Json>) {
    match claimed
    case None => artifact !in files
    case Some(claim) =>
      var read := ReadOf(rt, files, artifact);
      read.Admitted? && DocumentDigest(rt, read.value).Some? && claim == Str(DocumentDigest(rt, read.value).value)
  }

  predicate BytesBound(rt: Runtime, files: Files, artifact: Artifact, claimed: Option<Json>) {
    match claimed
    case None => artifact !in files
    case Some(claim) => artifact in files && claim == Str(rt.hash(files[artifact]))
  }

  predicate FollowsSchema(rt: Runtime, files: Files, artifact: Artifact) {
    var read := ReadOf(rt, files, artifact);
    read.Admitted? ==> rt.schemaOk(artifact, read.value)
  }

  /** The body is the one the result binding names. */
  predicate BodyBound(rt: Runtime, files: Files) {
    match ReadOf(rt, files, OriginResultBinding)
    case Missing => true
    case NotAdmitted(_) => false
    case Admitted(binding) =>
      && binding.Obj? && OriginResultBody in files
      && Get(binding, BodyDigestKey()) == Stated(rt.hash(files[OriginResultBody]))
  }

  predicate KeyAgrees(supplied: Option<SuppliedKey>, record: Verified) {
    supplied.Some? ==>
      && supplied.value.algorithm == PublicKeyAlgorithm()
      && supplied.value.kid == record.kid
      && record.claims.issuer == Stated(supplied.value.issuer)
  }

  function StateOf(value: Option<Json>): Option<TerminalState> {
    if value == Stated(StateText(WriteAttempted)) then Some(WriteAttempted)
    else if value == Stated(StateText(RejectedPreVerification)) then Some(RejectedPreVerification)
    else if value == Stated(StateText(VerificationRefused)) then Some(VerificationRefused)
    else if value == Stated(StateText(HandlerErrorStatus)) then Some(HandlerErrorStatus)
    else if value == Stated(StateText(SettlementFailed)) then Some(SettlementFailed)
    else if value == Stated(StateText(PaymentRequiredOnly)) then Some(PaymentRequiredOnly)
    else None
  }

  function ObjectAt(j: Json, name: Text): Option<Json> {
    var value := Get(j, name);
    if value.Some? && value.value.Obj? then value else None
  }

  /** A settlement succeeded exactly when a transaction is recorded for it. */
  predicate SettlementFacts(report: Json) {
    Get(report, SettlementOutcomeKey()) == Stated(OutcomeText(SettlementSucceeded)) <==>
      IsText(Get(report, TransactionHashKey()))
  }

  /** The RPC account is about that transaction, and an inclusion claim carries its block. */
  predicate RpcFacts(report: Json, rpc: Json) {
    && IsText(Get(report, TransactionHashKey())) && Get(rpc, TransactionHashKey()) == Get(report, TransactionHashKey())
    && (Get(rpc, ObservationLevelKey()) == Stated(InclusionText()) ==>
          IsText(Get(rpc, BlockNumberKey())) && IsText(Get(rpc, BlockHashKey())))
  }

  function CompareIn(expectation: Json, report: Json, rpc: Option<Json>): Option<Comparison> {
    Compare(
      TermsIn(expectation), Get(report, NetworkReportedKey()), if rpc.Some? then Some(RpcViewIn(rpc.value)) else None)
  }

  /** The recorded verdicts are the ones the rest of the document gives. */
  predicate ComparisonFacts(expectation: Json, report: Json, rpc: Option<Json>, recorded: Option<Json>) {
    && recorded.Some?
    && var c := CompareIn(expectation, report, rpc);
    && c.Some? && Records(recorded.value, c.value)
    && (rpc.Some? && IsText(Get(rpc.value, ReceiptStatusKey())) ==> c.value.transferEvent != NotEvaluated)
  }

  predicate AgreeOnValue(a: Option<Json>, b: Option<Json>) {
    IsText(a) && IsText(b) && a == b
  }

  predicate AgreeOnDigest(a: Option<Json>, b: Option<Json>) {
    (a.None? && b.None?) || AgreeOnValue(a, b)
  }

  predicate ResultAgrees(binding: DocumentRead, doc: Json) {
    match binding
    case Missing => AgreeOnDigest(None, Get(doc, ServiceResultDigestKey()))
    case NotAdmitted(_) => true
    case Admitted(value) =>
      Get(value, BodyDigestKey()).Some? ==>
        AgreeOnDigest(Get(value, BodyDigestKey()), Get(doc, ServiceResultDigestKey()))
  }

  /** The observation and the record state the same things where they state them twice. */
  predicate DocumentsAgree(commerce: Json, evidence: Json, expectation: Json, doc: Json) {
    && AgreeOnValue(Get(evidence, NetworkKey()), Get(expectation, NetworkKey()))
    && AgreeOnValue(Get(evidence, TerminalStateKey()), Get(doc, TerminalStateKey()))
    && AgreeOnValue(Get(commerce, AssetKey()), Get(expectation, AssetKey()))
    && AgreeOnValue(Get(commerce, AmountMinorKey()), Get(expectation, AmountBaseUnitsKey()))
    && AgreeOnDigest(Get(evidence, PaymentResponseDigestKey()), Get(doc, SettlementResponseDigestKey()))
  }

  predicate HeadHolds(doc: Json) {
    Get(doc, ProfileKey()) == Stated(ChainObservationProfileText()) && Get(doc, SchemeKey()) == Stated(ObservedScheme())
  }

  /** What holds once the expectation and the settlement report are both there. */
  predicate PartsHold(
    commerce: Json, evidence: Json, binding: DocumentRead, doc: Json, expectation: Json, report: Json,
    rpc: Option<Json>)
  {
    && SettlementFacts(report)
    && (rpc.Some? ==> RpcFacts(report, rpc.value))
    && ComparisonFacts(expectation, report, rpc, ObjectAt(doc, ComparisonKey()))
    && DocumentsAgree(commerce, evidence, expectation, doc)
    && ResultAgrees(binding, doc)
  }

  predicate DocumentHolds(commerce: Json, evidence: Json, binding: DocumentRead, doc: Json) {
    var expectation, report := ObjectAt(doc, PaymentExpectationKey()), ObjectAt(doc, ChainObservationKey());
    && HeadHolds(doc)
    && expectation.Some? && report.Some?
    && PartsHold(commerce, evidence, binding, doc, expectation.value, report.value, ObjectAt(doc, RpcObservationKey()))
  }

  lemma DocumentHoldsWhen(commerce: Json, evidence: Json, binding: DocumentRead, doc: Json)
    ensures DocumentHolds(commerce, evidence, binding, doc) <==>
      && HeadHolds(doc)
      && ObjectAt(doc, PaymentExpectationKey()).Some? && ObjectAt(doc, ChainObservationKey()).Some?
      && PartsHold(
           commerce, evidence, binding, doc, ObjectAt(doc, PaymentExpectationKey()).value,
           ObjectAt(doc, ChainObservationKey()).value, ObjectAt(doc, RpcObservationKey()))
  {
    hide HeadHolds, PartsHold, ObjectAt;
  }

  // ---------------------------------------------------------------- where verification throws

  /** A digest is claimed for a sidecar that was admitted and has no canonical form. */
  predicate JsonThrows(rt: Runtime, files: Files, artifact: Artifact, claimed: Option<Json>) {
    var read := ReadOf(rt, files, artifact);
    claimed.Some? && read.Admitted? && DocumentDigest(rt, read.value).None?
  }

  predicate IntegrityThrows(rt: Runtime, files: Files, evidence: Json) {
    || JsonThrows(rt, files, RequestBinding, Get(evidence, RequestBindingDigestKey()))
    || JsonThrows(rt, files, OriginResultBinding, Get(evidence, OriginResultBindingDigestKey()))
    || JsonThrows(rt, files, ChainObservation, Get(evidence, ChainObservationDigestKey()))
  }

  /** A comparison is recorded, and recomputing it meets a member that is not the text it has to be. */
  predicate ComparisonThrows(expectation: Json, report: Json, rpc: Option<Json>, recorded: Option<Json>) {
    recorded.Some? && CompareIn(expectation, report, rpc).None?
  }

  predicate DocumentThrows(doc: Json) {
    var expectation, report := ObjectAt(doc, PaymentExpectationKey()), ObjectAt(doc, ChainObservationKey());
    && expectation.Some? && report.Some?
    && ComparisonThrows(
         expectation.value, report.value, ObjectAt(doc, RpcObservationKey()), ObjectAt(doc, ComparisonKey()))
  }

  lemma DocumentThrowsWhen(doc: Json)
    ensures DocumentThrows(doc) <==>
      && ObjectAt(doc, PaymentExpectationKey()).Some? && ObjectAt(doc, ChainObservationKey()).Some?
      && ComparisonThrows(
           ObjectAt(doc, PaymentExpectationKey()).value, ObjectAt(doc, ChainObservationKey()).value,
           ObjectAt(doc, RpcObservationKey()), ObjectAt(doc, ComparisonKey()))
  {
    hide ComparisonThrows, ObjectAt;
  }

  /** Verifying files under these claims ends in an exception: of a digest, or, once every digest could be computed
      and the state is known, of the comparison. */
  predicate ClaimsThrow(rt: Runtime, files: Files, claims: Claims) {
    && claims.commerce.Some? && claims.evidence.Some?
    && (IntegrityThrows(rt, files, claims.evidence.value)
        || (StateOf(Get(claims.evidence.value, TerminalStateKey())).Some?
            && var read := ReadOf(rt, files, ChainObservation);
            read.Admitted? && read.value.Obj? && DocumentThrows(read.value)))
  }

  /** The directory is readable and its record verifies, and what follows throws. */
  predicate Throws(rt: Runtime, dir: Directory) {
    && !dir.containerRefused
    && (forall a | a in EVIDENCE_ARTIFACTS :: !dir.read(a).Unreadable?)
    && var record := RecordIn(rt, FilesIn(dir));
    && record.Some?
    && ClaimsThrow(rt, FilesIn(dir), record.value.claims)
  }

  /** Every digest the record binds is recomputed from a file, and no file goes unbound. */
  predicate IntegrityHolds(rt: Runtime, files: Files, evidence: Json) {
    && JsonBound(rt, files, RequestBinding, Get(evidence, RequestBindingDigestKey()))
    && JsonBound(rt, files, OriginResultBinding, Get(evidence, OriginResultBindingDigestKey()))
    && JsonBound(rt, files, ChainObservation, Get(evidence, ChainObservationDigestKey()))
    && BytesBound(rt, files, PaymentRequiredText, Get(evidence, PaymentRequiredDigestKey()))
    && BytesBound(rt, files, PaymentSignatureText, Get(evidence, PaymentSignatureDigestKey()))
    && BytesBound(rt, files, PaymentResponseText, Get(evidence, PaymentResponseDigestKey()))
    && BodyBound(rt, files)
  }

  predicate SchemasHold(rt: Runtime, files: Files) {
    && FollowsSchema(rt, files, RequestBinding)
    && FollowsSchema(rt, files, OriginResultBinding)
    && FollowsSchema(rt, files, ChainObservation)
  }

  /** What a sound record says, and what the files must be beside it: everything but the native agreement. */
  predicate Consistent(rt: Runtime, files: Files, claims: Claims) {
    && claims.recordType == Stated(PaymentRecordType())
    && claims.commerce.Some? && claims.evidence.Some?
    && var evidence := claims.evidence.value;
    && IntegrityHolds(rt, files, evidence)
    && SchemasHold(rt, files)
    && StateOf(Get(evidence, TerminalStateKey())).Some?
    && Conforms(StateOf(Get(evidence, TerminalStateKey())).value, files.Keys)
    && var read := ReadOf(rt, files, ChainObservation);
    && (read.Admitted? ==>
          && read.value.Obj?
          && DocumentHolds(
               claims.commerce.value, evidence, ReadOf(rt, files, OriginResultBinding), read.value))
  }

  /** The record in a directory, if it verifies under the supplied key. */
  function RecordIn(rt: Runtime, files: Files): Option<Verified> {
    if RecordJws !in files || rt.decode(files[RecordJws]).None? then None
    else rt.verifyRecord(rt.decode(files[RecordJws]).value)
  }

  predicate NativeAgrees(rt: Runtime, dir: Directory, claims: Claims) {
    claims.evidence.Some? ==>
      var state := StateOf(Get(claims.evidence.value, TerminalStateKey()));
      var read := ReadOf(rt, FilesIn(dir), ChainObservation);
      state.Some? && read.Admitted? ==> rt.nativeOk(dir, claims, read.value, state.value)
  }

  predicate Accepts(rt: Runtime, dir: Directory, supplied: Option<SuppliedKey>) {
    && !dir.containerRefused
    && (forall a | a in EVIDENCE_ARTIFACTS :: !dir.read(a).Unreadable?)
    && var record := RecordIn(rt, FilesIn(dir));
    && record.Some?
    && KeyAgrees(supplied, record.value)
    && Consistent(rt, FilesIn(dir), record.value.claims)
    && NativeAgrees(rt, dir, record.value.claims)
  }
}
