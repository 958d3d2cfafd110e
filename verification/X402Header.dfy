/** The staged capture of an observed payment field (src/x402-header.ts): stages in order, the first refusal
    final, and what a capture may be promoted to. */
module X402Header {
  import opened Wrappers
  import opened CodeUnits
  import opened Json
  import opened Scanning
  import Grammar
  import Jcs
  import JcsPrinting
  import JcsStrings
  import ScanCompleteness
  import StrictJson

  datatype HeaderName = PaymentRequired | PaymentSignature | PaymentResponse

  datatype Stage = Transport | JsonStage | DuplicateMembers | UpstreamSchema | SchemePayload | Extensions

  function Position(s: Stage): nat {
    match s
    case Transport => 0
    case JsonStage => 1
    case DuplicateMembers => 2
    case UpstreamSchema => 3
    case SchemePayload => 4
    case Extensions => 5
  }

  datatype StageStatus = Accepted | Rejected | NotEvaluated

  const MAX_ENCODED: nat := 16384
  const MAX_DECODED: nat := 12288
  const MAX_ISSUES: nat := 8
  const MAX_PATH_DEPTH: nat := 8
  const MAX_SEGMENT: nat := 64
  const MAX_SERIALIZED: nat := 1024

  // ---------------------------------------------------------------- diagnostics

  /** Where a diagnostic came from: a stage, or this profile's own structural check. */
  datatype DiagnosticStage = At(stage: Stage) | LocalStructural

  /** `Unspecified` stands for any code outside the closed vocabulary. */
  datatype DiagnosticCode = Known(code: Text) | Unspecified

  datatype Diagnostic = Diagnostic(stage: DiagnosticStage, code: DiagnosticCode, path: seq<Text>)

  /** One issue as a validator reports it. */
  datatype Issue = Issue(code: Option<Text>, path: seq<Text>)

  predicate IsSafeUnit(u: CodeUnit) {
    0x41 <= u <= 0x5A || 0x61 <= u <= 0x7A || 0x30 <= u <= 0x39 || u == 0x2E || u == 0x5F || u == 0x2D
  }

  /** A path segment with every unsafe unit an underscore, cut to the bound. */
  function SafeSegment(t: Text): (r: Text)
    ensures |r| == if |t| < MAX_SEGMENT then |t| else MAX_SEGMENT
    ensures forall i | 0 <= i < |r| :: IsSafeUnit(r[i]) && (IsSafeUnit(t[i]) ==> r[i] == t[i])
  {
    var n := if |t| < MAX_SEGMENT then |t| else MAX_SEGMENT;
    seq(n, i requires 0 <= i < n => if IsSafeUnit(t[i]) then t[i] else 0x5F)
  }

  function SafePath(path: seq<Text>): (r: seq<Text>)
    ensures |r| == if |path| < MAX_PATH_DEPTH then |path| else MAX_PATH_DEPTH
    ensures forall i | 0 <= i < |r| :: r[i] == SafeSegment(path[i])
  {
    var n := if |path| < MAX_PATH_DEPTH then |path| else MAX_PATH_DEPTH;
    seq(n, i requires 0 <= i < n => SafeSegment(path[i]))
  }

  // ---------------------------------------------------------------- what is outside this model

  /** The runtime's codecs and the upstream and local validators. `Sent` is what one issue list costs to
      serialize; a validator with no issue to report returns none. */
  datatype Validators = Validators(
    vocabulary: set<Text>,
    serializedBytes: seq<Diagnostic> -> nat,
    isVisibleAscii: Text -> bool,
    isBase64: Text -> bool,
    fromBase64: Text -> seq<int>,
    decodeUtf8: seq<int> -> Option<Text>,
    decodeHeader: (HeaderName, Text) -> Option<Json>,
    schemaIssues: (HeaderName, Json) -> Option<seq<Issue>>,
    structureIssues: Json -> Option<seq<Issue>>,
    schemeIssue: Json -> Option<Issue>,
    declaredIdentifier: Json -> Option<Json>,
    identifierValid: Json -> bool,
    textDigest: Text -> Text)

  /** The digest of an object's canonical form; none where there is no such form, and the program throws. */
  function ObjectDigest(v: Validators, decoded: Json): Option<Text> {
    match Jcs.Canonicalize(decoded)
    case None => None
    case Some(text) => Some(v.textDigest(text))
  }

  function BoundDiagnostic(v: Validators, stage: DiagnosticStage, issue: Issue): Diagnostic {
    Diagnostic(
      stage,
      if issue.code.Some? && issue.code.value in v.vocabulary then Known(issue.code.value) else Unspecified,
      SafePath(issue.path))
  }

  /** Within both caps. */
  predicate Fits(v: Validators, issues: seq<Diagnostic>, k: nat)
    requires k <= |issues|
  {
    k <= MAX_ISSUES && v.serializedBytes(issues[..k]) <= MAX_SERIALIZED
  }

  /** The longest prefix within both caps, and nothing when none is. */
  ghost predicate LongestFitting(v: Validators, issues: seq<Diagnostic>, kept: seq<Diagnostic>) {
    && |kept| <= |issues| && |kept| <= MAX_ISSUES && kept == issues[..|kept|]
    && (|kept| > 0 ==> Fits(v, issues, |kept|))
    && (forall k | |kept| < k <= |issues| :: !Fits(v, issues, k))
  }

  method BoundDiagnostics(v: Validators, issues: seq<Diagnostic>) returns (kept: seq<Diagnostic>)
    ensures LongestFitting(v, issues, kept)
  {
    var n := if |issues| < MAX_ISSUES then |issues| else MAX_ISSUES;
    kept := issues[..n];
    while |kept| > 0 && v.serializedBytes(kept) > MAX_SERIALIZED
      invariant |kept| <= n && kept == issues[..|kept|]
      invariant forall k | |kept| < k <= |issues| :: !Fits(v, issues, k)
    {
      kept := kept[..|kept| - 1];
    }
  }

  // ---------------------------------------------------------------- capture

  /** The status of each stage. */
  datatype StageReport = StageReport(
    transport: StageStatus, json: StageStatus, duplicateMembers: StageStatus, upstreamSchema: StageStatus,
    schemePayload: StageStatus, extensions: StageStatus)
  {
    function Of(s: Stage): StageStatus {
      match s
      case Transport => transport
      case JsonStage => json
      case DuplicateMembers => duplicateMembers
      case UpstreamSchema => upstreamSchema
      case SchemePayload => schemePayload
      case Extensions => extensions
    }

    function With(s: Stage, status: StageStatus): (r: StageReport)
      ensures r.Of(s) == status
      ensures forall t: Stage :: t != s ==> r.Of(t) == Of(t)
    {
      match s
      case Transport => this.(transport := status)
      case JsonStage => this.(json := status)
      case DuplicateMembers => this.(duplicateMembers := status)
      case UpstreamSchema => this.(upstreamSchema := status)
      case SchemePayload => this.(schemePayload := status)
      case Extensions => this.(extensions := status)
    }
  }

  const NOTHING_EVALUATED :=
    StageReport(NotEvaluated, NotEvaluated, NotEvaluated, NotEvaluated, NotEvaluated, NotEvaluated)

  /** `local` is the structural report, there only for a settle response. */
  datatype Captured = Captured(
    name: HeaderName,
    observedValue: Text,
    stages: StageReport,
    diagnostics: seq<Diagnostic>,
    decoded: Option<Json>,
    objectDigest: Option<Text>,
    local: Option<StageStatus>)

  /** Not a field value at all, or a decoded object that has no canonical form: an exception. */
  datatype Capture = Observed(artifact: Captured) | Threw

  /** At most one stage refused, and nothing after it was looked at. */
  predicate StopsAtTheFirst(stages: StageReport) {
    forall s: Stage, later: Stage | Position(s) < Position(later) && stages.Of(s) == Rejected ::
      stages.Of(later) == NotEvaluated
  }

  predicate NothingRejected(a: Captured)
  {
    (forall s: Stage :: a.stages.Of(s) != Rejected) && a.local != Some(Rejected)
  }

  /** The stages a name goes through before its object may be digested. */
  predicate Requires(name: HeaderName, s: Stage) {
    match s
    case Transport => true
    case JsonStage => true
    case DuplicateMembers => true
    case UpstreamSchema => name != PaymentResponse
    case SchemePayload => name == PaymentSignature
    case Extensions => false
  }

  /** A stage is looked at only once every earlier one its name requires has accepted. */
  predicate InOrder(a: Captured) {
    forall s: Stage, earlier: Stage
      | Position(earlier) < Position(s) && Requires(a.name, earlier) && a.stages.Of(s) != NotEvaluated ::
      a.stages.Of(earlier) == Accepted
  }

  ghost predicate WellStaged(a: Captured) {
    && StopsAtTheFirst(a.stages)
    && InOrder(a)
    && (a.local.Some? <==> a.name == PaymentResponse)
    && (a.objectDigest.Some? <==> NothingRejected(a))
    && (a.objectDigest.Some? ==>
          && a.decoded.Some?
          && (forall s: Stage | Requires(a.name, s) :: a.stages.Of(s) == Accepted)
          && (a.name == PaymentResponse ==> a.local == Some(Accepted)))
    && (a.local.Some? && a.local != Some(NotEvaluated) ==> a.stages.Of(DuplicateMembers) == Accepted)
  }

  /** What a stage accepts, each stage after the ones before it. */
  ghost predicate Passes(v: Validators, name: HeaderName, value: Text, s: Stage)
    decreases Position(s)
  {
    var text, read := v.decodeUtf8(v.fromBase64(value)), v.decodeHeader(name, value);
    match s
    case Transport => v.isBase64(value) && 0 < |v.fromBase64(value)| <= MAX_DECODED
    case JsonStage => Passes(v, name, value, Transport) && text.Some? && read.Some? && read.value.Obj?
    case DuplicateMembers => Passes(v, name, value, JsonStage) && ScanCompleteness.Admissible(text.value, MAX_DEPTH)
    case UpstreamSchema =>
      Passes(v, name, value, DuplicateMembers) && name != PaymentResponse && v.schemaIssues(name, read.value).None?
    case SchemePayload =>
      Passes(v, name, value, UpstreamSchema) && name == PaymentSignature && v.schemeIssue(read.value).None?
    case Extensions =>
      && Passes(v, name, value, SchemePayload)
      && v.declaredIdentifier(read.value).Some? && v.identifierValid(v.declaredIdentifier(read.value).value)
  }

  /** Every stage before this one that the name requires has accepted the value, and nothing else was tried. */
  ghost predicate Reached(v: Validators, a: Captured, s: Stage) {
    && (forall t: Stage :: a.stages.Of(t) == if Position(t) < Position(s) then Accepted else NotEvaluated)
    && (forall t: Stage | Position(t) < Position(s) ::
          Requires(a.name, t) && Passes(v, a.name, a.observedValue, t))
    && a.local == (if a.name == PaymentResponse then Some(NotEvaluated) else None)
    && a.objectDigest.None? && a.diagnostics == []
  }

  lemma Started(v: Validators, a: Captured)
    requires a.stages == NOTHING_EVALUATED && a.objectDigest.None? && a.diagnostics == []
    requires a.local == if a.name == PaymentResponse then Some(NotEvaluated) else None
    ensures Reached(v, a, Transport)
  {
  }

  /** The decoded object is no part of how far validation got. */
  lemma Undecoded(v: Validators, a: Captured, decoded: Option<Json>, s: Stage)
    requires Reached(v, a, s)
    ensures Reached(v, a.(decoded := decoded), s)
  {
    hide Passes;
  }

  lemma Advanced(v: Validators, a: Captured, s: Stage, next: Stage)
    requires Reached(v, a, s) && Position(next) == Position(s) + 1
    requires Requires(a.name, s) && Passes(v, a.name, a.observedValue, s)
    ensures Reached(v, a.(stages := a.stages.With(s, Accepted)), next)
  {
    hide Passes;
  }

  /** No stage passes a value that an earlier one does not. */
  lemma {:induction false} LaterFail(v: Validators, name: HeaderName, value: Text, s: Stage, later: Stage)
    requires !Passes(v, name, value, s) && Position(s) <= Position(later)
    ensures !Passes(v, name, value, later)
    decreases Position(later)
  {
    hide ScanCompleteness.Admissible;
    match later {
      case Transport =>
      case JsonStage => if s != later { LaterFail(v, name, value, s, Transport); }
      case DuplicateMembers => if s != later { LaterFail(v, name, value, s, JsonStage); }
      case UpstreamSchema => if s != later { LaterFail(v, name, value, s, DuplicateMembers); }
      case SchemePayload => if s != later { LaterFail(v, name, value, s, UpstreamSchema); }
      case Extensions => if s != later { LaterFail(v, name, value, s, SchemePayload); }
    }
  }

  /** A stage is tried once every one before it accepted, if the field calls for it. */
  ghost predicate Tried(v: Validators, name: HeaderName, value: Text, s: Stage) {
    match s
    case Transport => true
    case JsonStage => Passes(v, name, value, Transport)
    case DuplicateMembers => Passes(v, name, value, JsonStage)
    case UpstreamSchema => name != PaymentResponse && Passes(v, name, value, DuplicateMembers)
    case SchemePayload => name == PaymentSignature && Passes(v, name, value, UpstreamSchema)
    case Extensions =>
      Passes(v, name, value, SchemePayload) && v.declaredIdentifier(v.decodeHeader(name, value).value).Some?
  }

  /** A stage is marked accepted exactly when it accepts the value, and rejected exactly when it was tried and
      does not. */
  ghost predicate MarksWhatPasses(v: Validators, a: Captured) {
    && (forall s: Stage :: a.stages.Of(s) == Accepted <==> Passes(v, a.name, a.observedValue, s))
    && (forall s: Stage :: a.stages.Of(s) == Rejected <==>
          Tried(v, a.name, a.observedValue, s) && !Passes(v, a.name, a.observedValue, s))
    && (a.local == Some(Rejected) <==>
          && a.name == PaymentResponse
          && Passes(v, a.name, a.observedValue, DuplicateMembers)
          && v.structureIssues(v.decodeHeader(a.name, a.observedValue).value).Some?)
    && (a.local == Some(Accepted) <==>
          && a.name == PaymentResponse
          && Passes(v, a.name, a.observedValue, DuplicateMembers)
          && v.structureIssues(v.decodeHeader(a.name, a.observedValue).value).None?)
  }

  /** Every stage the field calls for accepts the value, and so do the local check of a settle response and the
      check of an identifier that is declared. */
  ghost predicate NothingRefuses(v: Validators, name: HeaderName, value: Text) {
    && (forall s: Stage | Requires(name, s) :: Passes(v, name, value, s))
    && Passes(v, name, value, JsonStage)
    && var decoded := v.decodeHeader(name, value).value;
    && (name == PaymentResponse ==> v.structureIssues(decoded).None?)
    && (name == PaymentSignature && v.declaredIdentifier(decoded).Some? ==>
          v.identifierValid(v.declaredIdentifier(decoded).value))
  }

  /** Nothing is marked rejected exactly when nothing refuses. */
  lemma RejectedIsRefused(v: Validators, a: Captured)
    requires MarksWhatPasses(v, a)
    ensures NothingRejected(a) <==> NothingRefuses(v, a.name, a.observedValue)
  {
    hide ScanCompleteness.Admissible;
    if NothingRejected(a) {
      assert Tried(v, a.name, a.observedValue, Transport);
      assert Passes(v, a.name, a.observedValue, Transport);
      assert Passes(v, a.name, a.observedValue, JsonStage);
      assert Passes(v, a.name, a.observedValue, DuplicateMembers);
      assert a.name != PaymentResponse ==> Passes(v, a.name, a.observedValue, UpstreamSchema);
      assert a.name == PaymentSignature ==> Passes(v, a.name, a.observedValue, SchemePayload);
      assert Tried(v, a.name, a.observedValue, Extensions) ==> Passes(v, a.name, a.observedValue, Extensions);
    }
    if NothingRefuses(v, a.name, a.observedValue) {
      forall s: Stage ensures a.stages.Of(s) != Rejected {
        assert Requires(a.name, s) ==> Passes(v, a.name, a.observedValue, s);
      }
    }
  }

  predicate IsFieldValue(v: Validators, value: Text) {
    |value| > 0 && v.isVisibleAscii(value) && |value| <= MAX_ENCODED
  }

  function Diagnosed(v: Validators, stage: DiagnosticStage, issues: seq<Issue>): seq<Diagnostic> {
    seq(|issues|, i requires 0 <= i < |issues| => BoundDiagnostic(v, stage, issues[i]))
  }

  function NotBase64(): Text { Lit("not_standard_base64") }
  function EmptyPayload(): Text { Lit("empty_payload") }
  function PayloadTooLarge(): Text { Lit("decoded_payload_too_large") }
  function NotUtf8(): Text { Lit("not_valid_utf8") }
  function DecodeFailed(): Text { Lit("upstream_decode_failed") }
  function NotAnObject(): Text { Lit("not_a_json_object") }

  function TransportCode(v: Validators, value: Text): Text {
    if !v.isBase64(value) then NotBase64()
    else if v.fromBase64(value) == [] then EmptyPayload()
    else PayloadTooLarge()
  }

  function JsonCode(v: Validators, name: HeaderName, value: Text): Text {
    if v.decodeUtf8(v.fromBase64(value)).None? then NotUtf8()
    else if v.decodeHeader(name, value).None? then DecodeFailed()
    else NotAnObject()
  }

  /** What a stage that refuses the value has to say about it. */
  ghost function IssuesAt(v: Validators, name: HeaderName, value: Text, s: Stage): seq<Issue> {
    var bytes, read := v.fromBase64(value), v.decodeHeader(name, value);
    match s
    case Transport => [Named(TransportCode(v, value))]
    case JsonStage => [Named(JsonCode(v, name, value))]
    case DuplicateMembers => if v.decodeUtf8(bytes).Some? then ScanIssues(v.decodeUtf8(bytes).value) else []
    case UpstreamSchema =>
      if read.Some? && v.schemaIssues(name, read.value).Some? then v.schemaIssues(name, read.value).value else []
    case SchemePayload =>
      if read.Some? && v.schemeIssue(read.value).Some? then [v.schemeIssue(read.value).value] else []
    case Extensions => [IdentifierIssue()]
  }

  /** The diagnostics are those of the stage that refused, as far as the caps allow; none if nothing refused. */
  ghost predicate Explains(v: Validators, a: Captured) {
    && (forall s: Stage | a.stages.Of(s) == Rejected ::
          LongestFitting(v, Diagnosed(v, At(s), IssuesAt(v, a.name, a.observedValue, s)), a.diagnostics))
    && (a.local == Some(Rejected) && v.decodeHeader(a.name, a.observedValue).Some?
        && v.structureIssues(v.decodeHeader(a.name, a.observedValue).value).Some? ==>
          LongestFitting(
            v, Diagnosed(v, LocalStructural, v.structureIssues(v.decodeHeader(a.name, a.observedValue).value).value),
            a.diagnostics))
    && (NothingRejected(a) ==> a.diagnostics == [])
  }

  /** After a stage that refuses, no other is tried. */
  lemma LaterUntried(v: Validators, name: HeaderName, value: Text, s: Stage, later: Stage)
    requires !Passes(v, name, value, s) && Position(s) < Position(later)
    ensures !Tried(v, name, value, later)
  {
    hide Passes;
    var before :=
      match later
      case Transport => Transport
      case JsonStage => Transport
      case DuplicateMembers => JsonStage
      case UpstreamSchema => DuplicateMembers
      case SchemePayload => UpstreamSchema
      case Extensions => SchemePayload;
    LaterFail(v, name, value, s, before);
  }

  lemma TriedOnceReached(v: Validators, a: Captured, s: Stage)
    requires Reached(v, a, s) && Requires(a.name, s)
    ensures Tried(v, a.name, a.observedValue, s)
  {
    hide Passes;
    assert Position(Transport) == 0 && Position(JsonStage) == 1 && Position(DuplicateMembers) == 2;
  }

  function Refusing(a: Captured, s: Stage, kept: seq<Diagnostic>): Captured {
    a.(stages := a.stages.With(s, Rejected), diagnostics := kept)
  }

  lemma RefusedIsStaged(v: Validators, a: Captured, s: Stage, kept: seq<Diagnostic>)
    requires Reached(v, a, s) && (Requires(a.name, s) || (s == Extensions && a.name == PaymentSignature))
    ensures WellStaged(Refusing(a, s, kept))
  {
    hide Passes;
    assert Refusing(a, s, kept).stages.Of(s) == Rejected;
    assert Position(UpstreamSchema) < Position(s) ==> Requires(a.name, UpstreamSchema);
  }

  lemma RefusedIsMarked(v: Validators, a: Captured, s: Stage, kept: seq<Diagnostic>)
    requires Reached(v, a, s) && Tried(v, a.name, a.observedValue, s) && !Passes(v, a.name, a.observedValue, s)
    requires a.name == PaymentResponse ==> Requires(a.name, s)
    ensures MarksWhatPasses(v, Refusing(a, s, kept))
  {
    hide Passes, Tried;
    forall t: Stage | Position(s) < Position(t)
      ensures !Passes(v, a.name, a.observedValue, t) && !Tried(v, a.name, a.observedValue, t)
    {
      LaterFail(v, a.name, a.observedValue, s, t);
      LaterUntried(v, a.name, a.observedValue, s, t);
    }
    FailsStructure(v, a.name, a.observedValue, s);
    forall t: Stage | t != s ensures Position(t) < Position(s) || Position(s) < Position(t) {
    }
  }

  lemma RefusedIsExplained(v: Validators, a: Captured, s: Stage, kept: seq<Diagnostic>)
    requires Reached(v, a, s)
    requires LongestFitting(v, Diagnosed(v, At(s), IssuesAt(v, a.name, a.observedValue, s)), kept)
    ensures Explains(v, Refusing(a, s, kept))
  {
    hide Passes, LongestFitting, Diagnosed, IssuesAt;
    assert Refusing(a, s, kept).stages.Of(s) == Rejected;
  }

  /** Every refusal ends the capture: the stage is marked, and what is reported is bounded. */
  method Refused(v: Validators, a: Captured, s: Stage, issues: seq<Issue>) returns (r: Capture)
    requires Reached(v, a, s) && !Passes(v, a.name, a.observedValue, s)
    requires
      Requires(a.name, s) || (s == Extensions && Tried(v, a.name, a.observedValue, s) && a.name == PaymentSignature)
    requires issues == IssuesAt(v, a.name, a.observedValue, s)
    ensures r.Observed? && WellStaged(r.artifact) && MarksWhatPasses(v, r.artifact) && Explains(v, r.artifact)
    ensures r.artifact.name == a.name && r.artifact.observedValue == a.observedValue && r.artifact.decoded == a.decoded
    ensures r.artifact.objectDigest.None? && r.artifact.stages == a.stages.With(s, Rejected)
    ensures !NothingRefuses(v, a.name, a.observedValue)
  {
    hide Passes, Tried, IssuesAt, LongestFitting, Diagnosed, WellStaged, MarksWhatPasses, Explains;
    var kept := BoundDiagnostics(v, Diagnosed(v, At(s), issues));
    if Requires(a.name, s) {
      TriedOnceReached(v, a, s);
    }
    RefusedIsStaged(v, a, s, kept);
    RefusedIsMarked(v, a, s, kept);
    RefusedIsExplained(v, a, s, kept);
    assert Refusing(a, s, kept).stages.Of(s) == Rejected;
    RejectedIsRefused(v, Refusing(a, s, kept));
    hide NothingRefuses;
    return Observed(Refusing(a, s, kept));
  }

  lemma FailsStructure(v: Validators, name: HeaderName, value: Text, s: Stage)
    requires !Passes(v, name, value, s)
    ensures Position(s) <= 2 ==> !Passes(v, name, value, DuplicateMembers)
  {
    hide Passes;
    if Position(s) <= 2 {
      LaterFail(v, name, value, s, DuplicateMembers);
    }
  }

  function Named(code: Text): Issue {
    Issue(Some(code), [])
  }

  function ScanIssue(code: Code, path: seq<Text>): Issue {
    match code
    case DuplicateMember => Issue(Some(Lit("duplicate_member")), path)
    case DepthLimitExceeded => Issue(Some(Lit("depth_limit_exceeded")), path)
    case ScanIncomplete => Issue(Some(Lit("scan_incomplete")), path)
  }

  function ScanIssues(text: Text): seq<Issue> {
    match ScanText(text, MAX_DEPTH)
    case Failed(code, path) => [ScanIssue(code, path)]
    case Scanned(_, _) => []
  }

  function IdentifierIssue(): Issue {
    Issue(Some(Lit("invalid_payment_identifier")), [Lit("payment-identifier")])
  }

  /** The transport stage: standard base64 of a payload that is neither empty nor too large. */
  method CheckTransport(v: Validators, value: Text) returns (fault: Option<Issue>)
    ensures fault.None? <==> v.isBase64(value) && 0 < |v.fromBase64(value)| <= MAX_DECODED
    ensures fault.Some? ==> fault.value == Named(TransportCode(v, value))
  {
    hide Lit;
    if !v.isBase64(value) {
      return Some(Named(NotBase64()));
    }
    var bytes := v.fromBase64(value);
    if |bytes| == 0 {
      return Some(Named(EmptyPayload()));
    }
    if |bytes| > MAX_DECODED {
      return Some(Named(PayloadTooLarge()));
    }
    return None;
  }

  /** The json stage: text, which the upstream decoder reads as an object. */
  method DecodeObject(v: Validators, name: HeaderName, value: Text)
    returns (fault: Option<Issue>, decoded: Option<Json>)
    ensures fault.None? <==>
      && v.decodeUtf8(v.fromBase64(value)).Some?
      && v.decodeHeader(name, value).Some? && v.decodeHeader(name, value).value.Obj?
    ensures decoded == if fault.None? then v.decodeHeader(name, value) else None
    ensures fault.Some? ==> fault.value == Named(JsonCode(v, name, value))
  {
    hide Lit;
    decoded := None;
    if v.decodeUtf8(v.fromBase64(value)).None? {
      return Some(Named(NotUtf8())), decoded;
    }
    var read := v.decodeHeader(name, value);
    if read.None? {
      return Some(Named(DecodeFailed())), decoded;
    }
    if !read.value.Obj? {
      return Some(Named(NotAnObject())), decoded;
    }
    return None, read;
  }

  /** Preserves an observed value and reports how far validation got. */
  method CaptureObserved(v: Validators, name: HeaderName, value: Text) returns (r: Capture)
    ensures r.Threw? <==>
      !IsFieldValue(v, value)
      || (NothingRefuses(v, name, value) && !Jcs.Canonicalizable(v.decodeHeader(name, value).value))
    ensures r.Observed? ==> r.artifact.name == name && r.artifact.observedValue == value && WellStaged(r.artifact)
    ensures r.Observed? ==> MarksWhatPasses(v, r.artifact) && Explains(v, r.artifact)
    ensures r.Observed? ==>
      r.artifact.decoded == if Passes(v, name, value, JsonStage) then v.decodeHeader(name, value) else None
    ensures r.Observed? && r.artifact.objectDigest.Some? ==>
      r.artifact.decoded.Some? && r.artifact.objectDigest == ObjectDigest(v, r.artifact.decoded.value)
  {
    hide ScanCompleteness.Admissible, Jcs.Canonicalizable, IsFieldValue, ScanIssue, Reached, WellStaged,
      MarksWhatPasses, Explains, Tried, TransportCode, JsonCode, NothingRefuses;
    if !IsFieldValue(v, value) {
      return Threw;
    }
    var a := Captured(
      name, value, NOTHING_EVALUATED, [], None, None, if name == PaymentResponse then Some(NotEvaluated) else None);
    Started(v, a);
    var transportFault := CheckTransport(v, value);
    if transportFault.Some? {
      r := Refused(v, a, Transport, [transportFault.value]);
      return;
    }
    Advanced(v, a, Transport, JsonStage);
    a := a.(stages := a.stages.With(Transport, Accepted));
    var jsonFault, decoded := DecodeObject(v, name, value);
    if jsonFault.Some? {
      r := Refused(v, a, JsonStage, [jsonFault.value]);
      return;
    }
    var text := v.decodeUtf8(v.fromBase64(value));
    Advanced(v, a.(decoded := decoded), JsonStage, DuplicateMembers) by {
      Undecoded(v, a, decoded, JsonStage);
    }
    a := a.(stages := a.stages.With(JsonStage, Accepted), decoded := decoded);
    var scan := StrictJson.ScanForDuplicateMembers(text.value);
    if scan.Rejected? {
      r := Refused(v, a, DuplicateMembers, [ScanIssue(scan.code, scan.path)]);
      return;
    }
    Advanced(v, a, DuplicateMembers, UpstreamSchema);
    a := a.(stages := a.stages.With(DuplicateMembers, Accepted));
    r := CaptureValidated(v, a);
    JcsPrinting.CanonicalIsTree(decoded.value);
  }

  /** Nothing refused: what remains is to digest the object. */
  ghost predicate Clean(v: Validators, a: Captured) {
    && NothingRejected(a) && InOrder(a) && a.objectDigest.None? && (a.local.Some? <==> a.name == PaymentResponse)
    && (forall s: Stage | Requires(a.name, s) :: a.stages.Of(s) == Accepted)
    && (a.name == PaymentResponse ==> a.local == Some(Accepted))
    && MarksWhatPasses(v, a) && Explains(v, a)
  }

  ghost predicate Kept(v: Validators, before: Captured, r: Capture)
    requires before.decoded.Some?
  {
    && (r.Threw? <==>
          NothingRefuses(v, before.name, before.observedValue) && ObjectDigest(v, before.decoded.value).None?)
    && (r.Observed? ==>
          && WellStaged(r.artifact) && MarksWhatPasses(v, r.artifact) && Explains(v, r.artifact)
          && r.artifact.name == before.name && r.artifact.observedValue == before.observedValue
          && r.artifact.decoded == before.decoded
          && (r.artifact.objectDigest.Some? ==> r.artifact.objectDigest == ObjectDigest(v, before.decoded.value)))
  }

  lemma CleanIsUnrefused(v: Validators, a: Captured)
    requires Clean(v, a)
    ensures NothingRefuses(v, a.name, a.observedValue)
  {
    hide NothingRefuses, MarksWhatPasses, NothingRejected;
    RejectedIsRefused(v, a);
  }

  lemma CleanDigested(v: Validators, a: Captured, digest: Text)
    requires Clean(v, a) && a.decoded.Some?
    ensures
      var b := a.(objectDigest := Some(digest));
      WellStaged(b) && MarksWhatPasses(v, b) && Explains(v, b)
  {
    hide Passes, Tried, IssuesAt, LongestFitting, Diagnosed;
    assert Requires(a.name, DuplicateMembers);
  }

  /** The end of a capture nothing refused: the object is digested. */
  method Digested(v: Validators, a: Captured) returns (r: Capture)
    requires a.decoded.Some? && Clean(v, a)
    ensures Kept(v, a, r)
  {
    hide Clean, WellStaged, MarksWhatPasses, Explains, ObjectDigest, NothingRefuses;
    var digest := ObjectDigest(v, a.decoded.value);
    if digest.None? {
      CleanIsUnrefused(v, a);
      return Threw;
    }
    CleanDigested(v, a, digest.value);
    return Observed(a.(objectDigest := digest));
  }

  /** What looks at the object: upstream schema or local structure, scheme payload, extensions. */
  method CaptureValidated(v: Validators, before: Captured) returns (r: Capture)
    requires Reached(v, before, UpstreamSchema)
    requires before.decoded.Some? && before.decoded == v.decodeHeader(before.name, before.observedValue)
    ensures Kept(v, before, r)
  {
    var a, value := before, before.decoded.value;
    if a.name == PaymentResponse {
      r := CaptureStructure(v, a);
      return;
    }
    hide Reached, ScanCompleteness.Admissible;
    PassedBefore(v, a);
    var issues := v.schemaIssues(a.name, value);
    if issues.Some? {
      r := Refused(v, a, UpstreamSchema, issues.value);
      return;
    }
    Advanced(v, a, UpstreamSchema, SchemePayload);
    a := a.(stages := a.stages.With(UpstreamSchema, Accepted));
    if a.name == PaymentSignature {
      r := CaptureScheme(v, a);
    } else {
      NoScheme(v, a);
      r := Digested(v, a);
    }
  }

  lemma PassedBefore(v: Validators, a: Captured)
    requires Reached(v, a, UpstreamSchema)
    ensures Passes(v, a.name, a.observedValue, DuplicateMembers)
  {
    assert Position(DuplicateMembers) < Position(UpstreamSchema);
  }

  /** A payment-required value has no scheme payload and no extensions to look at. */
  lemma NoScheme(v: Validators, a: Captured)
    requires Reached(v, a, SchemePayload) && a.name == PaymentRequired
    ensures Clean(v, a)
  {
    hide IssuesAt, LongestFitting, Diagnosed;
  }

  /** The local structural check of a settle response. */
  method CaptureStructure(v: Validators, before: Captured) returns (r: Capture)
    requires Reached(v, before, UpstreamSchema) && before.name == PaymentResponse
    requires before.decoded.Some? && before.decoded == v.decodeHeader(before.name, before.observedValue)
    ensures Kept(v, before, r)
  {
    hide Reached, Clean, WellStaged, MarksWhatPasses, Explains, Passes, Diagnosed, LongestFitting;
    var a, issues := before, v.structureIssues(before.decoded.value);
    if issues.Some? {
      var kept := BoundDiagnostics(v, Diagnosed(v, LocalStructural, issues.value));
      Unstructured(v, a, kept);
      RejectedIsRefused(v, a.(local := Some(Rejected), diagnostics := kept));
      return Observed(a.(local := Some(Rejected), diagnostics := kept));
    }
    Structured(v, a);
    a := a.(local := Some(Accepted));
    r := Digested(v, a);
  }

  /** A settle response has no upstream schema, scheme payload or extensions to look at. */
  lemma Structured(v: Validators, a: Captured)
    requires Reached(v, a, UpstreamSchema) && a.name == PaymentResponse
    requires a.decoded.Some? && a.decoded == v.decodeHeader(a.name, a.observedValue)
    requires v.structureIssues(a.decoded.value).None?
    ensures Clean(v, a.(local := Some(Accepted)))
  {
    hide IssuesAt, LongestFitting, Diagnosed;
    assert Position(DuplicateMembers) < Position(UpstreamSchema);
  }

  lemma Unstructured(v: Validators, a: Captured, kept: seq<Diagnostic>)
    requires Reached(v, a, UpstreamSchema) && a.name == PaymentResponse
    requires a.decoded.Some? && a.decoded == v.decodeHeader(a.name, a.observedValue)
    requires v.structureIssues(a.decoded.value).Some?
    requires LongestFitting(v, Diagnosed(v, LocalStructural, v.structureIssues(a.decoded.value).value), kept)
    ensures
      var b := a.(local := Some(Rejected), diagnostics := kept);
      b.objectDigest.None? && WellStaged(b) && MarksWhatPasses(v, b) && Explains(v, b)
  {
    hide IssuesAt, LongestFitting, Diagnosed;
    assert Position(DuplicateMembers) < Position(UpstreamSchema);
  }

  /** The scheme payload of a payment, and its declared extension. */
  method CaptureScheme(v: Validators, before: Captured) returns (r: Capture)
    requires Reached(v, before, SchemePayload) && before.name == PaymentSignature
    requires before.decoded.Some? && before.decoded == v.decodeHeader(before.name, before.observedValue)
    requires Passes(v, before.name, before.observedValue, UpstreamSchema)
    ensures Kept(v, before, r)
  {
    hide Reached, ScanCompleteness.Admissible, Clean, WellStaged, MarksWhatPasses, Explains, IdentifierIssue;
    var a, value := before, before.decoded.value;
    var issue := v.schemeIssue(value);
    if issue.Some? {
      r := Refused(v, a, SchemePayload, [issue.value]);
      return;
    }
    Advanced(v, a, SchemePayload, Extensions);
    a := a.(stages := a.stages.With(SchemePayload, Accepted));
    var declared := v.declaredIdentifier(value);
    if declared.Some? && !v.identifierValid(declared.value) {
      r := Refused(v, a, Extensions, [IdentifierIssue()]);
      return;
    }
    SchemeEnds(v, a, declared.Some?);
    if declared.Some? {
      a := a.(stages := a.stages.With(Extensions, Accepted));
    }
    r := Digested(v, a);
  }

  /** Extensions are optional: looked at only when an identifier is declared. */
  lemma SchemeEnds(v: Validators, a: Captured, declared: bool)
    requires Reached(v, a, Extensions) && a.name == PaymentSignature
    requires declared <==> Tried(v, a.name, a.observedValue, Extensions)
    requires declared <==> Passes(v, a.name, a.observedValue, Extensions)
    ensures Clean(v, if declared then a.(stages := a.stages.With(Extensions, Accepted)) else a)
  {
    hide Passes, Tried, IssuesAt, LongestFitting, Diagnosed;
  }

  // ---------------------------------------------------------------- what has no canonical form

  /** `{"a":"\ud800"}`, which is a document, and the object it is parsed as. */
  function LoneText(): Text {
    Lit("{\"a\":\"\\ud800\"}")
  }

  const LONE_OBJECT := Obj([Member([0x61], Str([0xD800]))])

  /** Validators that take whatever they are shown, which is this text and this object. */
  function Agreeable(text: Text, decoded: Json): Validators {
    Validators(
      {}, (_: seq<Diagnostic>) => 0, (_: Text) => true, (_: Text) => true, (_: Text) => [0],
      (_: seq<int>) => Some(text), (_: HeaderName, _: Text) => Some(decoded), (_: HeaderName, _: Json) => None,
      (_: Json) => None, (_: Json) => None, (_: Json) => None, (_: Json) => true, (t: Text) => t)
  }

  /** The escape of half a surrogate pair is admitted by every stage, and the object has no canonical form. */
  lemma LoneSurrogateThrows(value: Text)
    requires 0 < |value| <= MAX_ENCODED
    ensures
      var v := Agreeable(LoneText(), LONE_OBJECT);
      && IsFieldValue(v, value) && NothingRefuses(v, PaymentRequired, value)
      && v.decodeHeader(PaymentRequired, value) == Some(LONE_OBJECT) && !Jcs.Canonicalizable(LONE_OBJECT)
  {
    LoneTextIsAdmissible();
    hide ScanCompleteness.Admissible, LoneText;
    var v := Agreeable(LoneText(), LONE_OBJECT);
    assert JcsStrings.IsLone([0xD800], 0);
    assert !Jcs.Printable(LONE_OBJECT.members[0]);
    assert Passes(v, PaymentRequired, value, Transport);
    assert Passes(v, PaymentRequired, value, JsonStage);
    assert Passes(v, PaymentRequired, value, DuplicateMembers);
    assert Passes(v, PaymentRequired, value, UpstreamSchema);
  }

  lemma LoneTextIsAdmissible()
    ensures ScanCompleteness.Admissible(LoneText(), MAX_DEPTH)
  {
    var name, half := [Grammar.Plain(0x61)], [Grammar.Hex(Lit("d800"))];
    var field := Grammar.Field([], name, [], [], Grammar.Quoted(half), []);
    var tree := Grammar.Object(Grammar.LastField(field));
    assert Grammar.ItemsText(name) == [0x61] && Grammar.ItemsText(half) == [0x5C, 0x75] + Lit("d800");
    assert Grammar.ValueText(tree) == LoneText();
    assert ScanCompleteness.Reads(LoneText(), [], tree, []);
    assert Grammar.Depth(tree) == 1 && Grammar.Unambiguous(tree);
  }

  // ---------------------------------------------------------------- promotion

  predicate PromotesToPaymentRequired(a: Captured)
  {
    && a.name == PaymentRequired
    && a.stages.Of(DuplicateMembers) == Accepted && a.stages.Of(UpstreamSchema) == Accepted
    && a.objectDigest.Some? && a.decoded.Some?
  }

  predicate PromotesToPaymentPayload(a: Captured)
  {
    && a.name == PaymentSignature
    && a.stages.Of(DuplicateMembers) == Accepted && a.stages.Of(UpstreamSchema) == Accepted
    && a.stages.Of(SchemePayload) == Accepted && a.stages.Of(Extensions) != Rejected
    && a.objectDigest.Some? && a.decoded.Some?
  }

  predicate PromotesToSettleResponse(a: Captured)
  {
    && a.name == PaymentResponse
    && a.stages.Of(DuplicateMembers) == Accepted && a.local == Some(Accepted)
    && a.objectDigest.Some? && a.decoded.Some?
  }

  /** A capture is promotable, and only to the type its name says, exactly when nothing rejected it. */
  lemma PromotionIsExact(a: Captured)
    requires WellStaged(a)
    ensures PromotesToPaymentRequired(a) <==> a.name == PaymentRequired && NothingRejected(a)
    ensures PromotesToPaymentPayload(a) <==> a.name == PaymentSignature && NothingRejected(a)
    ensures PromotesToSettleResponse(a) <==> a.name == PaymentResponse && NothingRejected(a)
  {
    assert Requires(a.name, DuplicateMembers);
    assert a.name != PaymentResponse ==> Requires(a.name, UpstreamSchema);
    assert a.name == PaymentSignature ==> Requires(a.name, SchemePayload);
  }
}
