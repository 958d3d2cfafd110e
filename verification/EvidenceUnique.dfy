/** One record, one set of contents: two directories that both verify under the same record hold the same
    artifacts, the same documents up to the order of members, and the same bytes everywhere else. */
module EvidenceUnique {
  import opened Wrappers
  import opened CodeUnits
  import opened Json
  import opened Lifecycle
  import opened Presence
  import opened StrictJson
  import opened Jcs
  import opened JcsCanonical
  import opened Observation
  import opened Documents
  import opened Evidence

  /** What is relied on of the runtime: digests tell bytes apart, the encoder tells canonical texts apart, and a
      parsed object has no repeated member. */
  ghost predicate Faithful(rt: Runtime) {
    && (forall a: Bytes, b: Bytes | rt.hash(a) == rt.hash(b) :: a == b)
    && (forall a: Json, b: Json
          | Canonicalize(a).Some? && Canonicalize(b).Some?
            && rt.encode(Canonicalize(a).value) == rt.encode(Canonicalize(b).value) ::
          Canonicalize(a) == Canonicalize(b))
    && (forall text: Text | rt.parse(text).Some? :: Distinct(rt.parse(text).value))
  }

  lemma AdmittedIsDistinct(rt: Runtime, files: Files, artifact: Artifact)
    requires Faithful(rt) && ReadOf(rt, files, artifact).Admitted?
    ensures Distinct(ReadOf(rt, files, artifact).value)
  {
    hide Distinct;
  }

  lemma SameDigestSameDocument(rt: Runtime, a: Json, b: Json)
    requires Faithful(rt) && Distinct(a) && Distinct(b)
    requires DocumentDigest(rt, a).Some? && DocumentDigest(rt, a) == DocumentDigest(rt, b)
    ensures Equivalent(a, b)
  {
    hide Canonicalize, Distinct, Equivalent;
    CanonicalFormIsExact(a, b);
  }

  /** Two sidecars bound by one claim are absent together, or both admitted and equivalent. */
  lemma BoundDocuments(rt: Runtime, f: Files, g: Files, artifact: Artifact, claimed: Option<Json>)
    requires Faithful(rt) && JsonBound(rt, f, artifact, claimed) && JsonBound(rt, g, artifact, claimed)
    ensures artifact in f <==> artifact in g
    ensures artifact in f ==>
      && ReadOf(rt, f, artifact).Admitted? && ReadOf(rt, g, artifact).Admitted?
      && Equivalent(ReadOf(rt, f, artifact).value, ReadOf(rt, g, artifact).value)
  {
    hide Distinct, Equivalent, DocumentDigest, StrictRead, Faithful;
    if claimed.Some? {
      AdmittedIsDistinct(rt, f, artifact);
      AdmittedIsDistinct(rt, g, artifact);
      SameDigestSameDocument(rt, ReadOf(rt, f, artifact).value, ReadOf(rt, g, artifact).value);
    }
  }

  lemma BoundBytes(rt: Runtime, f: Files, g: Files, artifact: Artifact, claimed: Option<Json>)
    requires Faithful(rt) && BytesBound(rt, f, artifact, claimed) && BytesBound(rt, g, artifact, claimed)
    ensures artifact in f <==> artifact in g
    ensures artifact in f ==> f[artifact] == g[artifact]
  {
  }

  /** Equivalent objects carry the same text under the same name. */
  lemma TextAcross(a: Json, b: Json, name: Text, text: Text)
    requires Equivalent(a, b) && Get(a, name) == Some(Str(text))
    ensures Get(b, name) == Some(Str(text))
  {
    var i := FindIndex(a.members, name);
    assert Equivalent(a.members[i].value, Find(b.members, name).value);
  }

  lemma BoundBodies(rt: Runtime, f: Files, g: Files, claimed: Option<Json>)
    requires Faithful(rt) && BodyBound(rt, f) && BodyBound(rt, g)
    requires JsonBound(rt, f, OriginResultBinding, claimed)
    requires JsonBound(rt, g, OriginResultBinding, claimed)
    ensures OriginResultBinding in f ==>
      OriginResultBody in f && OriginResultBody in g && f[OriginResultBody] == g[OriginResultBody]
  {
    hide Equivalent, Get, JsonBound, StrictRead, BodyDigestKey;
    BoundDocuments(rt, f, g, OriginResultBinding, claimed);
    if OriginResultBinding in f {
      var a, b := ReadOf(rt, f, OriginResultBinding).value, ReadOf(rt, g, OriginResultBinding).value;
      TextAcross(a, b, BodyDigestKey(), rt.hash(f[OriginResultBody]));
    }
  }

  predicate IsSidecar(artifact: Artifact) {
    artifact == RequestBinding || artifact == OriginResultBinding || artifact == ChainObservation
  }

  ghost predicate SameSidecars(rt: Runtime, f: Files, g: Files) {
    forall artifact | artifact in f && IsSidecar(artifact) ::
      && ReadOf(rt, f, artifact).Admitted? && ReadOf(rt, g, artifact).Admitted?
      && Equivalent(ReadOf(rt, f, artifact).value, ReadOf(rt, g, artifact).value)
  }

  ghost predicate SameBytes(f: Files, g: Files)
    requires f.Keys == g.Keys
  {
    forall artifact | artifact in f && artifact != RecordJws && !IsSidecar(artifact) :: f[artifact] == g[artifact]
  }

  /** Same artifacts, equivalent sidecars, equal native artifacts and body. */
  ghost predicate SameContents(rt: Runtime, f: Files, g: Files) {
    f.Keys == g.Keys && SameSidecars(rt, f, g) && SameBytes(f, g)
  }

  /** The artifact set follows from the state and the bound digests. */
  lemma SameArtifacts(rt: Runtime, f: Files, g: Files, claims: Claims)
    requires Faithful(rt) && Consistent(rt, f, claims) && Consistent(rt, g, claims)
    ensures f.Keys == g.Keys
  {
    hide DocumentHolds, SchemasHold, JsonBound, BodyBound, ReadOf, Conforms, StateOf, Get, Faithful;
    BoundBytes(rt, f, g, PaymentResponseText, Get(claims.evidence.value, PaymentResponseDigestKey()));
    StateDeterminesArtifacts(StateOf(Get(claims.evidence.value, TerminalStateKey())).value, f.Keys, g.Keys);
  }

  lemma BodyNeedsBinding(rt: Runtime, files: Files, claims: Claims)
    requires Consistent(rt, files, claims)
    ensures OriginResultBody in files <==> OriginResultBinding in files
  {
    hide DocumentHolds, SchemasHold, IntegrityHolds, ReadOf, StateOf, Get;
    var state := StateOf(Get(claims.evidence.value, TerminalStateKey())).value;
    assert !Violates(state, files.Keys, OriginResultBody) && !Violates(state, files.Keys, OriginResultBinding);
  }

  lemma BoundSidecars(rt: Runtime, f: Files, g: Files, evidence: Json)
    requires Faithful(rt) && IntegrityHolds(rt, f, evidence) && IntegrityHolds(rt, g, evidence)
    ensures SameSidecars(rt, f, g)
  {
    hide JsonBound, BytesBound, BodyBound, ReadOf, Get, Faithful, Equivalent;
    BoundDocuments(rt, f, g, RequestBinding, Get(evidence, RequestBindingDigestKey()));
    BoundDocuments(rt, f, g, OriginResultBinding, Get(evidence, OriginResultBindingDigestKey()));
    BoundDocuments(rt, f, g, ChainObservation, Get(evidence, ChainObservationDigestKey()));
  }

  lemma ConsistentContents(rt: Runtime, f: Files, g: Files, claims: Claims)
    requires Faithful(rt) && Consistent(rt, f, claims) && Consistent(rt, g, claims)
    ensures SameContents(rt, f, g)
  {
    SameArtifacts(rt, f, g, claims);
    BodyNeedsBinding(rt, f, claims);
    hide DocumentHolds, SchemasHold, JsonBound, BytesBound, BodyBound, ReadOf, Conforms, StateOf, Get, Faithful;
    hide SameSidecars;
    var evidence := claims.evidence.value;
    BoundSidecars(rt, f, g, evidence);
    BoundBytes(rt, f, g, PaymentRequiredText, Get(evidence, PaymentRequiredDigestKey()));
    BoundBytes(rt, f, g, PaymentSignatureText, Get(evidence, PaymentSignatureDigestKey()));
    BoundBytes(rt, f, g, PaymentResponseText, Get(evidence, PaymentResponseDigestKey()));
    BoundBodies(rt, f, g, Get(evidence, OriginResultBindingDigestKey()));
  }

  /** Acceptance pins the contents down: whatever two directories verify under one record's claims, whoever
      supplied the key description, they hold the same contents. */
  lemma AcceptedContentsAreUnique(
    rt: Runtime, first: Directory, second: Directory, key: Option<SuppliedKey>, key': Option<SuppliedKey>)
    requires Faithful(rt) && Accepts(rt, first, key) && Accepts(rt, second, key')
    requires RecordIn(rt, FilesIn(first)).value.claims == RecordIn(rt, FilesIn(second)).value.claims
    ensures SameContents(rt, FilesIn(first), FilesIn(second))
  {
    hide Consistent, Faithful, FilesIn, RecordIn, NativeAgrees, KeyAgrees, SameContents;
    ConsistentContents(rt, FilesIn(first), FilesIn(second), RecordIn(rt, FilesIn(first)).value.claims);
  }
}
