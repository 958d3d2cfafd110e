/** What a bound digest identifies: two requests, or two results, with one binding digest are one and the same. */
module BindingIdentity {
  import opened Wrappers
  import opened CodeUnits
  import opened Json
  import opened Jcs
  import opened JcsCanonical
  import opened JsonObjects
  import opened Observation
  import opened Documents
  import opened Evidence
  import opened EvidenceUnique
  import Components

  /** Equivalent objects have equivalent members under one name, or neither has one. */
  lemma MemberAcross(a: Json, b: Json, name: Text)
    requires a.Obj? && b.Obj? && Equivalent(a, b)
    ensures Get(a, name).Some? <==> Get(b, name).Some?
    ensures Get(a, name).Some? ==> Equivalent(Get(a, name).value, Get(b, name).value)
  {
    hide Find;
    if Get(a, name).Some? {
      var i := FindIndex(a.members, name);
      assert Equivalent(a.members[i].value, Find(b.members, a.members[i].name).value);
    }
    if Get(b, name).Some? {
      var k := FindIndex(b.members, name);
      assert Find(a.members, b.members[k].name).Some?;
    }
  }

  /** The same for one part of two object literals. */
  lemma PartAcross(p: seq<Part>, q: seq<Part>, i: nat)
    requires DistinctNames(p) && DistinctNames(q) && |p| == |q| && i < |p| && p[i].name == q[i].name
    requires Equivalent(Object(p), Object(q))
    ensures p[i].value.Some? <==> q[i].value.Some?
    ensures p[i].value.Some? ==> Equivalent(p[i].value.value, q[i].value.value)
  {
    hide Equivalent, DistinctNames, Get, Members;
    ReadsBack(p, i);
    ReadsBack(q, i);
    MemberAcross(Object(p), Object(q), p[i].name);
  }

  lemma ComponentsAcross(c: Components.RequestComponents, d: Components.RequestComponents)
    requires Equivalent(Object(ComponentParts(c)), Object(ComponentParts(d)))
    ensures c == d
  {
    var p, q := ComponentParts(c), ComponentParts(d);
    ComponentNames(c);
    ComponentNames(d);
    hide DistinctNames, Object;
    PartAcross(p, q, 0);
    PartAcross(p, q, 1);
    PartAcross(p, q, 2);
    PartAcross(p, q, 3);
    PartAcross(p, q, 4);
    SchemesApart();
  }

  lemma SchemesApart()
    ensures Components.SchemeText(Components.Http) != Components.SchemeText(Components.Https)
  {
  }

  lemma HeadersAcross(a: Option<Text>, b: Option<Text>)
    requires Equivalent(SelectedHeaders(a), SelectedHeaders(b))
    ensures a == b
  {
    assert |SelectedHeaders(a).items| == |SelectedHeaders(b).items|;
    if a.Some? {
      assert Equivalent(SelectedHeaders(a).items[0], SelectedHeaders(b).items[0]);
      var p, q := HeaderParts(SignatureField(), a.value), HeaderParts(SignatureField(), b.value);
      hide Object;
      PartAcross(p, q, 1);
    }
  }

  /** A request binding names one request: no component, no digest is lost in it or confused with another. */
  lemma RequestBindingIdentifies(
    c: Components.RequestComponents, body: Text, signature: Option<Text>,
    d: Components.RequestComponents, body': Text, signature': Option<Text>)
    requires Equivalent(BuildRequestBinding(c, body, signature), BuildRequestBinding(d, body', signature'))
    ensures c == d && body == body' && signature == signature'
  {
    var p, q := RequestBindingParts(c, body, signature), RequestBindingParts(d, body', signature');
    RequestBindingNames(c, body, signature);
    RequestBindingNames(d, body', signature');
    hide DistinctNames, Object, ComponentParts, SelectedHeaders;
    PartAcross(p, q, 1);
    PartAcross(p, q, 2);
    PartAcross(p, q, 3);
    ComponentsAcross(c, d);
    HeadersAcross(signature, signature');
  }

  lemma ResultBindingIdentifies(
    status: NumberText, contentType: Text, body: Text, status': NumberText, contentType': Text, body': Text)
    requires Equivalent(
      BuildOriginResultBinding(status, contentType, body), BuildOriginResultBinding(status', contentType', body'))
    ensures status == status' && contentType == contentType' && body == body'
  {
    var p, q := OriginResultParts(status, contentType, body), OriginResultParts(status', contentType', body');
    OriginResultNames(status, contentType, body);
    OriginResultNames(status', contentType', body');
    hide DistinctNames, Object;
    PartAcross(p, q, 1);
    PartAcross(p, q, 2);
    PartAcross(p, q, 3);
  }

  /** What a reader of the binding finds under each derived component's own name. */
  lemma RequestBindingReads(c: Components.RequestComponents, body: Text, signature: Option<Text>)
    ensures
      var j := BuildRequestBinding(c, body, signature);
      && Get(j, BodyDigestKey()) == Stated(body)
      && Get(j, ComponentsKey()).Some?
      && var components := Get(j, ComponentsKey()).value;
      && Get(components, Lit("@method")) == Stated(c.verb)
      && Get(components, Lit("@scheme")) == Stated(Components.SchemeText(c.scheme))
      && Get(components, Lit("@authority")) == Stated(c.authority)
      && Get(components, Lit("@path")) == Stated(c.path)
      && Get(components, Lit("@query")) == Stated(c.query)
  {
    RequestBindingNames(c, body, signature);
    ComponentNames(c);
    var parts, named := RequestBindingParts(c, body, signature), ComponentParts(c);
    hide DistinctNames, Object, Components.SchemeText, SelectedHeaders, Get;
    ReadsBack(parts, 1);
    ReadsBack(parts, 2);
    ReadsBack(named, 0);
    ReadsBack(named, 1);
    ReadsBack(named, 2);
    ReadsBack(named, 3);
    ReadsBack(named, 4);
  }

  /** Two requests whose bindings have one digest are one request: the same components, the same body bytes, and
      the same digest of the payment field they were paid with. */
  lemma OneDigestOneRequest(
    rt: Runtime, c: Components.RequestComponents, body: Bytes, signature: Option<Text>,
    d: Components.RequestComponents, body': Bytes, signature': Option<Text>)
    requires Faithful(rt)
    requires
      var a, b := BuildRequestBinding(c, rt.hash(body), signature), BuildRequestBinding(d, rt.hash(body'), signature');
      DocumentDigest(rt, a).Some? && DocumentDigest(rt, a) == DocumentDigest(rt, b)
    ensures c == d && body == body' && signature == signature'
  {
    hide DocumentDigest, BuildRequestBinding, Distinct;
    var a, b := BuildRequestBinding(c, rt.hash(body), signature), BuildRequestBinding(d, rt.hash(body'), signature');
    RequestBindingShaped(c, rt.hash(body), signature);
    RequestBindingShaped(d, rt.hash(body'), signature');
    SameDigestSameDocument(rt, a, b);
    RequestBindingIdentifies(c, rt.hash(body), signature, d, rt.hash(body'), signature');
  }

  /** The same for results: status, content type and body. */
  lemma OneDigestOneResult(
    rt: Runtime, status: NumberText, contentType: Text, body: Bytes,
    status': NumberText, contentType': Text, body': Bytes)
    requires Faithful(rt)
    requires
      var a := BuildOriginResultBinding(status, contentType, rt.hash(body));
      var b := BuildOriginResultBinding(status', contentType', rt.hash(body'));
      DocumentDigest(rt, a).Some? && DocumentDigest(rt, a) == DocumentDigest(rt, b)
    ensures status == status' && contentType == contentType' && body == body'
  {
    hide DocumentDigest, BuildOriginResultBinding, Distinct;
    var a := BuildOriginResultBinding(status, contentType, rt.hash(body));
    var b := BuildOriginResultBinding(status', contentType', rt.hash(body'));
    OriginResultShaped(status, contentType, rt.hash(body));
    OriginResultShaped(status', contentType', rt.hash(body'));
    SameDigestSameDocument(rt, a, b);
    ResultBindingIdentifies(status, contentType, rt.hash(body), status', contentType', rt.hash(body'));
  }
}
