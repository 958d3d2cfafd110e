/** HTTP request components and their canonical authority: src/components.ts. An exception is no result.
    `isIP` of the runtime is a parameter. */
module Components {
  import opened Wrappers
  import opened CodeUnits
  import opened Numerals

  const AT: CodeUnit := 0x40
  const COLON: CodeUnit := 0x3A
  const SLASH: CodeUnit := 0x2F
  const QUESTION: CodeUnit := 0x3F
  const HASH: CodeUnit := 0x23
  const PERCENT: CodeUnit := 0x25
  const DOT: CodeUnit := 0x2E
  const OPEN: CodeUnit := 0x5B
  const SHUT: CodeUnit := 0x5D

  const MAX_TARGET_BYTES: nat := 8192

  datatype Scheme = Http | Https

  function SchemeText(scheme: Scheme): Text {
    if scheme == Http then Lit("http") else Lit("https")
  }

  datatype RequestComponents = RequestComponents(verb: Text, scheme: Scheme, authority: Text, path: Text, query: Text)

  // ---------------------------------------------------------------- character classes

  predicate IsLetter(u: CodeUnit) {
    0x41 <= u <= 0x5A || 0x61 <= u <= 0x7A
  }

  predicate IsTokenUnit(u: CodeUnit) {
    || IsLetter(u) || IsDigit(u)
    || u in {0x21, 0x23, 0x24, 0x25, 0x26, 0x27, 0x2A, 0x2B, 0x2D, 0x2E, 0x5E, 0x5F, 0x60, 0x7C, 0x7E}
  }

  predicate IsMethodToken(t: Text) {
    |t| > 0 && forall i | 0 <= i < |t| :: IsTokenUnit(t[i])
  }

  predicate IsRegNameUnit(u: CodeUnit) {
    || IsLetter(u) || IsDigit(u)
    || u in {0x2D, 0x2E, 0x5F, 0x7E, 0x21, 0x24, 0x26, 0x27, 0x28, 0x29, 0x2A, 0x2B, 0x2C, 0x3B, 0x3D, 0x25}
  }

  predicate IsRegName(t: Text) {
    |t| > 0 && forall i | 0 <= i < |t| :: IsRegNameUnit(t[i])
  }

  /** Every percent sign begins an encoded octet. */
  predicate PercentOk(t: Text) {
    forall i | 0 <= i < |t| && t[i] == PERCENT :: i + 2 < |t| && IsHexDigit(t[i + 1]) && IsHexDigit(t[i + 2])
  }

  predicate IsIpv4Like(t: Text) {
    forall i | 0 <= i < |t| :: IsDigit(t[i]) || t[i] == DOT
  }

  /** `v`, hexadecimal digits and a dot: the beginning of an IPvFuture literal. */
  predicate IsIpFuture(t: Text) {
    && |t| > 0 && (t[0] == 0x76 || t[0] == 0x56)
    && exists k | 2 <= k < |t| :: t[k] == DOT && forall i | 1 <= i < k :: IsHexDigit(t[i])
  }

  /** The first position holding one of these units, or the length. */
  function FirstOf(t: Text, stops: set<CodeUnit>): (n: nat)
    ensures n <= |t|
    ensures forall i | 0 <= i < n :: t[i] !in stops
    ensures n < |t| ==> t[n] in stops
  {
    if t == [] || t[0] in stops then 0 else 1 + FirstOf(t[1..], stops)
  }

  // ---------------------------------------------------------------- the authority

  /** The runtime's `isIP`: 4, 6, or 0 for neither. */
  type IsIp = Text -> nat

  /** What is relied on of it: case does not matter, and an IPv6 address has no unit that ends an authority. */
  ghost predicate Sound(isIp: IsIp) {
    && (forall t: Text :: isIp(Lower(t)) == isIp(t))
    && (forall t: Text, i: nat | isIp(t) == 6 && i < |t| :: t[i] !in {SLASH, QUESTION, HASH, SHUT})
  }

  datatype HostPort = HostPort(host: Text, port: Text)

  predicate IsBracketedHost(isIp: IsIp, host: Text) {
    && |host| > 2
    && !IsIpFuture(host[1..|host| - 1])
    && isIp(host[1..|host| - 1]) == 6
  }

  predicate IsNamedHost(isIp: IsIp, host: Text) {
    IsRegName(host) && PercentOk(host) && (IsIpv4Like(host) ==> isIp(host) == 4)
  }

  /** Where the host ends and the port begins, for either kind of host. */
  function SplitAuthority(isIp: IsIp, raw: Text): Option<HostPort> {
    if raw == [] || AT in raw then None
    else if raw[0] == OPEN then
      var shut := FirstOf(raw, {SHUT});
      if shut == |raw| then None
      else
        var host, rest := raw[..shut + 1], raw[shut + 1..];
        if rest != [] && rest[0] != COLON then None
        else if !IsBracketedHost(isIp, host) then None
        else Some(HostPort(host, if rest == [] then [] else rest[1..]))
    else
      var colon := FirstOf(raw, {COLON});
      var host, port := raw[..colon], if colon == |raw| then [] else raw[colon + 1..];
      if COLON in port then None
      else if !IsNamedHost(isIp, host) then None
      else Some(HostPort(host, port))
  }

  /** The port in canonical decimal; empty for none or an empty one. */
  function CanonicalPort(port: Text): Option<Text> {
    if port == [] then Some([])
    else if !AllDigits(port) || DecimalValue(port) < 1 || DecimalValue(port) > 65535 then None
    else Some(Decimal(DecimalValue(port)))
  }

  function DefaultPort(scheme: Scheme): Text {
    Decimal(if scheme == Https then 443 else 80)
  }

  function CanonicalAuthority(isIp: IsIp, scheme: Scheme, raw: Text): Option<Text> {
    match SplitAuthority(isIp, raw)
    case None => None
    case Some(HostPort(host, port)) =>
      match CanonicalPort(port)
      case None => None
      case Some(normalized) =>
        Some(if normalized != [] && normalized != DefaultPort(scheme) then Lower(host) + [COLON] + normalized
             else Lower(host))
  }

  // ---------------------------------------------------------------- components

  predicate IsTargetUnit(u: CodeUnit) {
    0x20 < u < 0x7F && u != HASH
  }

  predicate IsTargetText(t: Text) {
    (forall i | 0 <= i < |t| :: IsTargetUnit(t[i])) && PercentOk(t)
  }

  /** The request target: a bare question mark stands for no query. */
  function Target(c: RequestComponents): Text {
    c.path + if c.query == [QUESTION] then [] else c.query
  }

  /** What `assertCanonicalComponents` lets through. */
  predicate IsCanonical(isIp: IsIp, c: RequestComponents) {
    && IsMethodToken(c.verb)
    && CanonicalAuthority(isIp, c.scheme, c.authority) == Some(c.authority)
    && |c.path| > 0 && c.path[0] == SLASH
    && |c.query| > 0 && c.query[0] == QUESTION
    && IsTargetText(c.path) && IsTargetText(c.query)
    && |Target(c)| <= MAX_TARGET_BYTES
  }

  function SchemeOf(t: Text): Option<Scheme> {
    if Lower(t) == Lit("http") then Some(Http) else if Lower(t) == Lit("https") then Some(Https) else None
  }

  /** `captureRequestComponents` up to its own assertion. */
  function Built(isIp: IsIp, verb: Text, scheme: Text, authority: Text, raw: Text): Option<RequestComponents> {
    if !IsMethodToken(verb) || SchemeOf(scheme).None? then None
    else if raw == [] || |raw| > MAX_TARGET_BYTES || raw[0] != SLASH then None
    else if !(forall i | 0 <= i < |raw| :: IsTargetUnit(raw[i])) then None
    else
      var q := FirstOf(raw, {QUESTION});
      var path, query := raw[..q], if q == |raw| then [QUESTION] else raw[q..];
      if !PercentOk(path) || !PercentOk(query) then None
      else
        match CanonicalAuthority(isIp, SchemeOf(scheme).value, authority)
        case None => None
        case Some(canonical) => Some(RequestComponents(verb, SchemeOf(scheme).value, canonical, path, query))
  }

  function CaptureRequestComponents(isIp: IsIp, verb: Text, scheme: Text, authority: Text, raw: Text)
    : Option<RequestComponents>
  {
    match Built(isIp, verb, scheme, authority, raw)
    case None => None
    case Some(c) => if IsCanonical(isIp, c) then Some(c) else None
  }

  predicate IsSchemeUnit(u: CodeUnit) {
    IsLetter(u) || IsDigit(u) || u == 0x2B || u == DOT || u == 0x2D
  }

  predicate IsSchemeName(t: Text) {
    |t| > 0 && IsLetter(t[0]) && forall i | 0 <= i < |t| :: IsSchemeUnit(t[i])
  }

  function ComponentsFromAbsoluteUri(isIp: IsIp, verb: Text, uri: Text): Option<RequestComponents> {
    var colon := FirstOf(uri, {COLON});
    if !IsSchemeName(uri[..colon]) || colon + 3 > |uri| || uri[colon..colon + 3] != [COLON, SLASH, SLASH] then None
    else
      var after := uri[colon + 3..];
      var end := FirstOf(after, {SLASH, QUESTION, HASH});
      var remainder := after[end..];
      var raw := if remainder == [] then [SLASH] else if remainder[0] == SLASH then remainder else [SLASH] + remainder;
      CaptureRequestComponents(isIp, verb, uri[..colon], after[..end], raw)
  }

  function AbsoluteUri(c: RequestComponents): Text {
    SchemeText(c.scheme) + [COLON, SLASH, SLASH] + c.authority + Target(c)
  }

  // ---------------------------------------------------------------- canonical means canonical

  lemma {:induction false} FirstOfJoin(a: Text, b: Text, stops: set<CodeUnit>)
    requires forall i | 0 <= i < |a| :: a[i] !in stops
    ensures FirstOf(a + b, stops) == |a| + FirstOf(b, stops)
  {
    if a == [] {
      assert a + b == b;
    } else {
      assert (a + b)[1..] == a[1..] + b;
      FirstOfJoin(a[1..], b, stops);
    }
  }

  lemma LowerHex(u: CodeUnit)
    ensures IsHexDigit(LowerUnit(u)) <==> IsHexDigit(u)
    ensures IsRegNameUnit(LowerUnit(u)) <==> IsRegNameUnit(u)
    ensures IsDigit(LowerUnit(u)) <==> IsDigit(u)
    ensures !IsLetter(u) ==> LowerUnit(u) == u
    ensures forall v: CodeUnit :: !IsLetter(v) ==> (LowerUnit(u) == v <==> u == v)
  {
  }

  lemma LowerFuture(t: Text)
    ensures IsIpFuture(Lower(t)) <==> IsIpFuture(t)
  {
    if IsIpFuture(t) {
      var k :| 2 <= k < |t| && t[k] == DOT && forall i | 1 <= i < k :: IsHexDigit(t[i]);
      assert Lower(t)[k] == DOT && forall i | 1 <= i < k :: IsHexDigit(Lower(t)[i]);
    }
    if IsIpFuture(Lower(t)) {
      var l := Lower(t);
      var k :| 2 <= k < |l| && l[k] == DOT && forall i | 1 <= i < k :: IsHexDigit(l[i]);
      forall i | 1 <= i < k ensures IsHexDigit(t[i]) {
        assert IsHexDigit(l[i]);
      }
      assert t[k] == DOT;
    }
  }

  lemma LowerBracketed(isIp: IsIp, host: Text)
    requires Sound(isIp) && IsBracketedHost(isIp, host)
    ensures IsBracketedHost(isIp, Lower(host))
  {
    var inner := host[1..|host| - 1];
    assert Lower(host)[1..|host| - 1] == Lower(inner);
    LowerFuture(inner);
  }

  lemma LowerNamed(isIp: IsIp, host: Text)
    requires Sound(isIp) && IsNamedHost(isIp, host)
    ensures IsNamedHost(isIp, Lower(host))
    ensures |host| > 0 && COLON !in Lower(host) && AT !in Lower(host) && Lower(host)[0] != OPEN
  {
    var l := Lower(host);
    forall i | 0 <= i < |host| ensures IsRegNameUnit(l[i]) && (l[i] == PERCENT <==> host[i] == PERCENT) {
      LowerHex(host[i]);
    }
    forall i | 0 <= i < |l| && l[i] == PERCENT ensures i + 2 < |l| && IsHexDigit(l[i + 1]) && IsHexDigit(l[i + 2]) {
      LowerHex(host[i + 1]);
      LowerHex(host[i + 2]);
    }
    if IsIpv4Like(l) {
      forall i | 0 <= i < |host| ensures IsDigit(host[i]) || host[i] == DOT {
        LowerHex(host[i]);
        assert IsDigit(l[i]) || l[i] == DOT;
      }
    }
  }

  lemma PortIsCanonical(port: Text)
    requires CanonicalPort(port).Some?
    ensures CanonicalPort(CanonicalPort(port).value) == CanonicalPort(port)
    ensures COLON !in CanonicalPort(port).value && AT !in CanonicalPort(port).value
    ensures forall u | u in CanonicalPort(port).value :: IsDigit(u)
  {
    if port != [] {
      var n := DecimalValue(port);
      DecimalRoundTrip(n);
    }
  }

  function WithPort(host: Text, port: Text): Text {
    if port == [] then host else host + [COLON] + port
  }

  /** A host with a port, or with a bare colon or nothing for none. */
  predicate Joins(raw: Text, host: Text, port: Text) {
    raw == host + [COLON] + port || (port == [] && raw == host)
  }

  lemma NamedSplits(isIp: IsIp, raw: Text, host: Text, port: Text)
    requires |host| > 0 && IsNamedHost(isIp, host) && COLON !in host && AT !in raw && host[0] != OPEN
    requires COLON !in port && Joins(raw, host, port)
    ensures SplitAuthority(isIp, raw) == Some(HostPort(host, port))
  {
    hide IsNamedHost;
    if raw == host {
      FirstOfJoin(host, [], {COLON});
      assert host + [] == host;
      assert raw[..|host|] == host;
    } else {
      FirstOfJoin(host, [COLON] + port, {COLON});
      assert raw == host + ([COLON] + port);
      assert raw[..|host|] == host && raw[|host| + 1..] == port;
    }
  }

  lemma NamedSplit(isIp: IsIp, host: Text, port: Text)
    requires |host| > 0 && IsNamedHost(isIp, host) && COLON !in host && AT !in host && host[0] != OPEN
    requires COLON !in port && AT !in port
    ensures SplitAuthority(isIp, WithPort(host, port)) == Some(HostPort(host, port))
  {
    hide IsNamedHost;
    NamedSplits(isIp, WithPort(host, port), host, port);
  }

  lemma BracketedSplits(isIp: IsIp, raw: Text, host: Text, port: Text)
    requires |host| > 2 && IsBracketedHost(isIp, host) && host[0] == OPEN && host[|host| - 1] == SHUT
    requires forall i | 0 <= i < |host| - 1 :: host[i] != SHUT
    requires AT !in raw && Joins(raw, host, port)
    ensures SplitAuthority(isIp, raw) == Some(HostPort(host, port))
  {
    hide IsBracketedHost;
    var body := host[..|host| - 1];
    var rest := if raw == host then [] else [COLON] + port;
    assert raw == body + ([SHUT] + rest);
    ShutAt(body, rest);
    assert raw[..|host|] == host && raw[|host|..] == rest;
    assert raw[0] == OPEN;
  }

  lemma BracketedSplit(isIp: IsIp, host: Text, port: Text)
    requires |host| > 2 && IsBracketedHost(isIp, host) && host[0] == OPEN && host[|host| - 1] == SHUT
    requires forall i | 0 <= i < |host| - 1 :: host[i] != SHUT
    requires AT !in host && AT !in port
    ensures SplitAuthority(isIp, WithPort(host, port)) == Some(HostPort(host, port))
  {
    hide IsBracketedHost;
    BracketedSplits(isIp, WithPort(host, port), host, port);
  }

  lemma ShutAt(body: Text, rest: Text)
    requires forall i | 0 <= i < |body| :: body[i] != SHUT
    ensures FirstOf(body + ([SHUT] + rest), {SHUT}) == |body|
  {
    FirstOfJoin(body, [SHUT] + rest, {SHUT});
  }

  /** The host and port a canonical authority was made of can be read back from it. */
  lemma CanonicalSplits(isIp: IsIp, raw: Text, port: Text)
    requires Sound(isIp) && SplitAuthority(isIp, raw).Some?
    requires forall u | u in port :: IsDigit(u)
    ensures
      var host := Lower(SplitAuthority(isIp, raw).value.host);
      SplitAuthority(isIp, WithPort(host, port)) == Some(HostPort(host, port))
  {
    hide Sound, IsBracketedHost, IsNamedHost, WithPort;
    var host := SplitAuthority(isIp, raw).value.host;
    if raw[0] == OPEN {
      LowerBracketed(isIp, host);
      LowerKeeps(host, SHUT);
      LowerKeeps(host, AT);
      LowerKeeps(host, OPEN);
      BracketedSplit(isIp, Lower(host), port);
    } else {
      LowerNamed(isIp, host);
      NamedSplit(isIp, Lower(host), port);
    }
  }

  lemma LowerKeeps(t: Text, u: CodeUnit)
    requires !IsLetter(u)
    ensures forall i | 0 <= i < |t| :: Lower(t)[i] == u <==> t[i] == u
    ensures u in Lower(t) <==> u in t
  {
    forall i | 0 <= i < |t| ensures Lower(t)[i] == u <==> t[i] == u {
      LowerHex(t[i]);
    }
    if u in Lower(t) {
      var i :| 0 <= i < |t| && Lower(t)[i] == u;
      assert t[i] == u;
    }
    if u in t {
      var i :| 0 <= i < |t| && t[i] == u;
      assert Lower(t)[i] == u;
    }
  }

  /** Canonicalizing an authority again changes nothing. */
  lemma CanonicalIsIdempotent(isIp: IsIp, scheme: Scheme, raw: Text)
    requires Sound(isIp) && CanonicalAuthority(isIp, scheme, raw).Some?
    ensures
      var canonical := CanonicalAuthority(isIp, scheme, raw);
      CanonicalAuthority(isIp, scheme, canonical.value) == canonical
  {
    hide SplitAuthority, CanonicalPort, Sound, Lower, DefaultPort;
    var HostPort(host, port) := SplitAuthority(isIp, raw).value;
    var normalized := CanonicalPort(port).value;
    PortIsCanonical(port);
    var kept := if normalized == DefaultPort(scheme) then [] else normalized;
    CanonicalSplits(isIp, raw, kept);
    LowerIdempotent(host);
    assert CanonicalPort([]) == Some([]) by {
      EmptyPort();
    }
  }

  lemma EmptyPort()
    ensures CanonicalPort([]) == Some([])
  {
  }

  /** The port a request goes to: the one named, or the scheme's own, 443 for https and 80 for http. */
  function EffectivePort(scheme: Scheme, port: Text): nat
    requires AllDigits(port)
  {
    if port != [] then DecimalValue(port) else if scheme == Https then 443 else 80
  }

  lemma PortDigits(port: Text)
    requires CanonicalPort(port).Some?
    ensures AllDigits(port)
  {
  }

  /** The port a canonical authority keeps: none when it is the scheme's own. */
  function KeptPort(scheme: Scheme, port: Text): Text
    requires CanonicalPort(port).Some?
  {
    var normalized := CanonicalPort(port).value;
    if normalized == DefaultPort(scheme) then [] else normalized
  }

  lemma KeptPortNames(scheme: Scheme, a: Text, b: Text)
    requires CanonicalPort(a).Some? && CanonicalPort(b).Some? && AllDigits(a) && AllDigits(b)
    ensures KeptPort(scheme, a) == KeptPort(scheme, b) <==> EffectivePort(scheme, a) == EffectivePort(scheme, b)
  {
    hide Decimal, DecimalValue;
    DecimalRoundTrip(443);
    DecimalRoundTrip(80);
    if a != [] {
      DecimalRoundTrip(DecimalValue(a));
    }
    if b != [] {
      DecimalRoundTrip(DecimalValue(b));
    }
  }

  lemma CanonicalParts(isIp: IsIp, scheme: Scheme, raw: Text)
    requires Sound(isIp) && CanonicalAuthority(isIp, scheme, raw).Some?
    ensures
      var HostPort(host, port) := SplitAuthority(isIp, raw).value;
      && CanonicalAuthority(isIp, scheme, raw).value == WithPort(Lower(host), KeptPort(scheme, port))
      && SplitAuthority(isIp, CanonicalAuthority(isIp, scheme, raw).value) ==
           Some(HostPort(Lower(host), KeptPort(scheme, port)))
  {
    hide SplitAuthority, CanonicalPort, Sound, Lower, DefaultPort;
    var HostPort(host, port) := SplitAuthority(isIp, raw).value;
    PortIsCanonical(port);
    CanonicalSplits(isIp, raw, KeptPort(scheme, port));
  }

  /** Two authorities have one canonical form exactly when they name the same host, case apart, and the same
      port, a default or empty one being the scheme's own. */
  lemma CanonicalFormsAgree(isIp: IsIp, scheme: Scheme, a: Text, b: Text)
    requires Sound(isIp) && CanonicalAuthority(isIp, scheme, a).Some? && CanonicalAuthority(isIp, scheme, b).Some?
    ensures
      var x, y := SplitAuthority(isIp, a).value, SplitAuthority(isIp, b).value;
      && AllDigits(x.port) && AllDigits(y.port)
      && (CanonicalAuthority(isIp, scheme, a) == CanonicalAuthority(isIp, scheme, b) <==>
            Lower(x.host) == Lower(y.host) && EffectivePort(scheme, x.port) == EffectivePort(scheme, y.port))
  {
    hide Sound, SplitAuthority, KeptPort, EffectivePort, CanonicalPort;
    var x, y := SplitAuthority(isIp, a).value, SplitAuthority(isIp, b).value;
    CanonicalParts(isIp, scheme, a);
    CanonicalParts(isIp, scheme, b);
    PortDigits(x.port);
    PortDigits(y.port);
    KeptPortNames(scheme, x.port, y.port);
  }

  /** A host that may stand in an authority: an IPv6 address in brackets, or a registered name, which if it is digits
      and dots only must be an IPv4 address. */
  predicate HostFits(isIp: IsIp, host: Text) {
    if host != [] && host[0] == OPEN then
      |host| > 2 && host[|host| - 1] == SHUT && !IsIpFuture(host[1..|host| - 1]) && isIp(host[1..|host| - 1]) == 6
    else
      && IsRegName(host) && PercentOk(host)
      && (isIp(host) == 4 || exists i | 0 <= i < |host| :: !IsDigit(host[i]) && host[i] != DOT)
  }

  /** A port that may: none, or a number from 1 to 65535. */
  predicate PortFits(port: Text) {
    port == [] || (AllDigits(port) && 1 <= DecimalValue(port) <= 65535)
  }

  /** The authority is a fitting host, alone or with a colon and a fitting port. */
  predicate IsHostAndPort(isIp: IsIp, raw: Text, host: Text, port: Text) {
    HostFits(isIp, host) && PortFits(port) && Joins(raw, host, port)
  }

  /** An authority is admitted exactly when it is a fitting host with a fitting port or none, and no user. */
  lemma AuthorityIsExact(isIp: IsIp, scheme: Scheme, raw: Text)
    requires Sound(isIp)
    ensures CanonicalAuthority(isIp, scheme, raw).Some? <==>
      AT !in raw && exists host, port :: IsHostAndPort(isIp, raw, host, port)
  {
    hide Sound, DefaultPort, HostFits, PortFits;
    if CanonicalAuthority(isIp, scheme, raw).Some? {
      var HostPort(host, port) := SplitAuthority(isIp, raw).value;
      AdmittedFits(isIp, scheme, raw);
    }
    if AT !in raw {
      forall host, port | IsHostAndPort(isIp, raw, host, port)
        ensures CanonicalAuthority(isIp, scheme, raw).Some?
      {
        FitsAdmitted(isIp, raw, host, port);
        FittingPort(port);
      }
    }
  }

  lemma FittingPort(port: Text)
    ensures PortFits(port) <==> CanonicalPort(port).Some?
  {
  }

  lemma FittingHost(isIp: IsIp, host: Text)
    requires host != [] && host[0] != OPEN
    ensures HostFits(isIp, host) <==> IsNamedHost(isIp, host)
  {
    hide IsRegName, PercentOk;
  }

  lemma AdmittedFits(isIp: IsIp, scheme: Scheme, raw: Text)
    requires CanonicalAuthority(isIp, scheme, raw).Some?
    ensures AT !in raw
    ensures
      var HostPort(host, port) := SplitAuthority(isIp, raw).value;
      IsHostAndPort(isIp, raw, host, port)
  {
    hide SplitAuthority, DefaultPort, CanonicalPort, HostFits, PortFits, Joins;
    FittingPort(SplitAuthority(isIp, raw).value.port);
    SplitFits(isIp, raw);
  }

  lemma SplitFits(isIp: IsIp, raw: Text)
    requires SplitAuthority(isIp, raw).Some?
    ensures AT !in raw
    ensures
      var HostPort(host, port) := SplitAuthority(isIp, raw).value;
      HostFits(isIp, host) && Joins(raw, host, port)
  {
    hide IsNamedHost, IsBracketedHost, HostFits, Joins;
    if raw[0] == OPEN {
      BracketedSplitFits(isIp, raw);
    } else {
      NamedSplitFits(isIp, raw);
    }
  }

  lemma BracketedSplitFits(isIp: IsIp, raw: Text)
    requires SplitAuthority(isIp, raw).Some? && raw[0] == OPEN
    ensures
      var HostPort(host, port) := SplitAuthority(isIp, raw).value;
      HostFits(isIp, host) && Joins(raw, host, port)
  {
    hide IsNamedHost, IsBracketedHost, HostFits;
    var shut := FirstOf(raw, {SHUT});
    var host, rest := raw[..shut + 1], raw[shut + 1..];
    assert raw == host + rest;
    assert rest != [] ==> rest == [COLON] + rest[1..];
    BracketsFit(isIp, host);
  }

  lemma NamedSplitFits(isIp: IsIp, raw: Text)
    requires SplitAuthority(isIp, raw).Some? && raw[0] != OPEN
    ensures
      var HostPort(host, port) := SplitAuthority(isIp, raw).value;
      HostFits(isIp, host) && Joins(raw, host, port)
  {
    hide IsNamedHost, IsBracketedHost, HostFits;
    var colon := FirstOf(raw, {COLON});
    var host, rest := raw[..colon], raw[colon..];
    assert raw == host + rest;
    assert rest != [] ==> rest == [COLON] + raw[colon + 1..];
    NamedHostIsThere(isIp, host);
    FittingHost(isIp, host);
  }

  lemma NamedHostIsThere(isIp: IsIp, host: Text)
    requires IsNamedHost(isIp, host)
    ensures host != [] && host[0] != OPEN && COLON !in host
  {
  }

  lemma BracketsFit(isIp: IsIp, host: Text)
    requires host != [] && host[0] == OPEN && host[|host| - 1] == SHUT && IsBracketedHost(isIp, host)
    ensures HostFits(isIp, host)
  {
  }

  lemma FitsAdmitted(isIp: IsIp, raw: Text, host: Text, port: Text)
    requires Sound(isIp) && AT !in raw && IsHostAndPort(isIp, raw, host, port)
    ensures SplitAuthority(isIp, raw) == Some(HostPort(host, port))
  {
    hide IsIpFuture, PercentOk, DecimalValue, SplitAuthority;
    if host != [] && host[0] == OPEN {
      NothingShuts(isIp, host);
      BracketedSplits(isIp, raw, host, port);
    } else {
      FittingHost(isIp, host);
      NamedHostIsThere(isIp, host);
      NamedSplits(isIp, raw, host, port);
    }
  }

  lemma NothingShuts(isIp: IsIp, host: Text)
    requires Sound(isIp) && HostFits(isIp, host) && host != [] && host[0] == OPEN
    ensures forall i | 0 <= i < |host| - 1 :: host[i] != SHUT
    ensures IsBracketedHost(isIp, host)
  {
    hide IsIpFuture;
    var inner := host[1..|host| - 1];
    forall i | 0 <= i < |host| - 1 ensures host[i] != SHUT {
      if i > 0 {
        assert host[i] == inner[i - 1];
      }
    }
  }

  /** Whatever capture builds passes the assertion it ends with: a bad message is refused before it. */
  lemma CaptureNeverFailsItsAssertion(isIp: IsIp, verb: Text, scheme: Text, authority: Text, raw: Text)
    requires Sound(isIp)
    ensures CaptureRequestComponents(isIp, verb, scheme, authority, raw) == Built(isIp, verb, scheme, authority, raw)
    ensures
      var c := Built(isIp, verb, scheme, authority, raw);
      c.Some? ==> QUESTION !in c.value.path && (Target(c.value) == raw || Target(c.value) + [QUESTION] == raw)
  {
    hide CanonicalAuthority, Sound, PercentOk, IsMethodToken, SchemeOf;
    if Built(isIp, verb, scheme, authority, raw).Some? {
      var c := Built(isIp, verb, scheme, authority, raw).value;
      CanonicalIsIdempotent(isIp, c.scheme, authority);
      var q := FirstOf(raw, {QUESTION});
      assert raw == raw[..q] + raw[q..];
      assert c.path == raw[..q] && forall i | 0 <= i < q :: c.path[i] == raw[i];
      assert forall i | 0 <= i < |c.query| :: q < |raw| ==> c.query[i] == raw[q + i];
      assert q > 0;
    }
  }

  // ---------------------------------------------------------------- back from an absolute URI

  lemma SchemeReadsBack(scheme: Scheme)
    ensures IsSchemeName(SchemeText(scheme)) && COLON !in SchemeText(scheme)
    ensures SchemeOf(SchemeText(scheme)) == Some(scheme)
  {
    assert Lower(Lit("http")) == Lit("http") && Lower(Lit("https")) == Lit("https");
    LitInjective("http", "https");
  }

  predicate EndsNothing(t: Text) {
    forall i | 0 <= i < |t| :: t[i] !in {SLASH, QUESTION, HASH}
  }

  /** No unit of a canonical authority ends it. */
  lemma AuthorityEnds(isIp: IsIp, scheme: Scheme, authority: Text)
    requires Sound(isIp) && CanonicalAuthority(isIp, scheme, authority) == Some(authority)
    ensures EndsNothing(authority)
  {
    hide SplitAuthority, CanonicalPort, DefaultPort, Lower, Sound, EndsNothing;
    var HostPort(host, port) := SplitAuthority(isIp, authority).value;
    HostEnds(isIp, authority);
    PortIsCanonical(port);
    JoinedEndsNothing(host, CanonicalPort(port).value);
  }

  lemma JoinedEndsNothing(host: Text, port: Text)
    requires EndsNothing(host) && forall u | u in port :: IsDigit(u)
    ensures EndsNothing(Lower(host)) && EndsNothing(Lower(host) + [COLON] + port)
  {
    forall i | 0 <= i < |host| ensures Lower(host)[i] !in {SLASH, QUESTION, HASH} {
      LowerHex(host[i]);
    }
    forall i | 0 <= i < |port| ensures port[i] !in {SLASH, QUESTION, HASH} {
      assert IsDigit(port[i]);
    }
  }

  lemma HostEnds(isIp: IsIp, authority: Text)
    requires Sound(isIp) && SplitAuthority(isIp, authority).Some?
    ensures EndsNothing(SplitAuthority(isIp, authority).value.host)
  {
    var host := SplitAuthority(isIp, authority).value.host;
    if authority[0] == OPEN {
      var inner := host[1..|host| - 1];
      forall i | 0 <= i < |host| ensures host[i] !in {SLASH, QUESTION, HASH} {
        if 0 < i < |host| - 1 {
          assert host[i] == inner[i - 1];
        }
      }
    } else {
      forall i | 0 <= i < |host| ensures host[i] !in {SLASH, QUESTION, HASH} {
        assert IsRegNameUnit(host[i]);
      }
    }
  }

  lemma UriParts(scheme: Text, authority: Text, target: Text)
    requires COLON !in scheme && EndsNothing(authority) && target != [] && target[0] == SLASH
    ensures
      var uri := scheme + [COLON, SLASH, SLASH] + authority + target;
      var colon := FirstOf(uri, {COLON});
      && colon == |scheme| && colon + 3 <= |uri|
      && uri[..colon] == scheme && uri[colon..colon + 3] == [COLON, SLASH, SLASH]
      && uri[colon + 3..] == authority + target
    ensures
      var end := FirstOf(authority + target, {SLASH, QUESTION, HASH});
      end == |authority| && (authority + target)[..end] == authority && (authority + target)[end..] == target
  {
    var tail := [COLON, SLASH, SLASH] + (authority + target);
    assert scheme + [COLON, SLASH, SLASH] + authority + target == scheme + tail;
    FirstOfJoin(scheme, tail, {COLON});
    FirstOfJoin(authority, target, {SLASH, QUESTION, HASH});
  }

  /** The absolute form splits into the scheme, the authority and the target it was put together from. */
  lemma UriSplits(isIp: IsIp, c: RequestComponents)
    requires Sound(isIp) && IsCanonical(isIp, c)
    ensures ComponentsFromAbsoluteUri(isIp, c.verb, AbsoluteUri(c)) ==
      CaptureRequestComponents(isIp, c.verb, SchemeText(c.scheme), c.authority, Target(c))
  {
    hide CaptureRequestComponents, IsSchemeName, SchemeText, Sound, CanonicalAuthority, IsTargetText, EndsNothing,
      FirstOf;
    SchemeReadsBack(c.scheme);
    AuthorityEnds(isIp, c.scheme, c.authority);
    UriParts(SchemeText(c.scheme), c.authority, Target(c));
  }

  /** Splitting the target at its first question mark. */
  lemma TargetSplits(isIp: IsIp, c: RequestComponents)
    requires Sound(isIp) && IsCanonical(isIp, c)
    ensures
      var raw := Target(c);
      var q := FirstOf(raw, {QUESTION});
      && 0 < |raw| <= MAX_TARGET_BYTES && raw[0] == SLASH
      && (forall i | 0 <= i < |raw| :: IsTargetUnit(raw[i]))
      && PercentOk(raw[..q]) && (q < |raw| ==> PercentOk(raw[q..]))
      && (raw[..q] == c.path <==> QUESTION !in c.path)
      && (QUESTION !in c.path ==> (if q == |raw| then [QUESTION] else raw[q..]) == c.query)
  {
    hide Sound, CanonicalAuthority, IsMethodToken, IsTargetUnit;
    var raw := Target(c);
    var q := FirstOf(raw, {QUESTION});
    var tail := if c.query == [QUESTION] then [] else c.query;
    assert raw == c.path + tail;
    assert forall i | 0 <= i < |c.path| :: raw[i] == c.path[i];
    assert forall i | |c.path| <= i < |raw| :: raw[i] == c.query[i - |c.path|];
    PercentSplits(c.path, tail, q);
    if QUESTION !in c.path {
      FirstOfJoin(c.path, tail, {QUESTION});
      assert raw[..q] == c.path && raw[q..] == tail;
    }
  }

  lemma PercentSplits(a: Text, b: Text, q: nat)
    requires PercentOk(a) && PercentOk(b) && q <= |a + b|
    requires q < |a + b| ==> (a + b)[q] == QUESTION
    ensures PercentOk((a + b)[..q]) && PercentOk((a + b)[q..])
  {
    var t := a + b;
    forall i | 0 <= i < |t| && t[i] == PERCENT ensures i + 2 < |t| && IsHexDigit(t[i + 1]) && IsHexDigit(t[i + 2]) {
      if i < |a| {
        assert a[i] == PERCENT;
      } else {
        assert b[i - |a|] == PERCENT;
      }
    }
    forall i | 0 <= i < q && t[i] == PERCENT ensures i + 2 < q {
      assert !IsHexDigit(QUESTION);
    }
  }

  /** The absolute form of canonical components, parsed back, is those components exactly when the path holds no
      question mark. Capture never puts one there; the assertion alone does not forbid it. */
  lemma AbsoluteUriRoundTrip(isIp: IsIp, c: RequestComponents)
    requires Sound(isIp) && IsCanonical(isIp, c)
    ensures ComponentsFromAbsoluteUri(isIp, c.verb, AbsoluteUri(c)) == Some(c) <==> QUESTION !in c.path
  {
    hide Sound, CanonicalAuthority, IsTargetUnit, PercentOk, Target, SchemeOf;
    UriSplits(isIp, c);
    SchemeReadsBack(c.scheme);
    TargetSplits(isIp, c);
    CaptureNeverFailsItsAssertion(isIp, c.verb, SchemeText(c.scheme), c.authority, Target(c));
  }

  /** Canonical components whose path does hold one. */
  lemma QuestionMarkInPathIsLost(isIp: IsIp)
    requires Sound(isIp)
    ensures
      var c := RequestComponents(Lit("GET"), Http, Lit("a.b"), Lit("/a?b"), Lit("?"));
      IsCanonical(isIp, c) && ComponentsFromAbsoluteUri(isIp, c.verb, AbsoluteUri(c)) != Some(c)
  {
    hide CanonicalAuthority, IsMethodToken, IsTargetText, ComponentsFromAbsoluteUri, AbsoluteUri;
    var c := RequestComponents(Lit("GET"), Http, Lit("a.b"), Lit("/a?b"), Lit("?"));
    HostAloneIsCanonical(isIp, c.scheme, c.authority);
    PiecesAreAdmissible();
    assert c.path[2] == QUESTION;
    AbsoluteUriRoundTrip(isIp, c);
  }

  lemma PiecesAreAdmissible()
    ensures IsMethodToken(Lit("GET")) && IsTargetText(Lit("/a?b")) && IsTargetText(Lit("?"))
  {
  }

  lemma HostAloneIsCanonical(isIp: IsIp, scheme: Scheme, host: Text)
    requires host == Lit("a.b")
    ensures CanonicalAuthority(isIp, scheme, host) == Some(host)
  {
    hide CanonicalPort;
    EmptyPort();
    assert !IsDigit(host[0]);
    NamedSplit(isIp, host, []);
    assert Lower(host) == host;
  }
}
