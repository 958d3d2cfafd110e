/** The in-process facilitator of src/flow/fixture-facilitator.ts: terms, the identity of an
    authorization, and settlement calls interleaved at their barrier. */
module Facilitator {
  import opened Wrappers
  import opened CodeUnits
  import opened Json

  datatype Terms = Terms(network: Text, scheme: Text, asset: Text, amount: Text, payTo: Text)

  /** A payment: the terms it accepted, and its scheme payload. */
  datatype Payload = Payload(accepted: Terms, inner: Json)

  datatype Behavior = Behavior(
    rejectVerification: Option<string>,
    rejectSettlement: Option<string>,
    throwOnVerify: Option<string>,
    throwOnSettle: Option<string>)

  function AuthorizationKey(): Text { Lit("authorization") }
  function SignatureKey(): Text { Lit("signature") }
  function FromKey(): Text { Lit("from") }
  function NonceKey(): Text { Lit("nonce") }

  predicate IsObjectLike(value: Option<Json>) {
    value.Some? && (value.value.Obj? || value.value.Arr?)
  }

  function CheckTerms(payload: Payload, requirements: Terms): Option<string> {
    var accepted := payload.accepted;
    if accepted.network != requirements.network then Some("network_mismatch")
    else if accepted.scheme != requirements.scheme then Some("scheme_mismatch")
    else if accepted.asset != requirements.asset then Some("asset_mismatch")
    else if accepted.amount != requirements.amount then Some("amount_mismatch")
    else if accepted.payTo != requirements.payTo then Some("recipient_mismatch")
    else if !IsObjectLike(Get(payload.inner, AuthorizationKey())) then Some("missing_authorization")
    else
      match GetText(payload.inner, SignatureKey())
      case Some(signature) => if signature == [] then Some("missing_authorization") else None
      case None => Some("missing_authorization")
  }

  /** A signature that is there and not empty. */
  predicate Signed(payload: Payload) {
    GetText(payload.inner, SignatureKey()).Some? && GetText(payload.inner, SignatureKey()).value != []
  }

  /** The payment accepted what was required, every term of it, and carries a signed authorization. */
  predicate OnGoodTerms(payload: Payload, requirements: Terms) {
    payload.accepted == requirements && IsObjectLike(Get(payload.inner, AuthorizationKey())) && Signed(payload)
  }

  /** The reason names something that is indeed wrong with the payment. */
  predicate NamesFault(reason: string, payload: Payload, requirements: Terms) {
    var accepted := payload.accepted;
    || (reason == "network_mismatch" && accepted.network != requirements.network)
    || (reason == "scheme_mismatch" && accepted.scheme != requirements.scheme)
    || (reason == "asset_mismatch" && accepted.asset != requirements.asset)
    || (reason == "amount_mismatch" && accepted.amount != requirements.amount)
    || (reason == "recipient_mismatch" && accepted.payTo != requirements.payTo)
    || (reason == "missing_authorization" && accepted == requirements && !OnGoodTerms(payload, requirements))
  }

  /** The terms check passes exactly the payments on good terms, and refuses any other for something that is wrong
      with it. */
  lemma TermsAreChecked(payload: Payload, requirements: Terms)
    ensures CheckTerms(payload, requirements).None? <==> OnGoodTerms(payload, requirements)
    ensures CheckTerms(payload, requirements).Some? ==>
      NamesFault(CheckTerms(payload, requirements).value, payload, requirements)
  {
    hide Get, GetText, AuthorizationKey, SignatureKey;
  }

  /** The authorizer and nonce a payload names, as presented. */
  function NamedPair(payload: Payload): Option<(Text, Text)> {
    var authorization := Get(payload.inner, AuthorizationKey());
    if !IsObjectLike(authorization) then None
    else
      match (GetText(authorization.value, FromKey()), GetText(authorization.value, NonceKey()))
      case (Some(payer), Some(nonce)) => Some((payer, nonce))
      case _ => None
  }

  const COLON: CodeUnit := 0x3A

  function PairIdentity(authorizer: Text, nonce: Text): Text {
    Lower(authorizer) + [COLON] + Lower(nonce)
  }

  function AuthorizationIdentity(payload: Payload): Option<Text> {
    match NamedPair(payload)
    case Some(pair) => Some(PairIdentity(pair.0, pair.1))
    case None => None
  }

  /** One pair, case apart. */
  predicate SamePair(authorizer: Text, nonce: Text, authorizer': Text, nonce': Text) {
    Lower(authorizer) == Lower(authorizer') && Lower(nonce) == Lower(nonce')
  }

  lemma ColonSurvives(t: Text)
    ensures COLON in Lower(t) <==> COLON in t
  {
    if COLON in t {
      var i :| 0 <= i < |t| && t[i] == COLON;
      assert Lower(t)[i] == COLON;
    }
    if COLON in Lower(t) {
      var i :| 0 <= i < |t| && Lower(t)[i] == COLON;
      assert t[i] == COLON;
    }
  }

  /** A text with one colon splits there only. */
  lemma OneSeparator(a: Text, n: Text, b: Text, m: Text)
    requires COLON !in a && COLON !in n && a + [COLON] + n == b + [COLON] + m
    ensures a == b && n == m
  {
    var t := a + [COLON] + n;
    forall i | 0 <= i < |t| && i != |a| ensures t[i] != COLON {
      assert t[i] == if i < |a| then a[i] else n[i - |a| - 1];
    }
    assert t == b + [COLON] + m && t[|b|] == COLON;
    assert t[..|a|] == a && t[|a| + 1..] == n;
    assert t[..|b|] == b && t[|b| + 1..] == m;
  }

  /** A pair without a colon shares its identity with no other. */
  lemma PlainPairIsAlone(authorizer: Text, nonce: Text, authorizer': Text, nonce': Text)
    requires COLON !in authorizer && COLON !in nonce
    requires PairIdentity(authorizer', nonce') == PairIdentity(authorizer, nonce)
    ensures SamePair(authorizer, nonce, authorizer', nonce')
  {
    ColonSurvives(authorizer);
    ColonSurvives(nonce);
    OneSeparator(Lower(authorizer), Lower(nonce), Lower(authorizer'), Lower(nonce'));
  }

  /** Where the separator goes makes no difference to the text. */
  lemma Regroup(x: Text, y: Text, z: Text)
    ensures PairIdentity(x + [COLON] + y, z) == PairIdentity(x, y + [COLON] + z)
  {
    LowerConcat(x + [COLON], y);
    LowerConcat(x, [COLON]);
    LowerConcat(y + [COLON], z);
    LowerConcat(y, [COLON]);
    assert Lower([COLON]) == [COLON];
    hide Lower;
    var a, b, c := Lower(x), Lower(y), Lower(z);
    assert a + [COLON] + b + [COLON] + c == a + [COLON] + (b + [COLON] + c);
  }

  lemma SplitOnce(t: Text) returns (x: Text, y: Text)
    requires COLON in t
    ensures t == x + [COLON] + y
  {
    var i :| 0 <= i < |t| && t[i] == COLON;
    x, y := t[..i], t[i + 1..];
  }

  /** A pair with one shares it with the pair the text splits into at that other place. */
  lemma ColonSplitsTwice(authorizer: Text, nonce: Text) returns (authorizer': Text, nonce': Text)
    requires COLON in authorizer || COLON in nonce
    ensures PairIdentity(authorizer', nonce') == PairIdentity(authorizer, nonce)
    ensures !SamePair(authorizer, nonce, authorizer', nonce')
  {
    hide PairIdentity;
    if COLON in authorizer {
      var x, y := SplitOnce(authorizer);
      Regroup(x, y, nonce);
      authorizer', nonce' := x, y + [COLON] + nonce;
    } else {
      var y, z := SplitOnce(nonce);
      Regroup(authorizer, y, z);
      authorizer', nonce' := authorizer + [COLON] + y, z;
    }
    assert |Lower(authorizer')| != |Lower(authorizer)|;
  }

  /** An identity names one pair, case apart, exactly when neither the authorizer nor the nonce holds a colon, as
      hexadecimal text never does. */
  lemma IdentityNamesThePair(authorizer: Text, nonce: Text)
    ensures (forall authorizer': Text, nonce': Text
               | PairIdentity(authorizer', nonce') == PairIdentity(authorizer, nonce) ::
               SamePair(authorizer, nonce, authorizer', nonce'))
      <==> COLON !in authorizer && COLON !in nonce
  {
    if COLON !in authorizer && COLON !in nonce {
      forall authorizer': Text, nonce': Text | PairIdentity(authorizer', nonce') == PairIdentity(authorizer, nonce)
        ensures SamePair(authorizer, nonce, authorizer', nonce')
      {
        PlainPairIsAlone(authorizer, nonce, authorizer', nonce');
      }
    } else {
      var authorizer', nonce' := ColonSplitsTwice(authorizer, nonce);
    }
  }

  /** A signed payment on these terms, naming this authorizer and this nonce. */
  function Naming(terms: Terms, authorizer: Text, nonce: Text): Payload {
    Payload(terms, Obj([
      Member(AuthorizationKey(), Obj([Member(FromKey(), Str(authorizer)), Member(NonceKey(), Str(nonce))])),
      Member(SignatureKey(), Str([COLON]))]))
  }

  lemma NamingNames(terms: Terms, authorizer: Text, nonce: Text)
    ensures NamedPair(Naming(terms, authorizer, nonce)) == Some((authorizer, nonce))
    ensures CheckTerms(Naming(terms, authorizer, nonce), terms).None?
  {
    var authorization := [Member(FromKey(), Str(authorizer)), Member(NonceKey(), Str(nonce))];
    var members := [Member(AuthorizationKey(), Obj(authorization)), Member(SignatureKey(), Str([COLON]))];
    assert |FromKey()| == 4 && |NonceKey()| == 5 && |AuthorizationKey()| == 13 && |SignatureKey()| == 9;
    hide AuthorizationKey, FromKey, NonceKey, SignatureKey;
    assert authorization[1..][0] == authorization[1] && members[1..][0] == members[1];
    assert Find(authorization, FromKey()) == Some(Str(authorizer));
    assert Find(authorization, NonceKey()) == Find(authorization[1..], NonceKey()) == Some(Str(nonce));
    assert Find(members, AuthorizationKey()) == Some(Obj(authorization));
    assert Find(members, SignatureKey()) == Find(members[1..], SignatureKey()) == Some(Str([COLON]));
  }

  // ---------------------------------------------------------------- settling

  datatype Answer = Settled | Declined(reason: string) | Threw

  /** What a settlement answers once past its barrier, given the authorizations already consumed. */
  function Decide(consumed: set<Text>, behavior: Behavior, payload: Payload, requirements: Terms): Answer {
    var identity := AuthorizationIdentity(payload);
    if identity.Some? && identity.value in consumed then Declined("duplicate_settlement")
    else if behavior.throwOnSettle.Some? then Threw
    else if behavior.rejectSettlement.Some? then Declined(behavior.rejectSettlement.value)
    else
      match CheckTerms(payload, requirements)
      case Some(problem) => Declined(problem)
      case None => Settled
  }

  function Consume(consumed: set<Text>, payload: Payload, answer: Answer): set<Text> {
    match (answer, AuthorizationIdentity(payload))
    case (Settled, Some(identity)) => consumed + {identity}
    case _ => consumed
  }

  predicate Duplicate(consumed: set<Text>, payload: Payload) {
    AuthorizationIdentity(payload).Some? && AuthorizationIdentity(payload).value in consumed
  }

  /** What a settlement call is to be answered, in terms of what was presented and what was required. */
  predicate Answers(consumed: set<Text>, behavior: Behavior, payload: Payload, requirements: Terms, answer: Answer) {
    if Duplicate(consumed, payload) then answer == Declined("duplicate_settlement")
    else if behavior.throwOnSettle.Some? then answer == Threw
    else if behavior.rejectSettlement.Some? then answer == Declined(behavior.rejectSettlement.value)
    else if OnGoodTerms(payload, requirements) then answer == Settled
    else answer.Declined? && NamesFault(answer.reason, payload, requirements)
  }

  /** A settlement is answered as what was presented calls for: it succeeds exactly when its authorization is not
      consumed, nothing forces another answer, and the payment is on good terms. */
  lemma DecidesRightly(consumed: set<Text>, behavior: Behavior, payload: Payload, requirements: Terms)
    ensures Answers(consumed, behavior, payload, requirements, Decide(consumed, behavior, payload, requirements))
    ensures Decide(consumed, behavior, payload, requirements) == Settled <==>
      && !Duplicate(consumed, payload) && behavior.throwOnSettle.None? && behavior.rejectSettlement.None?
      && OnGoodTerms(payload, requirements)
  {
    TermsAreChecked(payload, requirements);
    hide CheckTerms, OnGoodTerms, NamesFault, AuthorizationIdentity;
  }

  datatype Verdict = Valid | Invalid(reason: string) | VerifyThrew

  class FixtureExactEvmFacilitator {
    const behavior: Behavior
    var settledAuthorizations: set<Text>
    var verifyCalls: nat
    var settleCalls: nat

    constructor (behavior: Behavior)
      ensures this.behavior == behavior && settledAuthorizations == {} && verifyCalls == 0 && settleCalls == 0
    {
      this.behavior := behavior;
      settledAuthorizations, verifyCalls, settleCalls := {}, 0, 0;
    }

    /** Verification never consumes an authorization. */
    method Verify(payload: Payload, requirements: Terms) returns (verdict: Verdict)
      modifies this`verifyCalls
      ensures verifyCalls == old(verifyCalls) + 1
      ensures verdict.VerifyThrew? <==> behavior.throwOnVerify.Some?
      ensures verdict.Valid? <==>
        behavior.throwOnVerify.None? && behavior.rejectVerification.None? && OnGoodTerms(payload, requirements)
      ensures verdict.Invalid? ==>
        if behavior.rejectVerification.Some? then verdict.reason == behavior.rejectVerification.value
        else NamesFault(verdict.reason, payload, requirements)
    {
      TermsAreChecked(payload, requirements);
      hide CheckTerms, OnGoodTerms, NamesFault;
      verifyCalls := verifyCalls + 1;
      if behavior.throwOnVerify.Some? {
        return VerifyThrew;
      }
      if behavior.rejectVerification.Some? {
        return Invalid(behavior.rejectVerification.value);
      }
      var problem := CheckTerms(payload, requirements);
      verdict := if problem.Some? then Invalid(problem.value) else Valid;
    }

    /** A settlement call up to its barrier. */
    method SettleEnters()
      modifies this`settleCalls
      ensures settleCalls == old(settleCalls) + 1
    {
      settleCalls := settleCalls + 1;
    }

    /** The rest of the call, which runs without yielding. */
    method SettleProceeds(payload: Payload, requirements: Terms) returns (answer: Answer)
      modifies this`settledAuthorizations
      ensures answer == Decide(old(settledAuthorizations), behavior, payload, requirements)
      ensures settledAuthorizations == Consume(old(settledAuthorizations), payload, answer)
      ensures Answers(old(settledAuthorizations), behavior, payload, requirements, answer)
    {
      DecidesRightly(settledAuthorizations, behavior, payload, requirements);
      hide Answers, CheckTerms, AuthorizationIdentity;
      var identity := AuthorizationIdentity(payload);
      if identity.Some? && identity.value in settledAuthorizations {
        return Declined("duplicate_settlement");
      }
      if behavior.throwOnSettle.Some? {
        return Threw;
      }
      if behavior.rejectSettlement.Some? {
        return Declined(behavior.rejectSettlement.value);
      }
      var problem := CheckTerms(payload, requirements);
      if problem.Some? {
        return Declined(problem.value);
      }
      if identity.Some? {
        settledAuthorizations := settledAuthorizations + {identity.value};
      }
      answer := Settled;
    }
  }

  // ---------------------------------------------------------------- interleaved calls

  datatype Call = Call(payload: Payload, requirements: Terms)

  datatype Event = Enter(call: nat) | Proceed(call: nat)

  datatype Calls = Calls(consumed: set<Text>, entered: set<nat>, answers: map<nat, Answer>)

  const NO_BEHAVIOR := Behavior(None, None, None, None)

  const NO_CALLS := Calls({}, {}, map[])

  predicate Ready(calls: seq<Call>, s: Calls, e: Event) {
    && e.call < |calls|
    && if e.Enter? then e.call !in s.entered else e.call in s.entered && e.call !in s.answers
  }

  function After(behavior: Behavior, calls: seq<Call>, s: Calls, e: Event): Calls
    requires Ready(calls, s, e)
  {
    match e
    case Enter(c) => s.(entered := s.entered + {c})
    case Proceed(c) =>
      var answer := Decide(s.consumed, behavior, calls[c].payload, calls[c].requirements);
      s.(consumed := Consume(s.consumed, calls[c].payload, answer), answers := s.answers[c := answer])
  }

  /** The calls entered and proceeded in this order, each at most once: undefined for any other order. */
  function Play(behavior: Behavior, calls: seq<Call>, s: Calls, events: seq<Event>): Option<Calls>
    decreases |events|
  {
    if events == [] then Some(s)
    else if !Ready(calls, s, events[0]) then None
    else Play(behavior, calls, After(behavior, calls, s, events[0]), events[1..])
  }

  predicate SettledUnder(calls: seq<Call>, s: Calls, c: nat, identity: Text) {
    && c < |calls|
    && c in s.answers
    && s.answers[c] == Settled
    && AuthorizationIdentity(calls[c].payload) == Some(identity)
  }

  /** The consumed set is exactly the identities of the calls that succeeded, and no identity twice. */
  ghost predicate Accounted(calls: seq<Call>, s: Calls) {
    && (forall identity :: identity in s.consumed <==> exists c: nat :: SettledUnder(calls, s, c, identity))
    && (forall c1: nat, c2: nat, identity ::
          SettledUnder(calls, s, c1, identity) && SettledUnder(calls, s, c2, identity) ==> c1 == c2)
  }

  lemma ProceedKeeps(behavior: Behavior, calls: seq<Call>, before: Calls, last: nat)
    requires Ready(calls, before, Proceed(last)) && Accounted(calls, before)
    ensures Accounted(calls, After(behavior, calls, before, Proceed(last)))
  {
    var s := After(behavior, calls, before, Proceed(last));
    assert forall c: nat, identity | c != last ::
      SettledUnder(calls, s, c, identity) <==> SettledUnder(calls, before, c, identity);
    forall identity ensures identity in s.consumed <==> exists c: nat :: SettledUnder(calls, s, c, identity) {
      if identity in before.consumed {
        var c: nat :| SettledUnder(calls, before, c, identity);
        assert SettledUnder(calls, s, c, identity);
      } else if identity in s.consumed {
        assert SettledUnder(calls, s, last, identity);
      }
    }
  }

  lemma StepKeepsAccount(behavior: Behavior, calls: seq<Call>, s: Calls, e: Event)
    requires Ready(calls, s, e) && Accounted(calls, s)
    ensures Accounted(calls, After(behavior, calls, s, e))
  {
    if e.Proceed? {
      ProceedKeeps(behavior, calls, s, e.call);
    } else {
      var next := After(behavior, calls, s, e);
      assert forall c: nat, identity :: SettledUnder(calls, next, c, identity) <==> SettledUnder(calls, s, c, identity);
    }
  }

  /** However the calls interleave at their barrier, every (authorizer, nonce) identity succeeds at most
      once, and the consumed set holds exactly those that did. */
  lemma {:induction false} EachAuthorizationSettlesOnce(
    behavior: Behavior, calls: seq<Call>, s: Calls, events: seq<Event>)
    requires Accounted(calls, s) && Play(behavior, calls, s, events).Some?
    ensures Accounted(calls, Play(behavior, calls, s, events).value)
    decreases |events|
  {
    if events != [] {
      StepKeepsAccount(behavior, calls, s, events[0]);
      EachAuthorizationSettlesOnce(behavior, calls, After(behavior, calls, s, events[0]), events[1..]);
    }
  }

  lemma NothingSettledAtFirst(calls: seq<Call>)
    ensures Accounted(calls, NO_CALLS)
  {
  }

  /** Call `c` settled, and the payment it carried names this pair, case apart. */
  predicate SettledPair(calls: seq<Call>, s: Calls, c: nat, authorizer: Text, nonce: Text) {
    && c < |calls| && c in s.answers && s.answers[c] == Settled
    && NamedPair(calls[c].payload).Some?
    && SamePair(authorizer, nonce, NamedPair(calls[c].payload).value.0, NamedPair(calls[c].payload).value.1)
  }

  /** The consumed set tells of this pair exactly whether it succeeded. */
  predicate ConsumedExactly(calls: seq<Call>, s: Calls, authorizer: Text, nonce: Text) {
    PairIdentity(authorizer, nonce) in s.consumed <==>
      exists c | 0 <= c < |calls| :: SettledPair(calls, s, c, authorizer, nonce)
  }

  /** Whatever settle calls a facilitator is given, and however they interleave at their barrier, each pair of an
      authorizer and a nonce succeeds at most once. */
  lemma EachPairSettlesOnce(
    behavior: Behavior, calls: seq<Call>, events: seq<Event>, authorizer: Text, nonce: Text, c: nat, d: nat)
    requires Play(behavior, calls, NO_CALLS, events).Some?
    requires SettledPair(calls, Play(behavior, calls, NO_CALLS, events).value, c, authorizer, nonce)
    requires SettledPair(calls, Play(behavior, calls, NO_CALLS, events).value, d, authorizer, nonce)
    ensures c == d
  {
    NothingSettledAtFirst(calls);
    EachAuthorizationSettlesOnce(behavior, calls, NO_CALLS, events);
    var s, identity := Play(behavior, calls, NO_CALLS, events).value, PairIdentity(authorizer, nonce);
    assert SettledUnder(calls, s, c, identity) && SettledUnder(calls, s, d, identity);
  }

  lemma PlainPairConsumedExactly(
    behavior: Behavior, calls: seq<Call>, events: seq<Event>, authorizer: Text, nonce: Text)
    requires Play(behavior, calls, NO_CALLS, events).Some? && COLON !in authorizer && COLON !in nonce
    ensures ConsumedExactly(calls, Play(behavior, calls, NO_CALLS, events).value, authorizer, nonce)
  {
    NothingSettledAtFirst(calls);
    EachAuthorizationSettlesOnce(behavior, calls, NO_CALLS, events);
    var s, identity := Play(behavior, calls, NO_CALLS, events).value, PairIdentity(authorizer, nonce);
    hide Play, PairIdentity;
    if identity in s.consumed {
      var c: nat :| SettledUnder(calls, s, c, identity);
      var pair := NamedPair(calls[c].payload).value;
      assert PairIdentity(pair.0, pair.1) == identity;
      PlainPairIsAlone(authorizer, nonce, pair.0, pair.1);
      assert SettledPair(calls, s, c, authorizer, nonce);
    }
    forall c | 0 <= c < |calls| && SettledPair(calls, s, c, authorizer, nonce) ensures identity in s.consumed {
      SamePairSameIdentity(authorizer, nonce, NamedPair(calls[c].payload).value);
      assert SettledUnder(calls, s, c, identity);
    }
  }

  lemma SamePairSameIdentity(authorizer: Text, nonce: Text, pair: (Text, Text))
    requires SamePair(authorizer, nonce, pair.0, pair.1)
    ensures PairIdentity(authorizer, nonce) == PairIdentity(pair.0, pair.1)
  {
  }

  /** One payment whose pair shares its identity with another settles, and the other is consumed with it. */
  lemma ColonPairConsumedForAnother(terms: Terms, authorizer: Text, nonce: Text)
    returns (calls: seq<Call>, events: seq<Event>)
    requires COLON in authorizer || COLON in nonce
    ensures
      var played := Play(NO_BEHAVIOR, calls, NO_CALLS, events);
      played.Some? && !ConsumedExactly(calls, played.value, authorizer, nonce)
  {
    var authorizer', nonce' := ColonSplitsTwice(authorizer, nonce);
    var payload := Naming(terms, authorizer', nonce');
    NamingNames(terms, authorizer', nonce');
    hide NamedPair, CheckTerms, Naming, PairIdentity;
    calls, events := [Call(payload, terms)], [Enter(0), Proceed(0)];
    var entered := After(NO_BEHAVIOR, calls, NO_CALLS, Enter(0));
    var settled := After(NO_BEHAVIOR, calls, entered, Proceed(0));
    assert events[1..] == [Proceed(0)] && events[1..][1..] == [];
    assert Play(NO_BEHAVIOR, calls, NO_CALLS, events) == Play(NO_BEHAVIOR, calls, entered, [Proceed(0)]);
    assert Play(NO_BEHAVIOR, calls, entered, [Proceed(0)]) == Play(NO_BEHAVIOR, calls, settled, []) == Some(settled);
    assert PairIdentity(authorizer, nonce) in settled.consumed;
    forall c | 0 <= c < |calls| ensures !SettledPair(calls, settled, c, authorizer, nonce) {
      assert c == 0;
    }
  }

  /** The consumed set tells, after every sequence of calls, exactly which pairs succeeded, for just the pairs
      without a colon. */
  lemma ConsumedExactlyForPlainPairs(terms: Terms, authorizer: Text, nonce: Text)
    ensures COLON !in authorizer && COLON !in nonce <==>
      forall behavior: Behavior, calls: seq<Call>, events: seq<Event>
        | Play(behavior, calls, NO_CALLS, events).Some? ::
        ConsumedExactly(calls, Play(behavior, calls, NO_CALLS, events).value, authorizer, nonce)
  {
    hide Play, ConsumedExactly;
    if COLON !in authorizer && COLON !in nonce {
      forall behavior: Behavior, calls: seq<Call>, events: seq<Event> | Play(behavior, calls, NO_CALLS, events).Some?
        ensures ConsumedExactly(calls, Play(behavior, calls, NO_CALLS, events).value, authorizer, nonce)
      {
        PlainPairConsumedExactly(behavior, calls, events, authorizer, nonce);
      }
    } else {
      var calls, events := ColonPairConsumedForAnother(terms, authorizer, nonce);
    }
  }

  predicate Unforced(behavior: Behavior) {
    behavior.throwOnSettle.None? && behavior.rejectSettlement.None?
  }

  /** Another call that named the same authorization settled. */
  ghost predicate SettledByAnother(calls: seq<Call>, s: Calls, c: nat)
    requires c < |calls|
  {
    AuthorizationIdentity(calls[c].payload).Some?
    && exists d: nat :: d != c && SettledUnder(calls, s, d, AuthorizationIdentity(calls[c].payload).value)
  }

  /** Call `c` was answered for a reason that is there to be seen. */
  ghost predicate Accountable(behavior: Behavior, calls: seq<Call>, s: Calls, c: nat)
    requires c < |calls| && c in s.answers
  {
    var Call(payload, requirements) := calls[c];
    match s.answers[c]
    case Settled => Unforced(behavior) && OnGoodTerms(payload, requirements)
    case Threw => behavior.throwOnSettle.Some?
    case Declined(reason) =>
      || (reason == "duplicate_settlement" && SettledByAnother(calls, s, c))
      || (behavior.throwOnSettle.None? && behavior.rejectSettlement == Some(reason))
      || (Unforced(behavior) && !OnGoodTerms(payload, requirements) && NamesFault(reason, payload, requirements))
  }

  ghost predicate AllAccountable(behavior: Behavior, calls: seq<Call>, s: Calls) {
    forall c | c in s.answers :: c < |calls| && Accountable(behavior, calls, s, c)
  }

  lemma ProceedIsAccountable(behavior: Behavior, calls: seq<Call>, before: Calls, last: nat)
    requires Ready(calls, before, Proceed(last)) && Accounted(calls, before) && AllAccountable(behavior, calls, before)
    ensures AllAccountable(behavior, calls, After(behavior, calls, before, Proceed(last)))
  {
    var s := After(behavior, calls, before, Proceed(last));
    DecidesRightly(before.consumed, behavior, calls[last].payload, calls[last].requirements);
    hide Decide, Consume, AuthorizationIdentity, OnGoodTerms, NamesFault;
    assert forall d: nat, identity | SettledUnder(calls, before, d, identity) ::
      d != last && SettledUnder(calls, s, d, identity);
    forall c | c in s.answers ensures c < |calls| && Accountable(behavior, calls, s, c) {
      if c != last {
        assert Accountable(behavior, calls, before, c);
      } else if Duplicate(before.consumed, calls[c].payload) {
        var identity := AuthorizationIdentity(calls[c].payload).value;
        var d: nat :| SettledUnder(calls, before, d, identity);
        assert d != c && SettledUnder(calls, s, d, identity);
      }
    }
  }

  lemma EnterIsAccountable(behavior: Behavior, calls: seq<Call>, s: Calls, c: nat)
    requires Ready(calls, s, Enter(c)) && AllAccountable(behavior, calls, s)
    ensures AllAccountable(behavior, calls, After(behavior, calls, s, Enter(c)))
  {
    hide AuthorizationIdentity, OnGoodTerms, NamesFault;
    var next := After(behavior, calls, s, Enter(c));
    assert forall d: nat, identity :: SettledUnder(calls, s, d, identity) <==> SettledUnder(calls, next, d, identity);
    forall d | d in next.answers ensures d < |calls| && Accountable(behavior, calls, next, d) {
      assert Accountable(behavior, calls, s, d);
    }
  }

  lemma {:induction false} PlayIsAccountable(behavior: Behavior, calls: seq<Call>, s: Calls, events: seq<Event>)
    requires Accounted(calls, s) && AllAccountable(behavior, calls, s) && Play(behavior, calls, s, events).Some?
    ensures AllAccountable(behavior, calls, Play(behavior, calls, s, events).value)
    decreases |events|
  {
    hide Accountable, AuthorizationIdentity, Decide, Consume;
    if events != [] {
      StepKeepsAccount(behavior, calls, s, events[0]);
      if events[0].Proceed? {
        ProceedIsAccountable(behavior, calls, s, events[0].call);
      } else {
        EnterIsAccountable(behavior, calls, s, events[0].call);
      }
      PlayIsAccountable(behavior, calls, After(behavior, calls, s, events[0]), events[1..]);
    }
  }

  /** What every answered call of a fresh facilitator was told, however the calls interleaved: raised and told
      reasons are exactly the forced ones; otherwise a call succeeded exactly when it was on good terms and no other
      call succeeded under its authorization, and one declined was another's duplicate or has a fault that the
      reason names. */
  lemma EveryCallIsAccountable(behavior: Behavior, calls: seq<Call>, events: seq<Event>, c: nat)
    requires Play(behavior, calls, NO_CALLS, events).Some?
    requires c in Play(behavior, calls, NO_CALLS, events).value.answers
    ensures
      var s := Play(behavior, calls, NO_CALLS, events).value;
      && c < |calls|
      && (s.answers[c] == Threw <==> behavior.throwOnSettle.Some?)
      && (behavior.throwOnSettle.None? && behavior.rejectSettlement.Some? ==>
            s.answers[c] == Declined(behavior.rejectSettlement.value))
      && (s.answers[c] == Settled <==>
            && Unforced(behavior) && OnGoodTerms(calls[c].payload, calls[c].requirements)
            && !SettledByAnother(calls, s, c))
      && (Unforced(behavior) && s.answers[c].Declined? ==>
            || (s.answers[c].reason == "duplicate_settlement" && SettledByAnother(calls, s, c))
            || NamesFault(s.answers[c].reason, calls[c].payload, calls[c].requirements))
  {
    NothingSettledAtFirst(calls);
    EachAuthorizationSettlesOnce(behavior, calls, NO_CALLS, events);
    PlayIsAccountable(behavior, calls, NO_CALLS, events);
    var s := Play(behavior, calls, NO_CALLS, events).value;
    hide Play, OnGoodTerms, NamesFault, AuthorizationIdentity;
    assert Accountable(behavior, calls, s, c);
    if SettledByAnother(calls, s, c) {
      var identity := AuthorizationIdentity(calls[c].payload).value;
      var d: nat :| d != c && SettledUnder(calls, s, d, identity);
      assert Accountable(behavior, calls, s, d);
      assert !SettledUnder(calls, s, c, identity);
    }
  }

  /** Unforced, and on good terms, a call settles exactly when no call naming its authorization settled before it
      proceeded, whatever refused or raised calls did; a later one is told that it is a duplicate. */
  lemma SettlesExactlyTheFirst(behavior: Behavior, calls: seq<Call>, s: Calls, c: nat, identity: Text)
    requires Accounted(calls, s) && Ready(calls, s, Proceed(c))
    requires Unforced(behavior) && OnGoodTerms(calls[c].payload, calls[c].requirements)
    requires AuthorizationIdentity(calls[c].payload) == Some(identity)
    ensures
      var answer := After(behavior, calls, s, Proceed(c)).answers[c];
      && (answer == Settled <==> forall earlier: nat :: !SettledUnder(calls, s, earlier, identity))
      && (answer != Settled ==> answer == Declined("duplicate_settlement"))
  {
    DecidesRightly(s.consumed, behavior, calls[c].payload, calls[c].requirements);
    hide Decide, OnGoodTerms, AuthorizationIdentity;
    assert identity in s.consumed <==> exists earlier: nat :: SettledUnder(calls, s, earlier, identity);
  }

  /** A call that was refused or raised leaves every authorization spendable. */
  lemma OnlySuccessConsumes(behavior: Behavior, calls: seq<Call>, s: Calls, c: nat)
    requires Ready(calls, s, Proceed(c))
    ensures
      var s' := After(behavior, calls, s, Proceed(c));
      s'.consumed != s.consumed ==>
        && s'.answers[c] == Settled
        && AuthorizationIdentity(calls[c].payload).Some?
        && AuthorizationIdentity(calls[c].payload).value !in s.consumed
        && s'.consumed == s.consumed + {AuthorizationIdentity(calls[c].payload).value}
  {
  }
}
