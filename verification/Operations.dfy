/** The payment-identifier store of src/flow/server.ts, on values: what a request presents, the state
    of an identifier, what a request reading the store is told, and what a concluded attempt leaves. */
module Operations {
  import opened Wrappers
  import opened CodeUnits
  import opened Json
  import opened Lifecycle

  /** The normalized EIP-3009 authorization a payload presents. */
  datatype Authorization = Authorization(
    payer: Text, payee: Text, value: Text, validAfter: Text, validBefore: Text, nonce: Text, signature: Text)

  function PayloadKey(): Text { Lit("payload") }
  function AuthorizationKey(): Text { Lit("authorization") }
  function FromKey(): Text { Lit("from") }
  function ToKey(): Text { Lit("to") }
  function ValueKey(): Text { Lit("value") }
  function ValidAfterKey(): Text { Lit("validAfter") }
  function ValidBeforeKey(): Text { Lit("validBefore") }
  function NonceKey(): Text { Lit("nonce") }
  function SignatureKey(): Text { Lit("signature") }

  function PresentedAuthorization(payload: Json): Option<Authorization> {
    match Get(payload, PayloadKey())
    case Some(Obj(members)) => AuthorizationIn(Obj(members))
    case _ => None
  }

  function AuthorizationIn(container: Json): Option<Authorization> {
    match Get(container, AuthorizationKey())
    case Some(Obj(members)) =>
      var auth := Obj(members);
      (match (GetText(auth, FromKey()), GetText(auth, ToKey()), GetText(auth, ValueKey()),
             GetText(auth, ValidAfterKey()), GetText(auth, ValidBeforeKey()),
             GetText(auth, NonceKey()), GetText(container, SignatureKey()))
       case (Some(payer), Some(payee), Some(value), Some(after), Some(before), Some(nonce), Some(signature)) =>
         if signature == [] then None
         else Some(Authorization(Lower(payer), Lower(payee), value, after, before, Lower(nonce), Lower(signature)))
       case _ => None)
    case _ => None
  }

  /** The text of a member of the authorization a payload carries. */
  function AuthorizationText(payload: Json, name: Text): Option<Text> {
    match Get(payload, PayloadKey())
    case Some(container) =>
      (match Get(container, AuthorizationKey())
       case Some(authorization) => GetText(authorization, name)
       case None => None)
    case None => None
  }

  function SignatureText(payload: Json): Option<Text> {
    match Get(payload, PayloadKey())
    case Some(container) => GetText(container, SignatureKey())
    case None => None
  }

  predicate SameUpToCase(a: Option<Text>, b: Option<Text>) {
    a.Some? && b.Some? && Lower(a.value) == Lower(b.value)
  }

  predicate SameText(a: Option<Text>, b: Option<Text>) {
    a.Some? && a == b
  }

  /** Where each part of a presented authorization comes from. */
  lemma PresentedParts(p: Json)
    requires PresentedAuthorization(p).Some?
    ensures
      var a := PresentedAuthorization(p).value;
      && AuthorizationText(p, FromKey()).Some? && a.payer == Lower(AuthorizationText(p, FromKey()).value)
      && AuthorizationText(p, ToKey()).Some? && a.payee == Lower(AuthorizationText(p, ToKey()).value)
      && AuthorizationText(p, ValueKey()) == Some(a.value)
      && AuthorizationText(p, ValidAfterKey()) == Some(a.validAfter)
      && AuthorizationText(p, ValidBeforeKey()) == Some(a.validBefore)
      && AuthorizationText(p, NonceKey()).Some? && a.nonce == Lower(AuthorizationText(p, NonceKey()).value)
      && SignatureText(p).Some? && a.signature == Lower(SignatureText(p).value)
  {
    hide Lower, Get, PayloadKey, AuthorizationKey, FromKey, ToKey, ValueKey, ValidAfterKey, ValidBeforeKey, NonceKey,
      SignatureKey;
  }

  /** A payload presents an authorization exactly when all seven members are there as text, and the signature is not
      empty. */
  lemma PresentedWhen(p: Json)
    ensures PresentedAuthorization(p).Some? <==>
      && AuthorizationText(p, FromKey()).Some? && AuthorizationText(p, ToKey()).Some?
      && AuthorizationText(p, ValueKey()).Some? && AuthorizationText(p, ValidAfterKey()).Some?
      && AuthorizationText(p, ValidBeforeKey()).Some? && AuthorizationText(p, NonceKey()).Some?
      && SignatureText(p).Some? && SignatureText(p).value != []
  {
    hide Lower, Find, PayloadKey, AuthorizationKey, FromKey, ToKey, ValueKey, ValidAfterKey, ValidBeforeKey, NonceKey,
      SignatureKey;
  }

  /** When two payloads present one authorization: their hexadecimal members agree up to case, and their decimal
      ones to the digit. */
  lemma SameAuthorizationMeans(p: Json, q: Json)
    requires PresentedAuthorization(p).Some? && PresentedAuthorization(q).Some?
    ensures PresentedAuthorization(p) == PresentedAuthorization(q) <==>
      && SameUpToCase(AuthorizationText(p, FromKey()), AuthorizationText(q, FromKey()))
      && SameUpToCase(AuthorizationText(p, ToKey()), AuthorizationText(q, ToKey()))
      && SameText(AuthorizationText(p, ValueKey()), AuthorizationText(q, ValueKey()))
      && SameText(AuthorizationText(p, ValidAfterKey()), AuthorizationText(q, ValidAfterKey()))
      && SameText(AuthorizationText(p, ValidBeforeKey()), AuthorizationText(q, ValidBeforeKey()))
      && SameUpToCase(AuthorizationText(p, NonceKey()), AuthorizationText(q, NonceKey()))
      && SameUpToCase(SignatureText(p), SignatureText(q))
  {
    PresentedParts(p);
    PresentedParts(q);
    hide PresentedAuthorization, AuthorizationText, SignatureText, Lower, Get;
  }

  /** What the origin's handler produced. */
  datatype OriginResult = OriginResult(status: nat, contentType: Text, body: Bytes)

  datatype CachedResult = CachedResult(status: nat, contentType: Text, body: Bytes, paymentResponse: Option<Text>)

  /** The state of one identifier. A pending entry is known by the request that created it: a request
      creates at most one, so the owner stands for the identity of the entry object. */
  datatype Entry =
    | Pending(fingerprint: Text, authorization: Authorization, owner: nat)
    | Completed(fingerprint: Text, authorization: Authorization, result: CachedResult)
    | Rejected(fingerprint: Text)
    | Uncertain(fingerprint: Text, authorization: Authorization)

  type Store = map<Text, Entry>

  /** What this layer answers by itself, without the payment middleware. */
  datatype Answer =
    | IdentifierRequired
    | AtCapacity
    | OtherRequest
    | OtherAuthorization
    | OutcomeUnknown
    | Cached(result: CachedResult)

  datatype Admission = Claim | Wait(owner: nat) | Reply(answer: Answer)

  /** One turn of the read loop: what the entry under an identifier means for a request. */
  function Admit(store: Store, capacity: nat, id: Text, fingerprint: Text, authorization: Authorization): Admission {
    if id !in store then
      if |store| >= capacity then Reply(AtCapacity) else Claim
    else if store[id].fingerprint != fingerprint then Reply(OtherRequest)
    else
      match store[id]
      case Pending(_, held, owner) =>
        if held != authorization then Reply(OtherAuthorization) else Wait(owner)
      case Completed(_, held, result) =>
        if held == authorization then Reply(Cached(result)) else Reply(OtherAuthorization)
      case Rejected(_) => Claim
      case Uncertain(_, _) => Reply(OutcomeUnknown)
  }

  /** What is read off the response when an attempt concludes. */
  datatype ResponseView = ResponseView(status: nat, paymentResponse: Option<Text>)

  /** The state an attempt leaves its identifier in, read from its recorder alone. */
  function Conclusion(
    fingerprint: Text, authorization: Authorization, record: Record, produced: Option<OriginResult>,
    response: ResponseView)
    : Entry
  {
    if PaymentSettled in record.seen then
      match produced
      case None => Uncertain(fingerprint, authorization)
      case Some(result) =>
        Completed(fingerprint, authorization,
                  CachedResult(response.status, result.contentType, result.body, response.paymentResponse))
    else if record.reported then
      if record.terminal == SettlementFailed && record.detail.failureReason == Some(SettlementException)
      then Uncertain(fingerprint, authorization)
      else Rejected(fingerprint)
    else if ResourceExecuted in record.seen then Uncertain(fingerprint, authorization)
    else Rejected(fingerprint)
  }
}
