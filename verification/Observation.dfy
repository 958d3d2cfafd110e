/** The sealed-block observer of src/flow/observe-transaction.ts and the comparison of
    src/flow/observe-settlement.ts. */
module Observation {
  import opened Wrappers
  import opened CodeUnits
  import opened Numerals
  import opened Json
  import opened Transfers

  // ---------------------------------------------------------------- what an endpoint answers

  datatype FailureKind = Unreachable | TemporarilyUnavailable | RpcError | Unusable

  /** A query's answer, or the exception it threw: a classified one, or one raised locally. */
  datatype Answer<+T> = Gave(value: T) | Threw(kind: Option<FailureKind>)

  datatype ReceiptStatus = Success | Reverted

  datatype Receipt = Receipt(
    status: ReceiptStatus, blockNumber: Option<nat>, blockHash: Option<Text>, logs: seq<Log>)

  datatype ObservedTransaction = ObservedTransaction(from: Text, blockNumber: Option<nat>, blockHash: Option<Text>)

  datatype SealedBlock = SealedBlock(number: nat, hash: Text, transactionHashes: seq<Text>)

  datatype Source = Source(
    receipt: Answer<Option<Receipt>>,
    transaction: Answer<Option<ObservedTransaction>>,
    block: nat -> Answer<Option<SealedBlock>>,
    head: Answer<nat>)

  // ---------------------------------------------------------------- what is recorded

  datatype Reason =
    | EndpointUnreachable
    | EndpointTemporarilyUnavailable
    | EndpointRpcError
    | ResponseUnusable
    | UnknownTransaction
    | MalformedReference
    | LocalFailure

  function ReasonFor(kind: Option<FailureKind>): Reason {
    match kind
    case None => LocalFailure
    case Some(Unreachable) => EndpointUnreachable
    case Some(TemporarilyUnavailable) => EndpointTemporarilyUnavailable
    case Some(RpcError) => EndpointRpcError
    case Some(Unusable) => ResponseUnusable
  }

  datatype ObservationState = Found | NotFound | Unavailable

  /** The block placement recorded beside the inclusion level. */
  datatype Inclusion = Inclusion(blockNumber: Text, blockHash: Text)

  datatype RpcObservation = RpcObservation(
    transactionHash: Text,
    state: ObservationState,
    inclusion: Option<Inclusion>,
    receiptStatus: Option<ReceiptStatus>,
    sender: Option<Text>,
    transfer: Option<Transfer>,
    unavailableReason: Option<Reason>)

  function UnavailableFor(hash: Text, reason: Reason): RpcObservation {
    RpcObservation(hash, Unavailable, None, None, None, None, Some(reason))
  }

  predicate Lists(block: SealedBlock, hash: Text) {
    exists k | 0 <= k < |block.transactionHashes| :: Lower(block.transactionHashes[k]) == Lower(hash)
  }

  /** Every placement fact there is, agreeing: the receipt's, the transaction's, and the sealed block asked for
      by number, which lists the transaction and is no higher than the head. */
  ghost predicate SealedIn(source: Source, hash: Text, number: nat, blockHash: Text) {
    && source.receipt.Gave? && source.receipt.value.Some?
    && source.receipt.value.value.blockNumber == Some(number)
    && source.receipt.value.value.blockHash == Some(blockHash)
    && source.transaction.Gave? && source.transaction.value.Some?
    && source.transaction.value.value.blockNumber == Some(number)
    && source.transaction.value.value.blockHash.Some?
    && Lower(source.transaction.value.value.blockHash.value) == Lower(blockHash)
    && source.block(number).Gave? && source.block(number).value.Some?
    && source.block(number).value.value.number == number
    && Lower(source.block(number).value.value.hash) == Lower(blockHash)
    && Lists(source.block(number).value.value, hash)
    && source.head.Gave? && number <= source.head.value
  }

  predicate HasMatch(transfers: seq<Transfer>, expected: Transfer) {
    exists t | t in transfers :: TransferMatches(t, expected)
  }

  /** Why nothing was found: the first thing that stood in the way, in the order the queries are made. */
  function WhyNotFound(source: Source, hash: Text): Option<Reason> {
    if !IsWord(hash) then Some(MalformedReference)
    else if source.receipt.Threw? then Some(ReasonFor(source.receipt.kind))
    else if source.transaction.Threw? then Some(ReasonFor(source.transaction.kind))
    else if source.receipt.value.None? && source.transaction.value.None? then Some(UnknownTransaction)
    else None
  }

  /** What an observation says of the answers it was made from. */
  ghost predicate Reports(source: Source, hash: Text, expected: Transfer, o: RpcObservation) {
    && o.transactionHash == hash
    && (o.state == Unavailable <==> !IsWord(hash) || source.receipt.Threw? || source.transaction.Threw?)
    && (o.state == NotFound <==> IsWord(hash) && source.receipt == Gave(None) && source.transaction == Gave(None))
    && (o.receiptStatus.Some? <==> o.state == Found && source.receipt.value.Some?)
    && (o.unavailableReason.None? <==> o.state == Found)
    && o.unavailableReason == WhyNotFound(source, hash)
    && (o.receiptStatus.Some? ==>
          && o.receiptStatus.value == source.receipt.value.value.status
          && var transfers := TransfersOn(source.receipt.value.value.logs, expected.tokenContract);
          && (o.transfer.None? <==> transfers == [])
          && (o.transfer.Some? ==> o.transfer.value in transfers)
          && (o.transfer.Some? ==>
                exists k: nat :: Picked(transfers, expected, k) && transfers[k] == o.transfer.value)
          && (HasMatch(transfers, expected) <==> o.transfer.Some? && TransferMatches(o.transfer.value, expected)))
    && (o.receiptStatus.None? ==> o.transfer.None? && o.inclusion.None?)
    && (o.sender.Some? <==> o.state == Found && source.transaction.value.Some?)
    && (o.sender.Some? ==> o.sender.value == source.transaction.value.value.from)
  }

  /** Inclusion is recorded exactly when every placement fact agrees, and records that placement. */
  ghost predicate ReportsInclusion(source: Source, hash: Text, o: RpcObservation) {
    && (o.inclusion.Some? ==>
          exists number: nat, blockHash: Text ::
            SealedIn(source, hash, number, blockHash) && o.inclusion.value == Inclusion(Decimal(number), blockHash))
    && (o.state == Found && (exists number: nat, blockHash: Text :: SealedIn(source, hash, number, blockHash)) ==>
          o.inclusion.Some?)
  }

  method BlockLists(block: SealedBlock, hash: Text) returns (found: bool)
    ensures found == Lists(block, hash)
  {
    var wanted := Lower(hash);
    for i := 0 to |block.transactionHashes|
      invariant forall k | 0 <= k < i :: Lower(block.transactionHashes[k]) != wanted
    {
      if Lower(block.transactionHashes[i]) == wanted {
        return true;
      }
    }
    return false;
  }

  /** The sealed-block comparison. */
  method EstablishInclusion(source: Source, hash: Text, receipt: Receipt, transaction: Option<ObservedTransaction>)
    returns (inclusion: Option<Inclusion>)
    requires source.receipt == Gave(Some(receipt)) && source.transaction == Gave(transaction)
    ensures inclusion.Some? ==>
      receipt.blockNumber.Some? && receipt.blockHash.Some?
      && SealedIn(source, hash, receipt.blockNumber.value, receipt.blockHash.value)
      && inclusion.value == Inclusion(Decimal(receipt.blockNumber.value), receipt.blockHash.value)
    ensures inclusion.None? ==>
      receipt.blockNumber.None? || receipt.blockHash.None?
      || !SealedIn(source, hash, receipt.blockNumber.value, receipt.blockHash.value)
  {
    inclusion := None;
    if receipt.blockNumber.None? || receipt.blockHash.None? {
      return;
    }
    if transaction.None? || transaction.value.blockNumber.None? || transaction.value.blockHash.None? {
      return;
    }
    var number := receipt.blockNumber.value;
    if transaction.value.blockNumber.value != number
      || Lower(transaction.value.blockHash.value) != Lower(receipt.blockHash.value) {
      return;
    }
    var sealedBlock := source.block(number);
    if sealedBlock.Threw? || source.head.Threw? {
      return;
    }
    if sealedBlock.value.Some? {
      var listed := BlockLists(sealedBlock.value.value, hash);
      if sealedBlock.value.value.number == number
        && Lower(sealedBlock.value.value.hash) == Lower(receipt.blockHash.value)
        && listed && number <= source.head.value {
        inclusion := Some(Inclusion(Decimal(number), receipt.blockHash.value));
      }
    }
  }

  /** Observes one transaction. It never fails: what could not be observed is a result. */
  method ObserveSealedTransaction(source: Source, transactionHash: Text, expected: Transfer) returns (o: RpcObservation)
    ensures Reports(source, transactionHash, expected, o)
    ensures ReportsInclusion(source, transactionHash, o)
  {
    hide SealedIn, TransferMatches, Picked, IsWord, Lower, Decimal;
    if !IsWord(transactionHash) {
      return UnavailableFor(transactionHash, MalformedReference);
    }
    if source.receipt.Threw? {
      return UnavailableFor(transactionHash, ReasonFor(source.receipt.kind));
    }
    if source.transaction.Threw? {
      return UnavailableFor(transactionHash, ReasonFor(source.transaction.kind));
    }
    var receipt, transaction := source.receipt.value, source.transaction.value;
    if receipt.None? && transaction.None? {
      return RpcObservation(transactionHash, NotFound, None, None, None, None, Some(UnknownTransaction));
    }
    var sender := if transaction.Some? then Some(transaction.value.from) else None;
    if receipt.None? {
      NoReceiptNoSeal(source, transactionHash);
      return RpcObservation(transactionHash, Found, None, None, sender, None, None);
    }
    var transfers := TransfersOnContract(receipt.value.logs, expected.tokenContract);
    var recorded := SelectTransfer(transfers, expected);
    var inclusion := EstablishInclusion(source, transactionHash, receipt.value, transaction);
    OnlyTheReceiptsBlock(source, transactionHash);
    return RpcObservation(
      transactionHash, Found, inclusion, Some(receipt.value.status), sender, recorded, None);
  }

  lemma NoReceiptNoSeal(source: Source, hash: Text)
    requires source.receipt == Gave(None)
    ensures forall number: nat, blockHash: Text :: !SealedIn(source, hash, number, blockHash)
  {
  }

  lemma OnlyTheReceiptsBlock(source: Source, hash: Text)
    requires source.receipt.Gave? && source.receipt.value.Some?
    ensures forall number: nat, blockHash: Text | SealedIn(source, hash, number, blockHash) ::
      source.receipt.value.value.blockNumber == Some(number) && source.receipt.value.value.blockHash == Some(blockHash)
  {
  }

  // ---------------------------------------------------------------- the comparison

  /** What the comparison reads of a document: each member undefined, or whatever JSON it holds. */
  datatype Terms = Terms(
    network: Option<Json>, asset: Option<Json>, recipient: Option<Json>, amount: Option<Json>,
    payer: Option<Json>, authorizationDigest: Option<Json>)

  datatype TransferView = TransferView(
    tokenContract: Option<Json>, transferFrom: Option<Json>, transferTo: Option<Json>, transferAmount: Option<Json>)

  datatype RpcView = RpcView(receiptStatus: Option<Json>, transfer: Option<TransferView>)

  datatype Verdict = Match | Mismatch | NotEvaluated

  datatype Comparison = Comparison(
    network: Verdict, asset: Verdict, recipient: Verdict, amount: Verdict, authorizationLinked: bool,
    transferEvent: Verdict)

  /** `===`: an object or an array equals only itself, so never another document's. */
  predicate StrictlyEqual(a: Option<Json>, b: Option<Json>) {
    match (a, b)
    case (Some(Arr(_)), _) => false
    case (Some(Obj(_)), _) => false
    case (Some(Num(m)), Some(Num(n))) =>
      m == n || (m.NegativeZero? && n == Finite([0x30])) || (n.NegativeZero? && m == Finite([0x30]))
    case _ => a == b
  }

  /** Whether both are strings, without which `toLowerCase` throws. */
  predicate BothText(a: Option<Json>, b: Option<Json>) {
    a.Some? && a.value.Str? && b.Some? && b.value.Str?
  }

  predicate SameText(a: Option<Json>, b: Option<Json>)
    requires BothText(a, b)
  {
    SameAddress(a.value.text, b.value.text)
  }

  function VerdictOf(holds: bool): Verdict {
    if holds then Match else Mismatch
  }

  /** Whether the whole expected transfer is the observed one; none when reading it throws. */
  function WholeTransferMatches(t: TransferView, terms: Terms): Option<bool> {
    if terms.payer.None? then Some(false)
    else if !BothText(t.tokenContract, terms.asset) then None
    else if !SameText(t.tokenContract, terms.asset) then Some(false)
    else if !BothText(t.transferFrom, terms.payer) then None
    else if !SameText(t.transferFrom, terms.payer) then Some(false)
    else if !BothText(t.transferTo, terms.recipient) then None
    else Some(SameText(t.transferTo, terms.recipient) && StrictlyEqual(t.transferAmount, terms.amount))
  }

  /** `compareExpectationToObservation`; none when it throws on a member that is not a string. */
  function Compare(terms: Terms, networkReported: Option<Json>, rpc: Option<RpcView>): Option<Comparison> {
    var transfer := if rpc.Some? then rpc.value.transfer else None;
    var network :=
      if networkReported.None? then NotEvaluated else VerdictOf(StrictlyEqual(networkReported, terms.network));
    var linked := terms.authorizationDigest.Some?;
    var received := rpc.Some? && rpc.value.receiptStatus.Some?;
    match transfer
    case None =>
      Some(Comparison(
        network, NotEvaluated, NotEvaluated, NotEvaluated, linked, if received then Mismatch else NotEvaluated))
    case Some(t) =>
      var whole := WholeTransferMatches(t, terms);
      if whole.None? || !BothText(t.tokenContract, terms.asset) || !BothText(t.transferTo, terms.recipient) then None
      else
        Some(Comparison(
          network,
          VerdictOf(SameText(t.tokenContract, terms.asset)),
          VerdictOf(SameText(t.transferTo, terms.recipient)),
          VerdictOf(StrictlyEqual(t.transferAmount, terms.amount)),
          linked,
          if received then VerdictOf(whole.value) else NotEvaluated))
  }

  function Stated(t: Text): Option<Json> {
    Some(Str(t))
  }

  function OptionalText(t: Option<Text>): Option<Json> {
    if t.Some? then Some(Str(t.value)) else None
  }

  /** What the comparison reads of an expectation stated as text. */
  function TermsOf(network: Text, asset: Text, recipient: Text, amount: Text, payer: Option<Text>, digest: Option<Text>)
    : Terms
  {
    Terms(Stated(network), Stated(asset), Stated(recipient), Stated(amount), OptionalText(payer), OptionalText(digest))
  }

  function TransferViewOf(t: Transfer): TransferView {
    TransferView(Stated(t.tokenContract), Stated(t.transferFrom), Stated(t.transferTo), Stated(t.transferAmount))
  }

  function StatusText(status: ReceiptStatus): Text {
    if status == Success then Lit("success") else Lit("reverted")
  }

  function RpcViewOf(o: RpcObservation): RpcView {
    RpcView(
      if o.receiptStatus.Some? then Stated(StatusText(o.receiptStatus.value)) else None,
      if o.transfer.Some? then Some(TransferViewOf(o.transfer.value)) else None)
  }

  // ---------------------------------------------------------------- what a verdict means

  ghost predicate SomeLogEncodes(logs: seq<Log>, e: Transfer) {
    exists k | 0 <= k < |logs| :: Encodes(logs[k], e)
  }

  /** Some transfer read from the logs matches exactly when some log encodes the expected one. */
  lemma {:induction false} MatchIffEncoded(logs: seq<Log>, e: Transfer)
    ensures HasMatch(TransfersOn(logs, e.tokenContract), e) <==> SomeLogEncodes(logs, e)
  {
    hide IsTransferOn, TransferOf, TransferMatches, Encodes;
    if !IsAddress(e.tokenContract) {
      EncodesOnlyAddresses(logs, e);
    } else if logs != [] {
      var n := |logs| - 1;
      MatchIffEncoded(logs[..n], e);
      MatchIsEncoding(logs[n], e);
      forall k | 0 <= k < n ensures logs[..n][k] == logs[k] {
      }
      var before := TransfersOn(logs[..n], e.tokenContract);
      if IsTransferOn(logs[n], e.tokenContract) {
        var last := TransferOf(logs[n], e.tokenContract);
        assert forall t :: t in before + [last] <==> t in before || t == last;
      }
    }
  }

  lemma EncodesOnlyAddresses(logs: seq<Log>, e: Transfer)
    requires !IsAddress(e.tokenContract)
    ensures !SomeLogEncodes(logs, e)
  {
  }

  /** The transfer verdict on an honest observation: a match exactly when some receipt log encodes the whole
      expected transfer, whichever transfer was selected to be recorded; and a match carries the asset,
      recipient and amount verdicts with it. */
  lemma TransferVerdictIsExact(
    source: Source, hash: Text, network: Text, expected: Transfer, digest: Option<Text>, networkReported: Option<Json>,
    o: RpcObservation)
    requires Reports(source, hash, expected, o)
    ensures
      var terms := TermsOf(
        network, expected.tokenContract, expected.transferTo, expected.transferAmount, Some(expected.transferFrom),
          digest);
      var c := Compare(terms, networkReported, Some(RpcViewOf(o)));
      && c.Some?
      && (c.value.transferEvent == NotEvaluated <==> o.receiptStatus.None?)
      && (c.value.transferEvent == Match <==>
            o.receiptStatus.Some? && SomeLogEncodes(source.receipt.value.value.logs, expected))
      && (c.value.transferEvent == Match ==>
            c.value.asset == Match && c.value.recipient == Match && c.value.amount == Match)
  {
    hide HasMatch, SomeLogEncodes, TransfersOn, SameAddress, IsWord, Picked;
    if o.receiptStatus.Some? {
      MatchIffEncoded(source.receipt.value.value.logs, expected);
    }
  }

  lemma {:induction false} TransfersAreOnContract(logs: seq<Log>, contract: Text)
    ensures forall t | t in TransfersOn(logs, contract) :: SameAddress(t.tokenContract, contract)
  {
    hide IsTransferOn, SameAddress;
    if logs != [] && IsAddress(contract) {
      var n := |logs| - 1;
      TransfersAreOnContract(logs[..n], contract);
      if IsTransferOn(logs[n], contract) {
        ReadFromContract(logs[n], contract);
      }
    }
  }

  lemma ReadFromContract(log: Log, contract: Text)
    requires IsTransferOn(log, contract)
    ensures SameAddress(TransferOf(log, contract).tokenContract, contract)
  {
    hide TransferEventTopic, IsAddressTopic, IsHexOf, Lower, Decimal, HexValue;
  }

  /** The other verdicts on an honest observation. The asset verdict is never a mismatch, since only transfers on
      the expected contract are read; the recipient and amount verdicts speak of the recorded transfer; and the
      network verdict of what the settlement reporter said, exactly. */
  lemma OtherVerdictsAreExact(
    source: Source, hash: Text, network: Text, expected: Transfer, digest: Option<Text>, networkReported: Option<Text>,
    o: RpcObservation)
    requires Reports(source, hash, expected, o)
    ensures
      var terms := TermsOf(
        network, expected.tokenContract, expected.transferTo, expected.transferAmount, Some(expected.transferFrom),
          digest);
      var c := Compare(terms, OptionalText(networkReported), Some(RpcViewOf(o)));
      && c.Some?
      && c.value.asset == (if o.transfer.Some? then Match else NotEvaluated)
      && (c.value.recipient == Match <==>
            o.transfer.Some? && SameAddress(o.transfer.value.transferTo, expected.transferTo))
      && (c.value.amount == Match <==> o.transfer.Some? && o.transfer.value.transferAmount == expected.transferAmount)
      && (c.value.recipient == NotEvaluated <==> o.transfer.None?)
      && (c.value.amount == NotEvaluated <==> o.transfer.None?)
      && (c.value.network == Match <==> networkReported == Some(network))
      && (c.value.network == NotEvaluated <==> networkReported.None?)
      && (c.value.authorizationLinked <==> digest.Some?)
  {
    hide HasMatch, TransfersOn, SameAddress, IsWord, Picked;
    if o.transfer.Some? {
      TransfersAreOnContract(source.receipt.value.value.logs, expected.tokenContract);
    }
  }

  /** Without a payer to expect, a recorded receipt is never a match. */
  lemma NoPayerNoMatch(terms: Terms, networkReported: Option<Json>, rpc: Option<RpcView>)
    requires terms.payer.None? && Compare(terms, networkReported, rpc).Some?
    ensures Compare(terms, networkReported, rpc).value.transferEvent != Match
  {
  }
}
