/** Reading ERC-20 transfers out of receipt logs: hexadecimal shapes, amounts and the selection of
    src/flow/observe-transaction.ts and src/flow/evm-json-rpc.ts. */
module Transfers {
  import opened Wrappers
  import opened CodeUnits
  import opened Numerals

  const ZERO: CodeUnit := 0x30
  const LETTER_X: CodeUnit := 0x78

  /** `0x` and exactly `n` hexadecimal digits. */
  predicate IsHexOf(t: Text, n: nat) {
    |t| == n + 2 && t[0] == ZERO && t[1] == LETTER_X && AllHex(t[2..])
  }

  predicate IsAddress(t: Text) {
    IsHexOf(t, 40)
  }

  /** A 32-byte word: a hash, a topic or an amount. */
  predicate IsWord(t: Text) {
    IsHexOf(t, 64)
  }

  /** A word whose first twelve bytes are zero: an indexed address. */
  predicate IsAddressTopic(t: Text) {
    IsWord(t) && forall i | 2 <= i < 26 :: t[i] == ZERO
  }

  predicate SameAddress(a: Text, b: Text) {
    Lower(a) == Lower(b)
  }

  function TransferEventTopic(): Text {
    Lit("0xddf252ad1be2c89b") + Lit("69c2b068fc378daa") + Lit("952ba7f163c4a116") + Lit("28f55a4df523b3ef")
  }

  datatype Log = Log(address: Text, topics: seq<Text>, data: Text)

  datatype Transfer = Transfer(tokenContract: Text, transferFrom: Text, transferTo: Text, transferAmount: Text)

  /** `0x` before the last forty units. */
  function TopicAddress(t: Text): Text
    requires |t| >= 40
  {
    Lit("0x") + t[|t| - 40..]
  }

  /** A log with the layout of a transfer on this contract. */
  predicate IsTransferOn(log: Log, contract: Text) {
    && IsAddress(log.address)
    && SameAddress(log.address, contract)
    && |log.topics| == 3
    && IsWord(log.topics[0])
    && Lower(log.topics[0]) == TransferEventTopic()
    && IsAddressTopic(log.topics[1])
    && IsAddressTopic(log.topics[2])
    && IsWord(log.data)
  }

  function TransferOf(log: Log, contract: Text): Transfer
    requires IsTransferOn(log, contract)
  {
    Transfer(
      log.address, TopicAddress(log.topics[1]), TopicAddress(log.topics[2]), Decimal(HexValue(log.data[2..])))
  }

  /** The transfers on a contract, in the order of the logs. */
  function TransfersOn(logs: seq<Log>, contract: Text): seq<Transfer> {
    if logs == [] || !IsAddress(contract) then []
    else
      var before := TransfersOn(logs[..|logs| - 1], contract);
      var last := logs[|logs| - 1];
      if IsTransferOn(last, contract) then before + [TransferOf(last, contract)] else before
  }

  method TransfersOnContract(logs: seq<Log>, tokenContract: Text) returns (transfers: seq<Transfer>)
    ensures transfers == TransfersOn(logs, tokenContract)
  {
    transfers := [];
    if !IsAddress(tokenContract) {
      return;
    }
    var contract := Lower(tokenContract);
    for i := 0 to |logs|
      invariant transfers == TransfersOn(logs[..i], tokenContract)
    {
      hide IsHexOf, IsAddressTopic, TransferOf, TransferEventTopic, Lower, TopicAddress, Decimal, HexValue;
      var log := logs[i];
      OneMoreLog(logs, i, tokenContract);
      if !IsAddress(log.address) {
        continue;
      }
      if Lower(log.address) != contract {
        continue;
      }
      if |log.topics| != 3 {
        continue;
      }
      var signatureTopic, fromTopic, toTopic := log.topics[0], log.topics[1], log.topics[2];
      if !IsWord(signatureTopic) || Lower(signatureTopic) != TransferEventTopic() {
        continue;
      }
      if !IsAddressTopic(fromTopic) || !IsAddressTopic(toTopic) {
        continue;
      }
      if !IsWord(log.data) {
        continue;
      }
      AmountIsHex(log, tokenContract);
      transfers := transfers + [Transfer(
        log.address, TopicAddress(fromTopic), TopicAddress(toTopic), Decimal(HexValue(log.data[2..])))];
    }
    assert logs[..|logs|] == logs;
  }

  lemma OneMoreLog(logs: seq<Log>, i: nat, contract: Text)
    requires i < |logs| && IsAddress(contract)
    ensures TransfersOn(logs[..i + 1], contract) ==
      if IsTransferOn(logs[i], contract) then TransfersOn(logs[..i], contract) + [TransferOf(logs[i], contract)]
      else TransfersOn(logs[..i], contract)
  {
    hide IsTransferOn, TransferOf;
    assert logs[..i + 1][..i] == logs[..i];
  }

  lemma AmountIsHex(log: Log, contract: Text)
    requires |log.topics| == 3 && IsAddressTopic(log.topics[1]) && IsAddressTopic(log.topics[2]) && IsWord(log.data)
    ensures |log.topics[1]| == |log.topics[2]| == 66 && |log.data| == 66 && AllHex(log.data[2..])
    ensures IsTransferOn(log, contract) ==> TransferOf(log, contract) == Transfer(
      log.address, TopicAddress(log.topics[1]), TopicAddress(log.topics[2]), Decimal(HexValue(log.data[2..])))
  {
  }

  // ---------------------------------------------------------------- matching

  /** `transferMatchesExpected`. */
  predicate TransferMatches(observed: Transfer, expected: Transfer) {
    && SameAddress(observed.tokenContract, expected.tokenContract)
    && SameAddress(observed.transferFrom, expected.transferFrom)
    && SameAddress(observed.transferTo, expected.transferTo)
    && observed.transferAmount == expected.transferAmount
  }

  /** The transfer at `k` is the one to record: the first that matches, or the first of all when none does. */
  predicate Picked(transfers: seq<Transfer>, expected: Transfer, k: nat) {
    && k < |transfers|
    && (forall j | 0 <= j < k :: !TransferMatches(transfers[j], expected))
    && (!TransferMatches(transfers[k], expected) ==>
          k == 0 && forall j | 0 <= j < |transfers| :: !TransferMatches(transfers[j], expected))
  }

  /** The matching transfer if there is one, else the first. */
  method SelectTransfer(transfers: seq<Transfer>, expected: Transfer) returns (recorded: Option<Transfer>)
    ensures recorded.None? <==> transfers == []
    ensures recorded.Some? ==> recorded.value in transfers
    ensures recorded.Some? ==> exists k: nat :: Picked(transfers, expected, k) && transfers[k] == recorded.value
    ensures (exists t | t in transfers :: TransferMatches(t, expected))
      <==> recorded.Some? && TransferMatches(recorded.value, expected)
  {
    hide TransferMatches;
    for i := 0 to |transfers|
      invariant forall k | 0 <= k < i :: !TransferMatches(transfers[k], expected)
    {
      if TransferMatches(transfers[i], expected) {
        assert Picked(transfers, expected, i);
        return Some(transfers[i]);
      }
    }
    assert |transfers| > 0 ==> Picked(transfers, expected, 0);
    recorded := if |transfers| > 0 then Some(transfers[0]) else None;
  }

  /** An address written as an indexed topic, in lower case. */
  function TopicOf(address: Text): Text
    requires |address| >= 2
  {
    Lit("0x") + seq(24, _ => ZERO) + Lower(address)[2..]
  }

  /** The log says, in the ABI's own terms, that the expected amount moved: the token contract emitted the
      transfer event, its topics are the two addresses padded to a word, and its one data word is the number
      the decimal amount denotes. */
  predicate Encodes(log: Log, e: Transfer) {
    && IsAddress(e.tokenContract) && IsAddress(log.address) && SameAddress(log.address, e.tokenContract)
    && |log.topics| == 3
    && IsWord(log.topics[0]) && Lower(log.topics[0]) == TransferEventTopic()
    && EncodesAddress(log.topics[1], e.transferFrom)
    && EncodesAddress(log.topics[2], e.transferTo)
    && IsWord(log.data)
    && IsCanonicalDecimal(e.transferAmount)
    && HexValue(log.data[2..]) == DecimalValue(e.transferAmount)
  }

  predicate EncodesAddress(topic: Text, address: Text) {
    && IsHexOf(Lower(address), 40)
    && |topic| == 66 && topic[..2] == Lit("0x")
    && Lower(topic) == TopicOf(address)
  }

  /** The topic check and the address read from it, together, say the topic is the padded address. */
  lemma TopicEncodes(topic: Text, address: Text)
    ensures IsAddressTopic(topic) || EncodesAddress(topic, address) ==> |topic| == 66
    ensures IsAddressTopic(topic) && SameAddress(TopicAddress(topic), address) <==> EncodesAddress(topic, address)
  {
    TopicLength(topic, address);
    hide IsAddressTopic, EncodesAddress, SameAddress;
    if EncodesAddress(topic, address) {
      TopicDecodes(topic, address);
    }
    if IsAddressTopic(topic) && SameAddress(TopicAddress(topic), address) {
      TopicPads(topic, address);
    }
  }

  lemma TopicLength(topic: Text, address: Text)
    ensures IsAddressTopic(topic) || EncodesAddress(topic, address) ==> |topic| == 66
  {
  }

  lemma TopicDecodes(topic: Text, address: Text)
    requires |topic| == 66 && EncodesAddress(topic, address)
    ensures IsAddressTopic(topic) && SameAddress(TopicAddress(topic), address)
  {
  }

  lemma TopicPads(topic: Text, address: Text)
    requires |topic| == 66 && IsAddressTopic(topic) && SameAddress(TopicAddress(topic), address)
    ensures EncodesAddress(topic, address)
  {
  }

  /** What is read from a log matches the expectation exactly when the log encodes it. */
  lemma MatchIsEncoding(log: Log, e: Transfer)
    requires IsAddress(e.tokenContract)
    ensures IsTransferOn(log, e.tokenContract) && TransferMatches(TransferOf(log, e.tokenContract), e)
      <==> Encodes(log, e)
  {
    hide IsAddressTopic, EncodesAddress, TransferEventTopic, TopicAddress, Decimal, HexValue, DecimalValue, IsHexOf;
    if |log.topics| == 3 {
      TopicEncodes(log.topics[1], e.transferFrom);
      TopicEncodes(log.topics[2], e.transferTo);
      WordDigits(log.data);
      if IsWord(log.data) {
        AmountMatches(HexValue(log.data[2..]), e.transferAmount);
      }
    }
  }

  lemma WordDigits(t: Text)
    ensures IsWord(t) ==> |t| == 66 && AllHex(t[2..])
  {
  }

  lemma AmountMatches(value: nat, amount: Text)
    ensures Decimal(value) == amount <==> IsCanonicalDecimal(amount) && DecimalValue(amount) == value
  {
    DecimalRoundTrip(value);
    if IsCanonicalDecimal(amount) {
      CanonicalRoundTrip(amount);
    }
  }
}
