/** Admitting an endpoint's answers (src/flow/evm-json-rpc.ts, src/flow/observe-transaction.ts): a value has
    exactly the shape its type defines, or the whole answer is refused. */
module RpcAdmission {
  import opened Wrappers
  import opened CodeUnits
  import opened Numerals
  import opened Json
  import opened JcsStrings
  import opened Transfers
  import opened Observation

  const MAX_RECEIPT_LOGS: nat := 256

  /** `0x0`, or `0x` and digits of which the first is not zero. */
  predicate IsQuantity(t: Text) {
    && |t| >= 3 && t[0] == ZERO && t[1] == LETTER_X && AllHex(t[2..])
    && (t[2] == ZERO ==> |t| == 3)
  }

  function AdmitRpcQuantity(value: Option<Json>): Option<nat> {
    if value.Some? && value.value.Str? && IsQuantity(value.value.text) then Some(HexValue(value.value.text[2..]))
    else None
  }

  /** How a block is asked for by number. */
  function QuantityText(n: nat): Text {
    Lit("0x") + Hexadecimal(n)
  }

  lemma {:induction false} HexadecimalDigits(n: nat)
    ensures |Hexadecimal(n)| > 0 && AllHex(Hexadecimal(n)) && HexValue(Hexadecimal(n)) == n
    ensures Lower(Hexadecimal(n)) == Hexadecimal(n)
    ensures n > 0 ==> Hexadecimal(n)[0] != ZERO
  {
    var t := Hexadecimal(n);
    if n < 16 {
      assert t[..0] == [];
    } else {
      HexadecimalDigits(n / 16);
      assert t[..|t| - 1] == Hexadecimal(n / 16);
      assert t[0] == Hexadecimal(n / 16)[0];
    }
  }

  lemma HexadecimalSnoc(v: nat, digit: CodeUnit)
    requires IsHexDigit(digit) && v > 0
    ensures Hexadecimal(16 * v + HexDigitValue(digit)) == Hexadecimal(v) + [LowerUnit(digit)]
  {
    var d := HexDigitValue(digit);
    assert (16 * v + d) / 16 == v && (16 * v + d) % 16 == d;
    assert LowerHexDigit(d) == LowerUnit(digit);
  }

  lemma HexadecimalDigit(digit: CodeUnit)
    requires IsHexDigit(digit)
    ensures Hexadecimal(HexDigitValue(digit)) == [LowerUnit(digit)]
  {
  }

  lemma {:induction false} HexValueNames(t: Text)
    requires |t| > 0 && AllHex(t) && (t[0] == ZERO ==> |t| == 1)
    ensures Hexadecimal(HexValue(t)) == Lower(t)
    ensures t[0] != ZERO ==> HexValue(t) > 0
  {
    hide Hexadecimal, LowerUnit;
    var front, last := t[..|t| - 1], t[|t| - 1];
    if |t| > 1 {
      assert AllHex(front) && front[0] == t[0];
      HexValueNames(front);
      HexadecimalSnoc(HexValue(front), last);
      assert Lower(t) == Lower(front) + [LowerUnit(last)];
    } else {
      assert front == [];
      HexadecimalDigit(last);
      assert Lower(t) == [LowerUnit(last)];
    }
  }

  /** Every number is admitted from the text it is asked by. */
  lemma NumberRoundTrip(n: nat)
    ensures AdmitRpcQuantity(Some(Str(QuantityText(n)))) == Some(n)
  {
    HexadecimalDigits(n);
    hide HexValue;
    var t := QuantityText(n);
    assert t[2..] == Hexadecimal(n) && t[2] == Hexadecimal(n)[0];
    if n == 0 {
      assert Hexadecimal(0) == [ZERO];
    }
  }

  /** Every admitted text is, up to the case of its digits, the text of the number it is admitted as. */
  lemma QuantityRoundTrip(t: Text)
    requires AdmitRpcQuantity(Some(Str(t))).Some?
    ensures QuantityText(AdmitRpcQuantity(Some(Str(t))).value) == Lower(t)
  {
    hide HexValue, Hexadecimal;
    HexValueNames(t[2..]);
    assert t == Lit("0x") + t[2..];
    LowerConcat(Lit("0x"), t[2..]);
    assert Lower(Lit("0x")) == Lit("0x");
  }

  // ---------------------------------------------------------------- receipts

  predicate Missing(value: Option<Json>) {
    value.None? || value.value.Null?
  }

  /** A block number that may be undefined or null, and is a quantity otherwise. */
  predicate NumberFits(value: Option<Json>) {
    Missing(value) || AdmitRpcQuantity(value).Some?
  }

  predicate HashFits(value: Option<Json>) {
    Missing(value) || (value.value.Str? && IsWord(value.value.text))
  }

  function PlacedNumber(value: Option<Json>): Option<nat> {
    if Missing(value) then None else AdmitRpcQuantity(value)
  }

  function PlacedHash(value: Option<Json>): Option<Text> {
    if !Missing(value) && value.value.Str? then Some(value.value.text) else None
  }

  predicate IsTopics(value: Option<Json>) {
    && value.Some? && value.value.Arr?
    && forall k | 0 <= k < |value.value.items| :: value.value.items[k].Str? && IsWord(value.value.items[k].text)
  }

  function TopicTexts(items: seq<Json>): (topics: seq<Text>)
    requires forall k | 0 <= k < |items| :: items[k].Str?
    ensures |topics| == |items|
  {
    seq(|items|, k requires 0 <= k < |items| => items[k].text)
  }

  /** `0x` and whole bytes. */
  predicate IsData(t: Text) {
    |t| >= 2 && |t| % 2 == 0 && IsHexOf(t, |t| - 2)
  }

  predicate LogShape(raw: Json) {
    && raw.Obj?
    && IsText(Get(raw, Lit("address"))) && IsAddress(Get(raw, Lit("address")).value.text)
    && IsTopics(Get(raw, Lit("topics")))
    && IsText(Get(raw, Lit("data"))) && IsData(Get(raw, Lit("data")).value.text)
  }

  /** Placement members are optional; one that is there is well formed, names this receipt's transaction and
      block, and never marks the log removed. */
  predicate LogPlacement(raw: Json, expected: Option<Text>, number: Option<nat>, hash: Option<Text>) {
    && (Get(raw, Lit("removed")).Some? ==> Get(raw, Lit("removed")).value == Bool(false))
    && (var t := Get(raw, Lit("transactionHash"));
        t.Some? ==>
          IsText(t) && IsWord(t.value.text) && (expected.Some? ==> Lower(t.value.text) == Lower(expected.value)))
    && (var h := Get(raw, Lit("blockHash"));
        h.Some? ==> IsText(h) && IsWord(h.value.text) && (hash.Some? ==> Lower(h.value.text) == Lower(hash.value)))
    && (var n := Get(raw, Lit("blockNumber"));
        !Missing(n) ==> AdmitRpcQuantity(n).Some? && (number.Some? ==> AdmitRpcQuantity(n) == number))
  }

  predicate LogAdmissible(raw: Json, expected: Option<Text>, number: Option<nat>, hash: Option<Text>) {
    LogShape(raw) && LogPlacement(raw, expected, number, hash)
  }

  function LogOf(raw: Json): Log
    requires LogShape(raw)
  {
    Log(
      Get(raw, Lit("address")).value.text,
      TopicTexts(Get(raw, Lit("topics")).value.items),
      Get(raw, Lit("data")).value.text)
  }

  function StatusOf(value: Option<Json>): Option<ReceiptStatus> {
    if value == Some(Str(Lit("0x1"))) then Some(Success)
    else if value == Some(Str(Lit("0x0"))) then Some(Reverted)
    else None
  }

  lemma LogKeys()
    ensures Spells(Lit("address"), "address") && Spells(Lit("topics"), "topics") && Spells(Lit("data"), "data")
    ensures Spells(Lit("0x1"), "0x1") && Spells(Lit("0x0"), "0x0")
  {
  }

  /** A log is read member by member, each from under its own name. */
  lemma LogReads(raw: Json)
    requires LogShape(raw)
    ensures
      var log := LogOf(raw);
      && Under(raw, "address") == Some(Str(log.address))
      && Under(raw, "data") == Some(Str(log.data))
      && Under(raw, "topics").Some? && Under(raw, "topics").value.Arr?
      && |Under(raw, "topics").value.items| == |log.topics|
      && forall k | 0 <= k < |log.topics| :: Under(raw, "topics").value.items[k] == Str(log.topics[k])
  {
    hide Under, Get, IsAddress, IsData, IsWord;
    LogKeys();
    UnderKey(raw, "address", Lit("address"));
    UnderKey(raw, "topics", Lit("topics"));
    UnderKey(raw, "data", Lit("data"));
  }

  /** Only these two status texts are admitted, and each as what it says. */
  lemma StatusReads(value: Option<Json>)
    ensures StatusOf(value) == Some(Success) <==> ReadsText(value, "0x1")
    ensures StatusOf(value) == Some(Reverted) <==> ReadsText(value, "0x0")
  {
    LogKeys();
    ReadsExactly(value, "0x1", Lit("0x1"));
    ReadsExactly(value, "0x0", Lit("0x0"));
    assert Lit("0x1")[2] == 0x31 && Lit("0x0")[2] == 0x30;
  }

  /** A receipt every part of which is admissible. */
  predicate ReceiptAdmissible(result: Json, expected: Option<Text>) {
    && result.Obj?
    && StatusOf(Get(result, Lit("status"))).Some?
    && NumberFits(Get(result, Lit("blockNumber")))
    && HashFits(Get(result, Lit("blockHash")))
    && Get(result, Lit("logs")).Some? && Get(result, Lit("logs")).value.Arr?
    && var items := Get(result, Lit("logs")).value.items;
    && |items| <= MAX_RECEIPT_LOGS
    && var number, hash := PlacedNumber(Get(result, Lit("blockNumber"))), PlacedHash(Get(result, Lit("blockHash")));
    && forall k | 0 <= k < |items| :: LogAdmissible(items[k], expected, number, hash)
  }

  method TopicsAdmitted(items: seq<Json>) returns (ok: bool)
    ensures ok <==> forall k | 0 <= k < |items| :: items[k].Str? && IsWord(items[k].text)
  {
    for k := 0 to |items|
      invariant forall i | 0 <= i < k :: items[i].Str? && IsWord(items[i].text)
    {
      if !items[k].Str? || !IsWord(items[k].text) {
        return false;
      }
    }
    return true;
  }

  /** One log, or none when it makes the whole receipt unusable. */
  method AdmitLog(raw: Json, expected: Option<Text>, number: Option<nat>, hash: Option<Text>)
    returns (log: Option<Log>)
    ensures log.Some? <==> LogAdmissible(raw, expected, number, hash)
    ensures log.Some? ==> log.value == LogOf(raw)
  {
    hide Get, IsHexOf, IsQuantity, Lower, HexValue, AdmitRpcQuantity;
    log := None;
    if !raw.Obj? {
      return;
    }
    var address, topics, data := Get(raw, Lit("address")), Get(raw, Lit("topics")), Get(raw, Lit("data"));
    if !IsText(address) || !IsAddress(address.value.text) {
      return;
    }
    if topics.None? || !topics.value.Arr? {
      return;
    }
    var topicsOk := TopicsAdmitted(topics.value.items);
    if !topicsOk {
      return;
    }
    if !IsText(data) || !IsData(data.value.text) {
      return;
    }
    var removed := Get(raw, Lit("removed"));
    if removed.Some? && removed.value != Bool(false) {
      return;
    }
    var transactionHash := Get(raw, Lit("transactionHash"));
    if transactionHash.Some? {
      if !IsText(transactionHash) || !IsWord(transactionHash.value.text) {
        return;
      }
      if expected.Some? && Lower(transactionHash.value.text) != Lower(expected.value) {
        return;
      }
    }
    var blockHash := Get(raw, Lit("blockHash"));
    if blockHash.Some? {
      if !IsText(blockHash) || !IsWord(blockHash.value.text) {
        return;
      }
      if hash.Some? && Lower(blockHash.value.text) != Lower(hash.value) {
        return;
      }
    }
    var blockNumber := Get(raw, Lit("blockNumber"));
    if !Missing(blockNumber) {
      var admitted := AdmitRpcQuantity(blockNumber);
      if admitted.None? {
        return;
      }
      if number.Some? && admitted != number {
        return;
      }
    }
    log := Some(Log(address.value.text, TopicTexts(topics.value.items), data.value.text));
  }

  /** A receipt, with every one of its logs in order; or none when any part of it is malformed. */
  method AdmitReceiptResult(result: Json, expected: Option<Text>) returns (receipt: Option<Receipt>)
    ensures receipt.Some? <==> ReceiptAdmissible(result, expected)
    ensures receipt.Some? ==>
      var items := Get(result, Lit("logs")).value.items;
      && Some(receipt.value.status) == StatusOf(Get(result, Lit("status")))
      && receipt.value.blockNumber == PlacedNumber(Get(result, Lit("blockNumber")))
      && receipt.value.blockHash == PlacedHash(Get(result, Lit("blockHash")))
      && |receipt.value.logs| == |items|
      && forall k | 0 <= k < |items| :: receipt.value.logs[k] == LogOf(items[k])
  {
    hide Get, IsWord, AdmitRpcQuantity, LogPlacement, LogShape, LogOf;
    receipt := None;
    if !result.Obj? {
      return;
    }
    var status := StatusOf(Get(result, Lit("status")));
    if status.None? {
      return;
    }
    var blockNumber := Get(result, Lit("blockNumber"));
    var number: Option<nat> := None;
    if !Missing(blockNumber) {
      number := AdmitRpcQuantity(blockNumber);
      if number.None? {
        return;
      }
    }
    var blockHash := Get(result, Lit("blockHash"));
    var hash: Option<Text> := None;
    if !Missing(blockHash) {
      if !blockHash.value.Str? || !IsWord(blockHash.value.text) {
        return;
      }
      hash := Some(blockHash.value.text);
    }
    var raws := Get(result, Lit("logs"));
    if raws.None? || !raws.value.Arr? {
      return;
    }
    if |raws.value.items| > MAX_RECEIPT_LOGS {
      return;
    }
    var logs: seq<Log> := [];
    for k := 0 to |raws.value.items|
      invariant |logs| == k
      invariant forall i | 0 <= i < k ::
        LogAdmissible(raws.value.items[i], expected, number, hash) && logs[i] == LogOf(raws.value.items[i])
    {
      var log := AdmitLog(raws.value.items[k], expected, number, hash);
      if log.None? {
        return;
      }
      logs := logs + [log.value];
    }
    receipt := Some(Receipt(status.value, number, hash, logs));
  }

  // ---------------------------------------------------------------- blocks

  predicate BlockAdmissible(result: Json) {
    && result.Obj?
    && AdmitRpcQuantity(Get(result, Lit("number"))).Some?
    && IsText(Get(result, Lit("hash"))) && IsWord(Get(result, Lit("hash")).value.text)
    && IsTopics(Get(result, Lit("transactions")))
  }

  /** A sealed block with every transaction hash it lists; or none when any entry is not one. */
  method AdmitSealedBlockResult(result: Json) returns (block: Option<SealedBlock>)
    ensures block.Some? <==> BlockAdmissible(result)
    ensures block.Some? ==>
      && Some(block.value.number) == AdmitRpcQuantity(Get(result, Lit("number")))
      && block.value.hash == Get(result, Lit("hash")).value.text
      && block.value.transactionHashes == TopicTexts(Get(result, Lit("transactions")).value.items)
  {
    hide Get, IsWord, AdmitRpcQuantity;
    block := None;
    if !result.Obj? {
      return;
    }
    var number := AdmitRpcQuantity(Get(result, Lit("number")));
    if number.None? {
      return;
    }
    var hash := Get(result, Lit("hash"));
    if hash.None? || !hash.value.Str? || !IsWord(hash.value.text) {
      return;
    }
    var transactions := Get(result, Lit("transactions"));
    if transactions.None? || !transactions.value.Arr? {
      return;
    }
    var transactionHashes: seq<Text> := [];
    for k := 0 to |transactions.value.items|
      invariant |transactionHashes| == k
      invariant forall i | 0 <= i < k ::
        var entry := transactions.value.items[i];
        entry.Str? && IsWord(entry.text) && transactionHashes[i] == entry.text
    {
      var entry := transactions.value.items[k];
      if !entry.Str? || !IsWord(entry.text) {
        return;
      }
      transactionHashes := transactionHashes + [entry.text];
    }
    block := Some(SealedBlock(number.value, hash.value.text, transactionHashes));
  }
}
