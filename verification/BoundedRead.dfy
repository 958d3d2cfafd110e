/** Reading no more than was allowed, from a source that answers as it likes: readBoundedFile of
    src/flow/safe-read.ts and readBodyWithinBudget of src/flow/evm-json-rpc.ts. */
module BoundedRead {
  import opened Wrappers
  import opened CodeUnits

  function Min(a: nat, b: nat): nat {
    if a < b then a else b
  }

  // ---------------------------------------------------------------- files

  /** What one read is answered with: bytes, of which as many are delivered as were asked for, or an error. */
  datatype ReadAnswer = Bytes(bytes: seq<Byte>) | Fails

  /** An open file. Its answers may change from call to call, so its length is whatever it turns out to be. */
  class Descriptor {
    const answer: nat -> ReadAnswer
    var calls: nat
    ghost var delivered: seq<Byte>
    ghost var ended: bool
    ghost var failed: bool

    constructor (answer: nat -> ReadAnswer)
      ensures this.answer == answer && calls == 0 && delivered == [] && !ended && !failed
    {
      this.answer := answer;
      calls := 0;
      delivered, ended, failed := [], false, false;
    }

    /** Fills `buffer` from `offset` with up to `length` bytes and says how many; none when it throws. */
    method ReadSync(buffer: array<Byte>, offset: nat, length: nat) returns (read: Option<nat>)
      requires offset + length <= buffer.Length && length > 0
      modifies this, buffer
      ensures read.None? ==> failed && buffer[..] == old(buffer[..])
      ensures read.None? ==> delivered == old(delivered) && ended == old(ended)
      ensures read.Some? ==>
        && failed == old(failed) && read.value <= length
        && ended == (old(ended) || read.value == 0)
        && buffer[..offset] == old(buffer[..offset])
        && buffer[offset + read.value..] == old(buffer[offset + read.value..])
        && delivered == old(delivered) + buffer[offset..offset + read.value]
    {
      var given := answer(calls);
      calls := calls + 1;
      if given.Fails? {
        failed := true;
        return None;
      }
      var n := Min(|given.bytes|, length);
      for k := 0 to n
        invariant forall j | 0 <= j < buffer.Length && !(offset <= j < offset + k) :: buffer[j] == old(buffer[j])
        invariant forall j | 0 <= j < k :: buffer[offset + j] == given.bytes[j]
        invariant delivered == old(delivered) && ended == old(ended) && failed == old(failed)
      {
        buffer[offset + k] := given.bytes[k];
      }
      assert buffer[offset..offset + n] == given.bytes[..n];
      ended := ended || n == 0;
      delivered := delivered + given.bytes[..n];
      return Some(n);
    }
  }

  datatype FileRead = Read(bytes: seq<Byte>) | TooLarge | Unreadable

  /** The read itself, once the descriptor is known to be a regular file of this size. What is returned is the
      whole of what the file held up to its end, or a refusal: never part of it. */
  method ReadBoundedFile(fd: Descriptor, size: nat, maxBytes: nat) returns (r: FileRead)
    requires fd.delivered == [] && !fd.ended && !fd.failed
    modifies fd
    ensures size > maxBytes ==> r == TooLarge && unchanged(fd)
    ensures size <= maxBytes ==> (r.Read? <==> fd.ended) && (r.Unreadable? <==> fd.failed)
    ensures r.Read? ==> r.bytes == fd.delivered && |fd.delivered| <= size
    ensures size <= maxBytes && r.TooLarge? ==> |fd.delivered| == size + 1
  {
    if size > maxBytes {
      return TooLarge;
    }
    var cap := Min(size, maxBytes);
    var buffer := new Byte[cap + 1];
    var filled: nat := 0;
    while true
      invariant fresh(buffer) && buffer.Length == cap + 1 && filled <= cap
      invariant fd.delivered == buffer[..filled] && !fd.ended && !fd.failed
      decreases cap - filled
    {
      ghost var before := buffer[..filled];
      var read := fd.ReadSync(buffer, filled, buffer.Length - filled);
      if read.None? {
        return Unreadable;
      }
      assert buffer[..filled + read.value] == before + buffer[filled..filled + read.value];
      if read.value == 0 {
        return Read(buffer[..filled]);
      }
      filled := filled + read.value;
      if filled > cap {
        return TooLarge;
      }
    }
  }

  // ---------------------------------------------------------------- response bodies

  /** A stream: its chunks in order, after which it ends, or breaks. */
  datatype Body = Body(chunks: seq<seq<Byte>>, breaks: bool)

  datatype BodyRead = Whole(bytes: seq<Byte>) | OverBudget | Broken

  function Concat(chunks: seq<seq<Byte>>): seq<Byte> {
    if chunks == [] then [] else Concat(chunks[..|chunks| - 1]) + chunks[|chunks| - 1]
  }

  lemma ConcatMore(chunks: seq<seq<Byte>>, i: nat)
    requires i < |chunks|
    ensures Concat(chunks[..i + 1]) == Concat(chunks[..i]) + chunks[i]
  {
    assert chunks[..i + 1][..i] == chunks[..i];
  }

  lemma {:induction false} ConcatGrows(chunks: seq<seq<Byte>>, i: nat)
    requires i <= |chunks|
    ensures |Concat(chunks[..i])| <= |Concat(chunks)|
    decreases |chunks| - i
  {
    if i < |chunks| {
      ConcatMore(chunks, i);
      ConcatGrows(chunks, i + 1);
    } else {
      assert chunks[..i] == chunks;
    }
  }

  /** Copies chunks one after another into one array of exactly their total length. */
  method Join(chunks: seq<seq<Byte>>, total: nat) returns (joined: array<Byte>)
    requires total == |Concat(chunks)|
    ensures fresh(joined) && joined[..] == Concat(chunks)
  {
    joined := new Byte[total];
    var offset: nat := 0;
    assert chunks[..0] == [];
    for i := 0 to |chunks|
      invariant offset == |Concat(chunks[..i])| <= total
      invariant joined[..offset] == Concat(chunks[..i])
    {
      ConcatMore(chunks, i);
      ConcatGrows(chunks, i + 1);
      ghost var before := joined[..offset];
      for k := 0 to |chunks[i]|
        invariant joined[..offset] == before
        invariant forall j | 0 <= j < k :: joined[offset + j] == chunks[i][j]
      {
        joined[offset + k] := chunks[i][k];
      }
      assert joined[offset..offset + |chunks[i]|] == chunks[i];
      assert joined[..offset + |chunks[i]|] == joined[..offset] + joined[offset..offset + |chunks[i]|];
      offset := offset + |chunks[i]|;
    }
    assert chunks[..|chunks|] == chunks;
  }

  /** The whole body when it ends within the budget; a refusal when it is longer, though it might break later;
      and a transport failure when it breaks first. */
  method ReadBodyWithinBudget(body: Option<Body>, budget: nat) returns (r: BodyRead)
    ensures body.None? ==> r == Whole([])
    ensures body.Some? ==> (r.OverBudget? <==> |Concat(body.value.chunks)| > budget)
    ensures body.Some? && |Concat(body.value.chunks)| <= budget ==>
      r == if body.value.breaks then Broken else Whole(Concat(body.value.chunks))
  {
    if body.None? {
      return Whole([]);
    }
    var incoming := body.value.chunks;
    var chunks: seq<seq<Byte>> := [];
    var total: nat := 0;
    for i := 0 to |incoming|
      invariant chunks == incoming[..i] && total == |Concat(chunks)| <= budget
    {
      ConcatMore(incoming, i);
      ConcatGrows(incoming, i + 1);
      total := total + |incoming[i]|;
      if total > budget {
        return OverBudget;
      }
      chunks := chunks + [incoming[i]];
    }
    assert chunks == incoming;
    if body.value.breaks {
      return Broken;
    }
    var joined := Join(chunks, total);
    return Whole(joined[..]);
  }
}
