/** The framed packet stream a session owns, as a scripted oracle: what each
    Read returns and which Write and Flush calls fail are fixed when the stream
    is made, and every call is recorded. */
module Stream {
  import opened Events

  /** The stream's dynamic type: the TLV stream, or a stream of some other
      codec. A registered generator may build either. */
  datatype StreamKind = TLVStream | OtherStream(codec: nat)

  datatype ReadOutcome = ReadOk(msgId: int, data: seq<Byte>) | ReadErr(code: ErrorCode)

  datatype StreamOp =
    | SetReadDeadlineOp
    | SetWriteDeadlineOp
    | ReadOp
    | WriteOp(msgId: int, data: seq<Byte>)
    | FlushOp
    | CloseOp

  /** The operations a sequence of writes appends to the stream's record. */
  function WriteOps(reqs: seq<SendRequest>): (ops: seq<StreamOp>)
    ensures |ops| == |reqs|
    ensures forall i :: 0 <= i < |reqs| ==> ops[i] == WriteOp(reqs[i].msgId, reqs[i].data)
  {
    if reqs == [] then [] else [WriteOp(reqs[0].msgId, reqs[0].data)] + WriteOps(reqs[1..])
  }

  class PacketStream {
    const kind: StreamKind
    /** What the successive reads of the open stream return. */
    const incoming: seq<ReadOutcome>
    /** Ordinals (from 0) of the Write calls that fail. */
    const writeErrs: set<nat>
    /** Ordinals (from 0) of the Flush calls that fail. */
    const flushErrs: set<nat>
    /** What a read of the closed stream reports. */
    const closedErr: ErrorCode

    var maxPacketSize: int
    var ops: seq<StreamOp>
    var readCount: nat
    var writes: nat
    var flushes: nat
    var closes: nat

    constructor (kind: StreamKind, incoming: seq<ReadOutcome>, writeErrs: set<nat>,
                 flushErrs: set<nat>, closedErr: ErrorCode)
      ensures this.kind == kind && this.incoming == incoming
      ensures this.writeErrs == writeErrs && this.flushErrs == flushErrs
      ensures this.closedErr == closedErr
      ensures maxPacketSize == 0 && ops == []
      ensures readCount == 0 && writes == 0 && flushes == 0 && closes == 0
    {
      this.kind := kind;
      this.incoming := incoming;
      this.writeErrs := writeErrs;
      this.flushErrs := flushErrs;
      this.closedErr := closedErr;
      maxPacketSize := 0;
      ops := [];
      readCount, writes, flushes, closes := 0, 0, 0, 0;
    }

    /** A read returns without blocking: the stream is closed, or a message or
        an error is waiting. */
    predicate CanRead()
      reads this
    {
      closes > 0 || readCount < |incoming|
    }

    /** What the next read returns: an error once the stream is closed. */
    function NextRead(): (r: ReadOutcome)
      reads this
      requires CanRead()
      ensures closes > 0 ==> r == ReadErr(closedErr)
      ensures closes == 0 ==> r == incoming[readCount]
    {
      if closes > 0 then ReadErr(closedErr) else incoming[readCount]
    }

    method Read() returns (r: ReadOutcome)
      requires CanRead()
      modifies this
      ensures r == old(NextRead())
      ensures ops == old(ops) + [ReadOp] && readCount == old(readCount) + 1
      ensures writes == old(writes) && flushes == old(flushes) && closes == old(closes)
      ensures maxPacketSize == old(maxPacketSize)
    {
      r := if closes > 0 then ReadErr(closedErr) else incoming[readCount];
      ops := ops + [ReadOp];
      readCount := readCount + 1;
    }

    /** Writes one frame; `failed` reports an error. */
    method Write(msgId: int, data: seq<Byte>) returns (failed: bool)
      modifies this
      ensures failed == (old(writes) in writeErrs)
      ensures ops == old(ops) + [WriteOp(msgId, data)] && writes == old(writes) + 1
      ensures readCount == old(readCount) && flushes == old(flushes) && closes == old(closes)
      ensures maxPacketSize == old(maxPacketSize)
    {
      failed := writes in writeErrs;
      ops := ops + [WriteOp(msgId, data)];
      writes := writes + 1;
    }

    method Flush() returns (failed: bool)
      modifies this
      ensures failed == (old(flushes) in flushErrs)
      ensures ops == old(ops) + [FlushOp] && flushes == old(flushes) + 1
      ensures readCount == old(readCount) && writes == old(writes) && closes == old(closes)
      ensures maxPacketSize == old(maxPacketSize)
    {
      failed := flushes in flushErrs;
      ops := ops + [FlushOp];
      flushes := flushes + 1;
    }

    method Close()
      modifies this
      ensures ops == old(ops) + [CloseOp] && closes == old(closes) + 1
      ensures readCount == old(readCount) && writes == old(writes) && flushes == old(flushes)
      ensures maxPacketSize == old(maxPacketSize)
    {
      ops := ops + [CloseOp];
      closes := closes + 1;
    }

    /** Sets a deadline on the raw connection; the model keeps only that one was set. */
    method SetReadDeadline()
      modifies this
      ensures ops == old(ops) + [SetReadDeadlineOp]
      ensures readCount == old(readCount) && writes == old(writes) && flushes == old(flushes)
      ensures closes == old(closes) && maxPacketSize == old(maxPacketSize)
    {
      ops := ops + [SetReadDeadlineOp];
    }

    method SetWriteDeadline()
      modifies this
      ensures ops == old(ops) + [SetWriteDeadlineOp]
      ensures readCount == old(readCount) && writes == old(writes) && flushes == old(flushes)
      ensures closes == old(closes) && maxPacketSize == old(maxPacketSize)
    {
      ops := ops + [SetWriteDeadlineOp];
    }

    method SetMaxPacketSize(size: int)
      modifies this
      ensures maxPacketSize == size
      ensures ops == old(ops) && readCount == old(readCount) && writes == old(writes)
      ensures flushes == old(flushes) && closes == old(closes)
    {
      maxPacketSize := size;
    }
  }
}
