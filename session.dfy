/** One live connection (SocketSession): a recv loop feeding the recv chain,
    a send loop draining the outbound queue in batches, and a coordinator that
    fires the close callback once both loops are done.

    The three goroutines are step methods; a step whose goroutine would block
    (an empty queue, a read with nothing to return, a join whose counter is not
    zero) has that as its precondition, and any interleaving of enabled steps
    is a run (see RunSchedule). */
module Session {
  import opened Events
  import opened Stream
  import opened Peer
  import opened SysEvent
  import ReadHandler

  /** The outbound queue: requests in arrival order, `None` the close sentinel. */
  type Queue = seq<Option<SendRequest>>

  /** The requests of a picked batch the send loop writes: those before the
      first sentinel, in queue order. */
  function WritePrefix(batch: Queue): (w: seq<SendRequest>)
    ensures |w| <= |batch|
    ensures forall i :: 0 <= i < |w| ==> batch[i] == Some(w[i])
    ensures |w| < |batch| ==> batch[|w|] == None
  {
    if batch == [] then []
    else match batch[0]
      case None => []
      case Some(r) => [r] + WritePrefix(batch[1..])
  }

  /** The queue a lone producer leaves: its requests, each wrapped. */
  function Queued(reqs: seq<SendRequest>): (q: Queue)
    ensures |q| == |reqs| && None !in q
    ensures forall i :: 0 <= i < |q| ==> q[i] == Some(reqs[i])
  {
    seq(|reqs|, i requires 0 <= i < |reqs| => Some(reqs[i]))
  }

  /** A batch without a sentinel is written whole, and what follows it in the
      queue is written after it; a batch with one hides everything after it. */
  lemma WritePrefixAppend(a: Queue, b: Queue)
    ensures None in a ==> WritePrefix(a + b) == WritePrefix(a)
    ensures None !in a ==> |WritePrefix(a)| == |a| && WritePrefix(a + b) == WritePrefix(a) + WritePrefix(b)
  {
    var wa, wb := WritePrefix(a), WritePrefix(b);
    if None in a {
      assert |wa| < |a|;
      WritePrefixUnique(a + b, wa);
    } else {
      assert |wa| == |a|;
      var w := wa + wb;
      forall i | 0 <= i < |w| ensures (a + b)[i] == Some(w[i]) {
        if i >= |a| {
          assert (a + b)[i] == b[i - |a|];
        }
      }
      if |w| < |a + b| {
        assert (a + b)[|w|] == b[|wb|];
      }
      WritePrefixUnique(a + b, w);
    }
  }

  /** Requests added and then a Close, picked in one batch: the batch's write
      prefix is exactly those requests, whatever is queued after the sentinel. */
  lemma SentinelEndsBatch(reqs: seq<SendRequest>, rest: Queue)
    ensures WritePrefix(Queued(reqs) + [None] + rest) == reqs
  {
    WritePrefixAppend(Queued(reqs), [None] + rest);
    assert Queued(reqs) + [None] + rest == Queued(reqs) + ([None] + rest);
    assert WritePrefix(Queued(reqs)) == reqs;
  }

  /** Requests added and then a Close, picked in one batch with no failing
      write among theirs: every one of them is written, in order, and the batch
      is flushed and ends the loop. */
  lemma SentinelBatchWritesAll(reqs: seq<SendRequest>, rest: Queue, writeTimeout: int, writeErrs: set<nat>,
                               flushErrs: set<nat>, w0: nat, f0: nat)
    requires forall o :: w0 <= o < w0 + |reqs| ==> o !in writeErrs
    ensures var r := SendBatchSpec(Queued(reqs) + [None] + rest, writeTimeout, writeErrs, flushErrs, w0, f0);
      && r.written == |reqs| && r.exited
      && r.ops == (if writeTimeout != 0 then [SetWriteDeadlineOp] else []) + WriteOps(reqs) + [FlushOp]
  {
    SentinelEndsBatch(reqs, rest);
    assert reqs[..|reqs|] == reqs;
    assert None in Queued(reqs) + [None] + rest;
  }

  /** A batch has one write prefix: the requests that precede its first
      sentinel, or all of it. */
  lemma WritePrefixUnique(batch: Queue, w: seq<SendRequest>)
    requires |w| <= |batch|
    requires forall i :: 0 <= i < |w| ==> batch[i] == Some(w[i])
    requires |w| < |batch| ==> batch[|w|] == None
    ensures w == WritePrefix(batch)
  {
  }

  /** The first loop of a send batch: copies the requests before the first
      sentinel and notes whether a sentinel was seen. */
  method CollectBatch(packetList: Queue) returns (writeList: seq<SendRequest>, willExit: bool)
    ensures writeList == WritePrefix(packetList)
    ensures willExit <==> None in packetList
  {
    writeList, willExit := [], false;
    var i := 0;
    while i < |packetList|
      invariant 0 <= i <= |packetList|
      invariant |writeList| == i
      invariant forall j :: 0 <= j < i ==> packetList[j] == Some(writeList[j])
      invariant !willExit
    {
      match packetList[i]
      case None =>
        willExit := true;
        break;
      case Some(ev) =>
        writeList := writeList + [ev];
      i := i + 1;
    }
    WritePrefixUnique(packetList, writeList);
  }

  /** The position in a batch of `n` writes, starting at write ordinal `start`,
      of the first write that fails, or `n` when none does. */
  function FirstWriteFailure(errs: set<nat>, start: nat, n: nat): (k: nat)
    ensures k <= n
    ensures forall o :: start <= o < start + k ==> o !in errs
    ensures k < n ==> start + k in errs
    decreases n
  {
    if n == 0 || start in errs then 0
    else 1 + FirstWriteFailure(errs, start + 1, n - 1)
  }

  /** How many writes the write loop attempts: up to and including the first
      failing one. */
  function WriteAttempts(errs: set<nat>, start: nat, n: nat): nat
  {
    var k := FirstWriteFailure(errs, start, n);
    if k < n then k + 1 else n
  }

  /** The second loop of a send batch: writes the requests in order and
      stops after the first write that fails. `written` is the number of
      writes attempted, and `failed` whether the last of them failed. */
  method WriteBatch(stream: PacketStream, writeList: seq<SendRequest>) returns (written: nat, failed: bool)
    modifies stream
    ensures var k := FirstWriteFailure(stream.writeErrs, old(stream.writes), |writeList|);
      && written == WriteAttempts(stream.writeErrs, old(stream.writes), |writeList|)
      && (failed <==> k < |writeList|)
    ensures stream.ops == old(stream.ops) + WriteOps(writeList[..written])
    ensures stream.writes == old(stream.writes) + written
    ensures stream.flushes == old(stream.flushes) && stream.closes == old(stream.closes)
    ensures stream.readCount == old(stream.readCount) && stream.maxPacketSize == old(stream.maxPacketSize)
  {
    ghost var k := FirstWriteFailure(stream.writeErrs, stream.writes, |writeList|);
    failed := false;
    written := 0;
    while written < |writeList| && !failed
      invariant 0 <= written <= |writeList|
      invariant failed <==> written > 0 && written - 1 == k && k < |writeList|
      invariant !failed ==> written <= k
      invariant stream.ops == old(stream.ops) + WriteOps(writeList[..written])
      invariant stream.writes == old(stream.writes) + written
      invariant stream.flushes == old(stream.flushes) && stream.closes == old(stream.closes)
      invariant stream.readCount == old(stream.readCount) && stream.maxPacketSize == old(stream.maxPacketSize)
    {
      var req := writeList[written];
      failed := stream.Write(req.msgId, req.data);
      assert writeList[..written + 1] == writeList[..written] + [req];
      written := written + 1;
    }
  }

  /** What one send-loop pass does with a picked batch. */
  datatype BatchResult = BatchResult(written: nat, exited: bool, ops: seq<StreamOp>)

  /** One pass of the send loop over `batch`, on a stream whose next write and
      flush have ordinals `w0` and `f0`: the write deadline when the peer has a
      write timeout, the writes of the requests before the first sentinel up
      to the first failing one, and one flush. The loop is to end when a
      sentinel was seen, a write failed or the flush failed. */
  function SendBatchSpec(batch: Queue, writeTimeout: int, writeErrs: set<nat>, flushErrs: set<nat>,
                         w0: nat, f0: nat): BatchResult
  {
    var w := WritePrefix(batch);
    var written := WriteAttempts(writeErrs, w0, |w|);
    BatchResult(written, None in batch || FirstWriteFailure(writeErrs, w0, |w|) < |w| || f0 in flushErrs,
                (if writeTimeout != 0 then [SetWriteDeadlineOp] else []) + WriteOps(w[..written]) + [FlushOp])
  }

  /** The body of one send-loop pass on a picked batch: copies the requests
      before the first sentinel, sets the write deadline when the peer has a
      write timeout, writes the copied requests in order until a write fails,
      and flushes once. */
  method SendBatch(stream: PacketStream, peer: PeerBase, batch: Queue) returns (written: nat, exited: bool)
    modifies stream
    ensures var r := SendBatchSpec(batch, peer.connWriteTimeout, stream.writeErrs, stream.flushErrs,
                                   old(stream.writes), old(stream.flushes));
      written == r.written && exited == r.exited && stream.ops == old(stream.ops) + r.ops
    ensures stream.writes == old(stream.writes) + written
    ensures stream.flushes == old(stream.flushes) + 1 && stream.closes == old(stream.closes)
    ensures stream.readCount == old(stream.readCount)
  {
    var writeList, willExit := CollectBatch(batch);
    ghost var w0, f0 := stream.writes, stream.flushes;
    ghost var deadline: seq<StreamOp> := if peer.connWriteTimeout != 0 then [SetWriteDeadlineOp] else [];
    var (_, write) := peer.SocketDeadline();
    if write != 0 {
      stream.SetWriteDeadline();
    }
    assert stream.ops == old(stream.ops) + deadline && stream.writes == w0;
    var failed;
    written, failed := WriteBatch(stream, writeList);
    ghost var writesDone := stream.ops;
    var flushFailed := stream.Flush();
    exited := willExit || failed || flushFailed;
    ghost var r := SendBatchSpec(batch, peer.connWriteTimeout, stream.writeErrs, stream.flushErrs, w0, f0);
    assert written == r.written;
    assert exited == r.exited;
    AppendAssoc(old(stream.ops), deadline, WriteOps(writeList[..written]), [FlushOp]);
  }

  /** Regrouping a four-part concatenation, stated once so that the solver
      does not search for it inside SendBatch. */
  lemma AppendAssoc<T>(a: seq<T>, b: seq<T>, c: seq<T>, d: seq<T>)
    ensures a + b + c + d == a + (b + c + d)
  {
  }

  /** Regrouping the record of a recv pass followed by a send pass that ends
      the loop, stated once so that the solver does not search for it. */
  lemma Regroup<T>(a: seq<T>, b: seq<T>, c: seq<T>, d: seq<T>, e: seq<T>, x: T, y: T)
    ensures a + b + c + (d + e + [x]) + [y] == a + b + c + d + e + [x, y]
  {
  }

  /** Every batch is flushed exactly once, after its writes, whether or not
      it held the sentinel. */
  lemma FlushOncePerBatch(batch: Queue, writeTimeout: int, writeErrs: set<nat>,
                          flushErrs: set<nat>, w0: nat, f0: nat)
    ensures var r := SendBatchSpec(batch, writeTimeout, writeErrs, flushErrs, w0, f0);
      |r.ops| > 0 && r.ops[|r.ops| - 1] == FlushOp && multiset(r.ops)[FlushOp] == 1
  {
  }

  /** The writes of a batch are the requests at its head, in queue order,
      each of them before the first sentinel; the write deadline (if any)
      comes first and the flush last. */
  lemma {:induction false} WritesInQueueOrder(batch: Queue, writeTimeout: int, writeErrs: set<nat>,
                                             flushErrs: set<nat>, w0: nat, f0: nat)
    ensures var r := SendBatchSpec(batch, writeTimeout, writeErrs, flushErrs, w0, f0);
      var d := if writeTimeout != 0 then 1 else 0;
      && r.written <= |batch|
      && |r.ops| == d + r.written + 1
      && (writeTimeout != 0 ==> r.ops[0] == SetWriteDeadlineOp)
      && r.ops[|r.ops| - 1] == FlushOp
      && forall i :: 0 <= i < r.written ==>
           batch[i].Some? && r.ops[d + i] == WriteOp(batch[i].value.msgId, batch[i].value.data)
  {
    var r := SendBatchSpec(batch, writeTimeout, writeErrs, flushErrs, w0, f0);
    var d := if writeTimeout != 0 then 1 else 0;
    var deadline: seq<StreamOp> := if writeTimeout != 0 then [SetWriteDeadlineOp] else [];
    var w := WritePrefix(batch);
    var writes := WriteOps(w[..r.written]);
    assert r.ops == deadline + writes + [FlushOp];
    forall i | 0 <= i < r.written
      ensures batch[i].Some? && r.ops[d + i] == WriteOp(batch[i].value.msgId, batch[i].value.data)
    {
      assert batch[i] == Some(w[i]);
      assert r.ops[d + i] == writes[i];
    }
  }

  /** A failing write stops the batch: when the request at position `k` is
      the first whose write fails, exactly `k + 1` writes are attempted and
      the loop is to end. */
  lemma WriteErrorStops(batch: Queue, writeTimeout: int, writeErrs: set<nat>,
                        flushErrs: set<nat>, w0: nat, f0: nat, k: nat)
    requires k < |batch| && forall j :: 0 <= j <= k ==> batch[j].Some?
    requires w0 + k in writeErrs && forall o :: w0 <= o < w0 + k ==> o !in writeErrs
    ensures var r := SendBatchSpec(batch, writeTimeout, writeErrs, flushErrs, w0, f0);
      r.written == k + 1 && r.exited
  {
  }

  /** The send loop goes on to another batch exactly when the batch held no
      sentinel, none of its writes failed and its flush did not fail. */
  lemma ContinueIff(batch: Queue, writeTimeout: int, writeErrs: set<nat>,
                    flushErrs: set<nat>, w0: nat, f0: nat)
    ensures !SendBatchSpec(batch, writeTimeout, writeErrs, flushErrs, w0, f0).exited
      <==> None !in batch && (forall o :: w0 <= o < w0 + |batch| ==> o !in writeErrs) && f0 !in flushErrs
  {
  }

  /** The one hand-over a recv pass makes when the read returns `next`: the
      frame through the recv loop's chain, or a Closed event with the read's
      error code through the peer's current recv chain. */
  function RecvDelivery(next: ReadOutcome, ses: object, chain: Chain, recvHandler: Chain, reg: Registry): Delivery
  {
    match next
    case ReadOk(msgId, data) => Chained(chain, EventValue(Recv, ses, NoMsg, msgId, data, ResultOK))
    case ReadErr(code) => Chained(recvHandler, SystemErrorValue(ses, Closed, code, reg))
  }

  /** One call of the recv loop's chain on a fresh Recv event bound to `ses`.
      The chain's read handler reads a frame; a frame goes on to the rest of the
      chain, a failure stops the chain. The rest of the chain is not looked
      into: `verdict` is the result it leaves on the event (a decoder that
      rejects the frame, say, leaves a non-OK one). `ok` says whether the
      event's final result is OK. */
  method RecvPass(ses: object, chain: Chain, verdict: Result, stream: PacketStream, peer: PeerBase,
                  reg: Registry, log: ChainLog)
    returns (ok: bool)
    requires ReadHandler.LeadsWithReader(chain) && stream.CanRead()
    modifies stream, log
    ensures ok <==> old(stream.NextRead()).ReadOk? && verdict == ResultOK
    ensures log.entries == old(log.entries) + [RecvDelivery(old(stream.NextRead()), ses, chain, peer.recvHandler, reg)]
    ensures stream.ops == old(stream.ops)
      + (if peer.connReadTimeout != 0 then [SetReadDeadlineOp] else []) + [ReadOp]
    ensures stream.closes == old(stream.closes) && stream.writes == old(stream.writes)
    ensures stream.flushes == old(stream.flushes) && stream.readCount == old(stream.readCount) + 1
  {
    var ev := new SessionEvent(Recv, ses);
    ReadHandler.Call(ev, stream, peer, reg, log);
    if ev.result == ResultOK {
      log.Call(chain, ev);
      ev.result := verdict;
    }
    ok := ev.result == ResultOK;
  }

  function Count(b: bool): int { if b then 1 else 0 }

  /** The session's own fields at one instant. */
  datatype State = State(
    id: int,
    needNotifyWrite: bool,
    sendList: Queue,
    endSync: int,
    running: bool,
    recvStarted: bool,
    recvChain: Chain,
    recvDone: bool,
    sendDone: bool,
    joined: bool,
    onClose: bool,
    onCloseCalls: nat)

  /** A scheduling decision: which goroutine moves next. */
  datatype Step =
    | RecvTurn(verdict: Result)
    | SendTurn
    | JoinTurn
    | Produce(req: SendRequest)
    | CloseTurn

  class SocketSession {
    /** Whether OnClose is set, and how often it has run. */
    var onClose: bool
    var onCloseCalls: nat

    var id: int
    const peer: PeerBase
    const stream: PacketStream
    const log: ChainLog
    const registry: Registry

    /** The join counter (sync.WaitGroup) of the two loops. */
    var endSync: int
    /** Whether the recv loop must still post the sentinel when it ends. */
    var needNotifyWrite: bool
    var sendList: Queue

    /** Goroutine progress: run has started the loops; the recv loop has read
        its chain; each loop has finished; the coordinator has passed its wait. */
    var running: bool
    var recvStarted: bool
    var recvChain: Chain
    var recvDone: bool
    var sendDone: bool
    var joined: bool

    function Current(): State
      reads this
    {
      State(id, needNotifyWrite, sendList, endSync, running, recvStarted, recvChain,
            recvDone, sendDone, joined, onClose, onCloseCalls)
    }

    /** The shutdown protocol's invariant. The counter is 2 minus the loops
        done; the notify flag is cleared exactly when the send loop is done; the
        stream is closed once, by the send loop; a recv loop that is done while
        the send loop is not has left a sentinel for it; the close callback
        has run at most once, and only after the join. */
    ghost predicate Valid()
      reads this, stream
    {
      && (!running ==> endSync == 0 && !recvStarted && !recvDone && !sendDone && !joined)
      && (running ==> endSync == 2 - Count(recvDone) - Count(sendDone))
      && (needNotifyWrite <==> !sendDone)
      && stream.closes == Count(sendDone)
      && (recvDone && !sendDone ==> None in sendList)
      && (joined ==> recvDone && sendDone)
      && onCloseCalls <= Count(joined)
      && (recvStarted ==> ReadHandler.LeadsWithReader(recvChain))
    }

    /** newSession: the notify flag set, an empty queue, and the peer's frame
        limit applied when the stream is the TLV stream. */
    constructor (stream: PacketStream, peer: PeerBase, log: ChainLog, registry: Registry)
      requires stream.closes == 0
      modifies stream
      ensures Valid()
      ensures this.stream == stream && this.peer == peer && this.log == log && this.registry == registry
      ensures Current() == State(0, true, [], 0, false, false, [], false, false, false, false, 0)
      ensures stream.maxPacketSize == if stream.kind == TLVStream then peer.maxPacketSize else old(stream.maxPacketSize)
      ensures stream.ops == old(stream.ops) && stream.closes == 0
    {
      this.stream := stream;
      this.peer := peer;
      this.log := log;
      this.registry := registry;
      id := 0;
      needNotifyWrite := true;
      sendList := [];
      endSync := 0;
      onClose, onCloseCalls := false, 0;
      running, recvStarted, recvChain := false, false, [];
      recvDone, sendDone, joined := false, false, false;
      new;
      if stream.kind == TLVStream {
        stream.SetMaxPacketSize(peer.MaxPacketSize());
      }
    }

    function ID(): int
      reads this
    {
      id
    }

    function FromPeer(): PeerBase
    {
      peer
    }

    /** Sets or clears OnClose. */
    method SetOnClose(on: bool)
      requires Valid()
      modifies this
      ensures Valid() && Current() == old(Current()).(onClose := on)
    {
      onClose := on;
    }

    /** Close: exactly one sentinel at the tail of the queue, nothing else. */
    method Close()
      requires Valid()
      modifies this
      ensures Valid()
      ensures Current() == old(Current()).(sendList := old(sendList) + [None])
    {
      sendList := sendList + [None];
    }

    /** What the send chain's last handler does with an encoded message: add
        it at the tail of the queue. */
    method QueueSend(req: SendRequest)
      requires Valid()
      modifies this
      ensures Valid()
      ensures Current() == old(Current()).(sendList := old(sendList) + [Some(req)])
    {
      sendList := sendList + [Some(req)];
    }

    /** RawSend: the event, bound to this session, through the given send
        chain, or the peer's when none is given. */
    method RawSend(sendHandler: Option<Chain>, ev: SessionEvent)
      modifies ev, log
      ensures ev.Value() == old(ev.Value()).(ses := this)
      ensures log.entries == old(log.entries)
        + [Chained(if sendHandler.None? then peer.sendHandler else sendHandler.value, ev.Value())]
    {
      var chain: Chain;
      if sendHandler.None? {
        var (_, send) := peer.HandlerList();
        chain := send;
      } else {
        chain := sendHandler.value;
      }
      ev.ses := this;
      log.Call(chain, ev);
    }

    /** RawPost: the event, bound to this session, through the given recv
        chain, or the peer's when none is given. */
    method RawPost(recvHandler: Option<Chain>, ev: SessionEvent)
      modifies ev, log
      ensures ev.Value() == old(ev.Value()).(ses := this)
      ensures log.entries == old(log.entries)
        + [Chained(if recvHandler.None? then peer.recvHandler else recvHandler.value, ev.Value())]
    {
      var chain: Chain;
      if recvHandler.None? {
        var (recv, _) := peer.HandlerList();
        chain := recv;
      } else {
        chain := recvHandler.value;
      }
      ev.ses := this;
      log.Call(chain, ev);
    }

    /** Send: a fresh Send event carrying the message, through the peer's
        send chain. */
    method Send(data: int)
      modifies log
      ensures log.entries == old(log.entries)
        + [Chained(peer.sendHandler, EventValue(Events.Send, this, User(data), 0, [], ResultOK))]
    {
      var ev := new SessionEvent(Events.Send, this);
      ev.msg := User(data);
      RawSend(None, ev);
    }

    /** Post: a fresh Post event carrying the message, into the peer's event
        queue. */
    method Post(data: int)
      modifies log
      ensures log.entries == old(log.entries)
        + [Queued(EventValue(Events.Post, this, User(data), 0, [], ResultOK))]
    {
      var ev := new SessionEvent(Events.Post, this);
      ev.msg := User(data);
      log.Post(ev);
    }

    /** run: both loops are to be awaited; the loops and the coordinator start. */
    method Run()
      requires Valid() && !running
      modifies this
      ensures Valid() && running && endSync == 2
      ensures Current() == old(Current()).(running := true, endSync := 2)
    {
      endSync := endSync + 2;
      running := true;
    }

    /** One pass of the recv loop: a fresh Recv event bound to this session
        goes through the recv chain, whose read handler reads one frame. A
        frame goes on to the rest of the chain, which leaves `verdict` as the
        event's result. A non-OK result at the end of the chain (a failed read,
        or a handler that rejected the frame) ends the loop, which then posts
        the sentinel if the send loop has not begun to exit, and counts itself
        done. */
    method RecvStep(verdict: Result)
      requires Valid() && running && !recvDone && stream.CanRead()
      requires !recvStarted ==> ReadHandler.LeadsWithReader(peer.recvHandler)
      modifies this, stream, log
      ensures Valid()
      ensures recvChain == if old(recvStarted) then old(recvChain) else old(peer.recvHandler)
      ensures recvDone <==> old(stream.NextRead()).ReadErr? || verdict != ResultOK
      ensures old(stream.closes) > 0 ==> recvDone
      ensures stream.ops == old(stream.ops)
        + (if peer.connReadTimeout != 0 then [SetReadDeadlineOp] else []) + [ReadOp]
      ensures stream.writes == old(stream.writes) && stream.flushes == old(stream.flushes)
      ensures stream.readCount == old(stream.readCount) + 1
      ensures log.entries == old(log.entries)
        + [RecvDelivery(old(stream.NextRead()), this, recvChain, peer.recvHandler, registry)]
      ensures Current() == old(Current()).(recvStarted := true, recvChain := recvChain,
                                           recvDone := recvDone,
                                           endSync := old(endSync) - Count(recvDone),
                                           sendList := old(sendList)
                                             + (if recvDone && old(needNotifyWrite) then [None] else []))
    {
      if !recvStarted {
        var (recv, _) := peer.HandlerList();
        recvChain := recv;
        recvStarted := true;
      }
      var ok := RecvPass(this, recvChain, verdict, stream, peer, registry, log);
      if !ok {
        EndRecvLoop();
      }
    }

    /** What the recv loop does once it leaves its loop: posts the sentinel if
        the send loop has not begun to exit, and counts itself done. */
    method EndRecvLoop()
      requires Valid() && running && !recvDone
      modifies this
      ensures Valid() && recvDone
      ensures Current() == old(Current()).(recvDone := true, endSync := old(endSync) - 1,
                                           sendList := old(sendList) + (if old(needNotifyWrite) then [None] else []))
    {
      if needNotifyWrite {
        Close();
      }
      endSync := endSync - 1;
      recvDone := true;
    }

    /** One pass of the send loop: takes the whole queue as a batch and
        processes it (SendBatch). A sentinel, a failed write or a failed flush
        ends the loop, which then clears the notify flag, closes the stream and
        counts itself done. `written` is the number of writes attempted. */
    method SendStep() returns (written: nat, exited: bool)
      requires Valid() && running && !sendDone && sendList != []
      modifies this, stream
      ensures Valid()
      ensures var r := SendBatchSpec(old(sendList), peer.connWriteTimeout, stream.writeErrs, stream.flushErrs,
                                     old(stream.writes), old(stream.flushes));
        && written == r.written && exited == r.exited
        && stream.ops == old(stream.ops) + r.ops + (if exited then [CloseOp] else [])
      ensures stream.writes == old(stream.writes) + written
      ensures stream.flushes == old(stream.flushes) + 1 && stream.readCount == old(stream.readCount)
      ensures Current() == old(Current()).(sendList := [], sendDone := exited,
                                           needNotifyWrite := !exited,
                                           endSync := old(endSync) - Count(exited))
    {
      var packetList := sendList;
      sendList := [];
      written, exited := SendBatch(stream, peer, packetList);
      if exited {
        needNotifyWrite := false;
        stream.Close();
        endSync := endSync - 1;
        sendDone := true;
      }
    }

    /** The coordinator: once the counter is zero, runs OnClose if it is set. */
    method Join()
      requires Valid() && running && !joined && endSync == 0
      modifies this
      ensures Valid() && joined && recvDone && sendDone
      ensures onCloseCalls == Count(onClose) && onCloseCalls <= 1
      ensures Current() == old(Current()).(joined := true, onCloseCalls := Count(onClose))
    {
      joined := true;
      if onClose {
        onCloseCalls := onCloseCalls + 1;
      }
    }

    /** The shutdown the recv side starts, on a session whose send loop is
        idle: a read fails, or the chain rejects a frame. The recv loop ends
        and leaves the sentinel, the send loop takes it, writes the queued
        requests up to the first failing write, flushes, closes the stream and
        ends, and the coordinator runs OnClose (if set) once. */
    method ShutdownFromRecv(verdict: Result) returns (written: nat)
      requires Valid() && running && !recvDone && !sendDone && !joined
      requires None !in sendList && stream.CanRead()
      requires !recvStarted ==> ReadHandler.LeadsWithReader(peer.recvHandler)
      requires stream.NextRead().ReadErr? || verdict != ResultOK
      modifies this, stream, log
      ensures Valid() && recvDone && sendDone && joined && !needNotifyWrite
      ensures endSync == 0 && stream.closes == 1 && sendList == []
      ensures onCloseCalls == Count(onClose)
      ensures written == WriteAttempts(stream.writeErrs, old(stream.writes), |old(sendList)|)
      ensures written <= |old(sendList)| && stream.writes == old(stream.writes) + written
      ensures stream.ops == old(stream.ops)
        + (if peer.connReadTimeout != 0 then [SetReadDeadlineOp] else []) + [ReadOp]
        + (if peer.connWriteTimeout != 0 then [SetWriteDeadlineOp] else [])
        + WriteOps(WritePrefix(old(sendList))[..written]) + [FlushOp, CloseOp]
    {
      ghost var queued, ops0 := sendList, stream.ops;
      RecvStep(verdict);
      ghost var ops1 := stream.ops;
      assert sendList == queued + [None];
      WritePrefixAppend(queued, [None]);
      assert WritePrefix([None]) == [];
      assert WritePrefix(sendList) == WritePrefix(queued);
      var exited;
      written, exited := SendStep();
      ContinueIff(queued + [None], peer.connWriteTimeout, stream.writeErrs, stream.flushErrs,
                  old(stream.writes), old(stream.flushes));
      Regroup(ops0, if peer.connReadTimeout != 0 then [SetReadDeadlineOp] else [], [ReadOp],
              if peer.connWriteTimeout != 0 then [SetWriteDeadlineOp] else [],
              WriteOps(WritePrefix(queued)[..written]), FlushOp, CloseOp);
      Join();
    }

    /** The shutdown the send side starts: a batch ends the send loop (a
        failed write, a failed flush, or a sentinel). The loop closes the
        stream, so the recv loop's next read fails whatever the chain would
        do; the recv loop reports a Closed event carrying the closed stream's
        code, ends without posting a sentinel, and the coordinator runs
        OnClose (if set) once. */
    method ShutdownFromSend(verdict: Result)
      requires Valid() && running && !recvDone && !sendDone && !joined && sendList != []
      requires !recvStarted ==> ReadHandler.LeadsWithReader(peer.recvHandler)
      requires SendBatchSpec(sendList, peer.connWriteTimeout, stream.writeErrs, stream.flushErrs,
                             stream.writes, stream.flushes).exited
      modifies this, stream, log
      ensures Valid() && recvDone && sendDone && joined && !needNotifyWrite
      ensures endSync == 0 && stream.closes == 1 && sendList == []
      ensures onCloseCalls == Count(onClose)
      ensures log.entries == old(log.entries)
        + [Chained(peer.recvHandler, SystemErrorValue(this, Closed, stream.closedErr, registry))]
    {
      var _, _ := SendStep();
      RecvStep(verdict);
      Join();
    }

    /** Once either loop has ended, the session cannot stall: the other loop
        can move (the stream is closed, or the sentinel is queued), or the
        coordinator can. */
    lemma NoStallAfterOneLoopEnds(verdict: Result)
      requires Valid() && running && !joined && (recvDone || sendDone)
      ensures Enabled(RecvTurn(verdict)) || Enabled(SendTurn) || Enabled(JoinTurn)
    {
      if recvDone && !sendDone {
        assert None in sendList;
      }
    }

    /** Whether the goroutine a step names can move now. */
    predicate Enabled(s: Step)
      reads this, stream
    {
      match s
      case RecvTurn(_) => running && !recvDone && stream.CanRead()
      case SendTurn => running && !sendDone && sendList != []
      case JoinTurn => running && !joined && endSync == 0
      case Produce(_) => true
      case CloseTurn => true
    }

    /** A run of the started session under any interleaving: each enabled step
        is taken, a blocked one is skipped. The shutdown invariant holds
        throughout, so OnClose runs at most once and only after both loops. */
    method RunSchedule(steps: seq<Step>)
      requires Valid() && running
      requires ReadHandler.LeadsWithReader(peer.recvHandler)
      modifies this, stream, log
      ensures Valid() && running
      ensures onCloseCalls <= 1 && (onCloseCalls == 1 ==> recvDone && sendDone)
    {
      var i := 0;
      while i < |steps|
        invariant 0 <= i <= |steps|
        invariant Valid() && running
      {
        if Enabled(steps[i]) {
          match steps[i]
          case RecvTurn(verdict) => RecvStep(verdict);
          case SendTurn => var _, _ := SendStep();
          case JoinTurn => Join();
          case Produce(req) => QueueSend(req);
          case CloseTurn => Close();
        }
        i := i + 1;
      }
    }
  }
}
