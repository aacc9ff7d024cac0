/** The handler of a recv chain that pulls one frame from the session's
    stream per Recv event (ReadPacketHandler). */
module ReadHandler {
  import opened Events
  import opened Stream
  import opened Peer
  import opened SysEvent

  /** The one instance every recv chain shares. */
  const DefaultReadPacketHandler: Handler := ReadPacket

  /** Always the shared instance. */
  function StaticReadPacketHandler(): (h: Handler)
    ensures h == DefaultReadPacketHandler && h.ReadPacket?
  {
    DefaultReadPacketHandler
  }

  /** A recv chain whose first handler is the shared read handler, so that
      every Recv event it carries is read into before anything else sees it. */
  predicate LeadsWithReader(chain: Chain)
  {
    |chain| > 0 && chain[0] == StaticReadPacketHandler()
  }

  /** ReadPacketHandler.Call on `ev`. The session the event is bound to is
      given by its stream and its peer. Events other than Recv pass through
      untouched. A Recv event sets the read deadline when the peer has a read
      timeout, reads one frame, and either takes the frame's message ID and
      data, or takes the error's code as its result and has a Closed event with
      that code dispatched through the peer's current recv chain. */
  method Call(ev: SessionEvent, stream: PacketStream, peer: PeerBase, reg: Registry, log: ChainLog)
    requires ev.kind == Recv ==> stream.CanRead()
    modifies ev, stream, log
    ensures ev.kind == old(ev.kind)
    ensures old(ev.kind) != Recv ==>
      ev.Value() == old(ev.Value()) && stream.ops == old(stream.ops)
      && stream.readCount == old(stream.readCount) && log.entries == old(log.entries)
    ensures old(ev.kind) == Recv ==>
      && stream.ops == old(stream.ops) + (if peer.connReadTimeout != 0 then [SetReadDeadlineOp] else []) + [ReadOp]
      && stream.readCount == old(stream.readCount) + 1
    ensures old(ev.kind) == Recv && old(stream.NextRead()).ReadOk? ==>
      var r := old(stream.NextRead());
      && ev.Value() == old(ev.Value()).(msgId := r.msgId, data := r.data)
      && log.entries == old(log.entries)
    ensures old(ev.kind) == Recv && old(stream.NextRead()).ReadErr? ==>
      var c := old(stream.NextRead()).code;
      && ev.Value() == old(ev.Value()).(result := c)
      && log.entries == old(log.entries) + [Chained(peer.recvHandler, SystemErrorValue(ev.ses, Closed, c, reg))]
    ensures stream.writes == old(stream.writes) && stream.flushes == old(stream.flushes)
    ensures stream.closes == old(stream.closes) && stream.maxPacketSize == old(stream.maxPacketSize)
  {
    if ev.kind == Recv {
      var (read, _) := peer.SocketDeadline();
      if read != 0 {
        stream.SetReadDeadline();
      }
      var r := stream.Read();
      match r
      case ReadErr(code) =>
        var (recv, _) := peer.HandlerList();
        ev.result := code;
        SystemError(ev.ses, Closed, ev.result, recv, reg, log);
      case ReadOk(msgId, data) =>
        ev.msgId := msgId;
        ev.data := data;
    }
  }
}
