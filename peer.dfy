/** The settings a listener shares with every session it spawns (peerBase):
    name, address, tag, frame limit, socket options, deadlines, the recv and
    send handler chains, and the optional stream generator. */
module Peer {
  import opened Events
  import opened Stream

  /** An application tag: nil or some value. */
  datatype Tag = NoTag | TagValue(v: int)

  /** A socket option call made on a TCP connection. */
  datatype ConnCall = SetReadBuffer(size: int) | SetWriteBuffer(size: int) | SetNoDelay(on: bool)

  /** Every field of a peer at one instant; the setters are specified by
      updates of this record, so that what they leave alone is explicit. */
  datatype Settings = Settings(
    name: string,
    address: string,
    tag: Tag,
    maxPacketSize: int,
    connReadBuffer: int,
    connWriteBuffer: int,
    connNoDelay: bool,
    connReadTimeout: int,
    connWriteTimeout: int,
    recvHandler: Chain,
    sendHandler: Chain,
    streamGen: Option<nat>)

  class PeerBase {
    var name: string
    var address: string
    var tag: Tag
    var maxPacketSize: int
    var connReadBuffer: int
    var connWriteBuffer: int
    var connNoDelay: bool
    /** Deadlines as durations; zero means none. */
    var connReadTimeout: int
    var connWriteTimeout: int
    var recvHandler: Chain
    var sendHandler: Chain
    /** The registered stream generator, by identity. */
    var streamGen: Option<nat>

    function Current(): Settings
      reads this
    {
      Settings(name, address, tag, maxPacketSize, connReadBuffer, connWriteBuffer,
               connNoDelay, connReadTimeout, connWriteTimeout, recvHandler, sendHandler, streamGen)
    }

    /** newPeerBase: both buffer sizes -1 ("leave the system default"), the
        chains the builders made, everything else at its zero value. */
    constructor (recv: Chain, send: Chain)
      ensures Current() == Settings("", "", NoTag, 0, -1, -1, false, 0, 0, recv, send, None)
    {
      name, address, tag, maxPacketSize := "", "", NoTag, 0;
      connWriteBuffer := -1;
      connReadBuffer := -1;
      connNoDelay := false;
      connReadTimeout, connWriteTimeout := 0, 0;
      recvHandler := recv;
      sendHandler := send;
      streamGen := None;
    }

    /** The socket option calls applyConnOption makes, in order, on a
        connection that is (`isTcp`) or is not a TCP connection. */
    function ApplyConnOption(isTcp: bool): (calls: seq<ConnCall>)
      reads this
      ensures !isTcp ==> calls == []
      ensures isTcp ==> |calls| == (if connReadBuffer >= 0 then 1 else 0) + (if connWriteBuffer >= 0 then 1 else 0) + 1
      ensures isTcp ==> calls[|calls| - 1] == SetNoDelay(connNoDelay)
      ensures isTcp && connReadBuffer >= 0 && connWriteBuffer >= 0 ==>
        calls[0].SetReadBuffer? && calls[1].SetWriteBuffer?
      ensures forall n :: SetReadBuffer(n) in calls <==> isTcp && connReadBuffer >= 0 && n == connReadBuffer
      ensures forall n :: SetWriteBuffer(n) in calls <==> isTcp && connWriteBuffer >= 0 && n == connWriteBuffer
      ensures forall b :: SetNoDelay(b) in calls <==> isTcp && b == connNoDelay
    {
      if !isTcp then []
      else
        (if connReadBuffer >= 0 then [SetReadBuffer(connReadBuffer)] else [])
        + (if connWriteBuffer >= 0 then [SetWriteBuffer(connWriteBuffer)] else [])
        + [SetNoDelay(connNoDelay)]
    }

    method SetSocketDeadline(read: int, write: int)
      modifies this
      ensures SocketDeadline() == (read, write)
      ensures Current() == old(Current()).(connReadTimeout := read, connWriteTimeout := write)
    {
      connReadTimeout := read;
      connWriteTimeout := write;
    }

    function SocketDeadline(): (int, int)
      reads this
    {
      (connReadTimeout, connWriteTimeout)
    }

    method SetSocketOption(readBufferSize: int, writeBufferSize: int, noDelay: bool)
      modifies this
      ensures Current() == old(Current()).(connReadBuffer := readBufferSize,
                                           connWriteBuffer := writeBufferSize,
                                           connNoDelay := noDelay)
    {
      connReadBuffer := readBufferSize;
      connWriteBuffer := writeBufferSize;
      connNoDelay := noDelay;
    }

    method SetPacketStreamGenerator(gen: Option<nat>)
      modifies this
      ensures Current() == old(Current()).(streamGen := gen)
    {
      streamGen := gen;
    }

    /** genPacketStream: applies the socket options to the connection, then
        builds the default TLV stream unless a generator is registered, in
        which case the stream is whatever the generator builds (`genKind`). */
    method GenPacketStream(isTcp: bool, genKind: StreamKind) returns (calls: seq<ConnCall>, kind: StreamKind)
      ensures calls == ApplyConnOption(isTcp)
      ensures streamGen == None ==> kind == TLVStream
      ensures streamGen.Some? ==> kind == genKind
    {
      calls := ApplyConnOption(isTcp);
      if streamGen == None {
        kind := TLVStream;
      } else {
        kind := genKind;
      }
    }

    /** The name when there is one, otherwise the address. */
    function NameOrAddress(): (r: string)
      reads this
      ensures name != "" ==> r == name
      ensures name == "" ==> r == address
      ensures r == "" <==> name == "" && address == ""
    {
      if name != "" then name else address
    }

    function Tag(): Tag
      reads this
    {
      tag
    }

    method SetTag(t: Tag)
      modifies this
      ensures Tag() == t
      ensures Current() == old(Current()).(tag := t)
    {
      tag := t;
    }

    function Address(): string
      reads this
    {
      address
    }

    method SetAddress(a: string)
      modifies this
      ensures Address() == a
      ensures Current() == old(Current()).(address := a)
    {
      address := a;
    }

    /** Replaces both chains at once (under the write lock in the source). */
    method SetHandlerList(recv: Chain, send: Chain)
      modifies this
      ensures HandlerList() == (recv, send) && SafeRecvHandler() == recv
      ensures Current() == old(Current()).(recvHandler := recv, sendHandler := send)
    {
      recvHandler := recv;
      sendHandler := send;
    }

    function HandlerList(): (Chain, Chain)
      reads this
    {
      (recvHandler, sendHandler)
    }

    /** The recv chain alone. */
    function SafeRecvHandler(): (r: Chain)
      reads this
      ensures r == HandlerList().0
    {
      recvHandler
    }

    method SetName(n: string)
      modifies this
      ensures Name() == n
      ensures Current() == old(Current()).(name := n)
    {
      name := n;
    }

    function Name(): string
      reads this
    {
      name
    }

    method SetMaxPacketSize(size: int)
      modifies this
      ensures MaxPacketSize() == size
      ensures Current() == old(Current()).(maxPacketSize := size)
    {
      maxPacketSize := size;
    }

    function MaxPacketSize(): int
      reads this
    {
      maxPacketSize
    }
  }
}
