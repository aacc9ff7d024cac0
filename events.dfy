/** The vocabulary the session engine shares with the cellnet package: event
    types, result codes, message payloads, outbound requests, the mutable
    session event, and the handler chains, whose effect is recorded in a
    dispatch log. */
module Events {

  newtype Byte = b: int | 0 <= b < 256

  datatype Option<T> = None | Some(value: T)

  /** A connection-scoped result code; only `ResultOK` means success. */
  type Result = int
  const ResultOK: Result := 0

  /** The code a stream failure maps to: never `ResultOK`. */
  type ErrorCode = r: Result | r != ResultOK witness 1

  datatype EventType =
    | Recv | Send | Post
    | Accepted | Connected
    | Closed | AcceptFailed | ConnectFailed

  /** The message an event carries. `User` stands for an application message,
      the others for the lifecycle messages of the coredef package. */
  datatype Payload =
    | NoMsg
    | User(v: int)
    | SessionAccepted
    | SessionConnected
    | SessionClosed(result: Result)
    | SessionAcceptFailed(result: Result)
    | SessionConnectFailed(result: Result)

  /** A handler of a chain: the shared read handler, or one the model does not
      look inside. */
  datatype Handler = ReadPacket | Opaque(id: nat)

  type Chain = seq<Handler>

  /** One queued outbound message, already encoded by the send chain. */
  datatype SendRequest = SendRequest(msgId: int, data: seq<Byte>)

  /** What an event holds at one instant. */
  datatype EventValue = EventValue(
    kind: EventType,
    ses: object?,
    msg: Payload,
    msgId: int,
    data: seq<Byte>,
    result: Result)

  /** A session event: handlers receive it by reference and update it. */
  class SessionEvent {
    var kind: EventType
    var ses: object?
    var msg: Payload
    var msgId: int
    var data: seq<Byte>
    var result: Result

    /** A fresh event of the given type bound to the given session, every other
        field at its zero value. */
    constructor (kind: EventType, ses: object?)
      ensures Value() == EventValue(kind, ses, NoMsg, 0, [], ResultOK)
    {
      this.kind := kind;
      this.ses := ses;
      msg := NoMsg;
      msgId := 0;
      data := [];
      result := ResultOK;
    }

    function Value(): EventValue
      reads this
    {
      EventValue(kind, ses, msg, msgId, data, result)
    }
  }

  /** One hand-over of an event: through a handler chain, or into the peer's
      serialized event queue. */
  datatype Delivery =
    | Chained(chain: Chain, ev: EventValue)
    | Queued(ev: EventValue)

  /** Everything handed to handler chains and to the event queue, in order. */
  class ChainLog {
    var entries: seq<Delivery>

    constructor ()
      ensures entries == []
    {
      entries := [];
    }

    /** One call of the chain on the event as it is now. */
    method Call(chain: Chain, ev: SessionEvent)
      modifies this
      ensures entries == old(entries) + [Chained(chain, ev.Value())]
    {
      entries := entries + [Chained(chain, ev.Value())];
    }

    /** Hands the event to the peer's event queue. */
    method Post(ev: SessionEvent)
      modifies this
      ensures entries == old(entries) + [Queued(ev.Value())]
    {
      entries := entries + [Queued(ev.Value())];
    }
  }
}
