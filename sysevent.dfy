/** Lifecycle notification: the connected / accepted / closed / accept-failed /
    connect-failed events that the session engine synthesizes and hands to a
    handler chain like ordinary traffic. */
module SysEvent {
  import opened Events

  /** The message registry: the meta ID registered for each message type name. */
  type Registry = map<string, int>

  /** What the registry holds for one message type. */
  datatype Meta = Meta(name: string, id: int)

  const AcceptedName: string := "coredef.SessionAccepted"
  const ConnectedName: string := "coredef.SessionConnected"
  const ClosedName: string := "coredef.SessionClosed"
  const AcceptFailedName: string := "coredef.SessionAcceptFailed"
  const ConnectFailedName: string := "coredef.SessionConnectFailed"

  /** The meta registered under a name, if any. */
  function MetaByName(reg: Registry, name: string): (m: Option<Meta>)
    ensures m.Some? <==> name in reg
    ensures m.Some? ==> m.value == Meta(name, reg[name])
  {
    if name in reg then Some(Meta(name, reg[name])) else None
  }

  /** The type name of a lifecycle message; other messages have none here. */
  function TypeName(p: Payload): string
  {
    match p
    case SessionAccepted => AcceptedName
    case SessionConnected => ConnectedName
    case SessionClosed(_) => ClosedName
    case SessionAcceptFailed(_) => AcceptFailedName
    case SessionConnectFailed(_) => ConnectFailedName
    case _ => ""
  }

  /** The event type a lifecycle message announces. */
  function Announces(p: Payload): Option<EventType>
  {
    match p
    case SessionAccepted => Some(Accepted)
    case SessionConnected => Some(Connected)
    case SessionClosed(_) => Some(Closed)
    case SessionAcceptFailed(_) => Some(AcceptFailed)
    case SessionConnectFailed(_) => Some(ConnectFailed)
    case _ => None
  }

  /** The result code a lifecycle message carries. */
  function CarriedResult(p: Payload): Option<Result>
  {
    match p
    case SessionClosed(r) => Some(r)
    case SessionAcceptFailed(r) => Some(r)
    case SessionConnectFailed(r) => Some(r)
    case _ => None
  }

  /** The empty message of a registered lifecycle type. */
  function EmptyMessage(name: string): Payload
  {
    if name == AcceptedName then SessionAccepted
    else if name == ConnectedName then SessionConnected
    else NoMsg
  }

  predicate IsSystemError(e: EventType)
  {
    e == Closed || e == AcceptFailed || e == ConnectFailed
  }

  /** systemEvent's choice of meta: Accepted and Connected get their message
      type's meta (absent when unregistered); every other type gets none. */
  function SystemEventMeta(e: EventType, reg: Registry): (m: Option<Meta>)
    ensures m.Some? ==> (e == Accepted || e == Connected) && m.value.name in reg
    ensures m.Some? ==> Announces(EmptyMessage(m.value.name)) == Some(e)
    ensures e == Accepted ==> m == MetaByName(reg, AcceptedName)
    ensures e == Connected ==> m == MetaByName(reg, ConnectedName)
  {
    match e
    case Accepted => MetaByName(reg, AcceptedName)
    case Connected => MetaByName(reg, ConnectedName)
    case _ => None
  }

  /** The event systemEvent dispatches. */
  function SystemEventValue(ses: object?, e: EventType, reg: Registry): (v: EventValue)
    ensures v.kind == e && v.ses == ses && v.result == ResultOK && v.data == []
    ensures (e == Accepted && AcceptedName in reg) || (e == Connected && ConnectedName in reg)
            <==> v.msg != NoMsg
    ensures v.msg != NoMsg ==> Announces(v.msg) == Some(e) && v.msgId == reg[TypeName(v.msg)]
    ensures v.msg == NoMsg ==> v.msgId == 0
  {
    var blank := EventValue(e, ses, NoMsg, 0, [], ResultOK);
    match SystemEventMeta(e, reg)
    case None => blank
    case Some(m) => blank.(msg := EmptyMessage(m.name), msgId := m.id)
  }

  /** systemError's switch: the failure message for the event type, carrying
      the result code. Any other type is a fatal error in the source. */
  function SystemErrorPayload(e: EventType, r: Result): (p: Payload)
    requires IsSystemError(e)
    ensures Announces(p) == Some(e) && CarriedResult(p) == Some(r)
  {
    match e
    case Closed => SessionClosed(r)
    case AcceptFailed => SessionAcceptFailed(r)
    case ConnectFailed => SessionConnectFailed(r)
  }

  /** The event systemError dispatches: the failure message, and its meta ID
      when its type is registered. */
  function SystemErrorValue(ses: object?, e: EventType, r: Result, reg: Registry): (v: EventValue)
    requires IsSystemError(e)
    ensures v.kind == e && v.ses == ses && v.result == ResultOK && v.data == []
    ensures Announces(v.msg) == Some(e) && CarriedResult(v.msg) == Some(r)
    ensures v.msgId == if TypeName(v.msg) in reg then reg[TypeName(v.msg)] else 0
  {
    var p := SystemErrorPayload(e, r);
    var m := MetaByName(reg, TypeName(p));
    EventValue(e, ses, p, if m.Some? then m.value.id else 0, [], ResultOK)
  }

  /** The lifecycle message type determines the event type: two payloads
      announcing the same error event differ only in the code they carry. */
  lemma {:induction false} SystemErrorPayloadInjective(e1: EventType, r1: Result, e2: EventType, r2: Result)
    requires IsSystemError(e1) && IsSystemError(e2)
    ensures SystemErrorPayload(e1, r1) == SystemErrorPayload(e2, r2) <==> e1 == e2 && r1 == r2
  {
    var p1, p2 := SystemErrorPayload(e1, r1), SystemErrorPayload(e2, r2);
    if p1 == p2 {
      assert Announces(p1) == Announces(p2);
      assert CarriedResult(p1) == CarriedResult(p2);
    }
  }

  /** FromMeta: a present meta sets the message ID and the empty message of
      its type; an absent one leaves the event as it is. */
  method FromMeta(ev: SessionEvent, meta: Option<Meta>)
    modifies ev
    ensures meta.None? ==> ev.Value() == old(ev.Value())
    ensures meta.Some? ==>
      ev.Value() == old(ev.Value()).(msg := EmptyMessage(meta.value.name), msgId := meta.value.id)
  {
    if meta.Some? {
      ev.msg := EmptyMessage(meta.value.name);
      ev.msgId := meta.value.id;
    }
  }

  /** systemEvent: one fresh lifecycle event, bound to `ses` (possibly nil),
      through the given chain. */
  method SystemEvent(ses: object?, e: EventType, hlist: Chain, reg: Registry, log: ChainLog)
    modifies log
    ensures log.entries == old(log.entries) + [Chained(hlist, SystemEventValue(ses, e, reg))]
  {
    var ev := new SessionEvent(e, ses);
    var meta := SystemEventMeta(e, reg);
    FromMeta(ev, meta);
    log.Call(hlist, ev);
  }

  /** systemError: one fresh failure event carrying `r`, bound to `ses`
      (possibly nil), through the given chain. */
  method SystemError(ses: object?, e: EventType, r: Result, hlist: Chain, reg: Registry, log: ChainLog)
    requires IsSystemError(e)
    modifies log
    ensures log.entries == old(log.entries) + [Chained(hlist, SystemErrorValue(ses, e, r, reg))]
  {
    var ev := new SessionEvent(e, ses);
    ev.msg := SystemErrorPayload(e, r);
    ev.kind := e;
    var meta := MetaByName(reg, TypeName(ev.msg));
    if meta.Some? {
      ev.msgId := meta.value.id;
    }
    log.Call(hlist, ev);
  }
}
