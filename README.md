# socket4kcp session engine, in Dafny

A model of the per-connection session engine of cellnet's `socket4kcp`
package, with proofs about it. It covers four parts:

- **The session** (`SocketSession`, `session.dfy`). Two loops, the recv loop and the send loop, share one
  connection. The recv loop pushes one Recv event at a time through the recv
  handler chain until an event comes out of the chain with a non-OK result:
  a failed read, or a later handler that rejected the frame. The send loop drains the outbound queue in
  batches. It writes the requests that come before the first close sentinel,
  flushes once per batch, and ends on a sentinel, a failed write or a failed
  flush. Ending, it clears `needNotifyWrite` and closes the stream. A
  coordinator waits on a counter that starts at 2 and runs `OnClose` once
  both loops are done.
  - Each goroutine is a step method: `RecvStep`, `SendStep` and `Join`.
  - A step's precondition is that its goroutine can move. Blocking means "not enabled".
  - `RunSchedule` runs any interleaving of steps, including producers that enqueue requests or call `Close`.
  - The shutdown invariant `Valid()` holds across every step.
- **The read handler** (`readhandler.dfy`). It does one read per Recv event.
  - On success it copies the frame's message ID and data into the event.
  - On failure it sets the event's result and dispatches one Closed
    lifecycle event carrying that code through the peer's current recv chain.
- **Lifecycle events** (`sysevent.dfy`). `systemEvent` maps an event type to its meta. `systemError` maps a type to the
  failure payload that carries the result code. Its unknown-type panic is a
  precondition.
- **Peer settings** (`peer.dfy`). The `peerBase` record has setters and getters, the
  `nameOrAddress` fallback, the socket-option decision and the construction
  defaults. Every setter is specified as an update of a `Settings` snapshot,
  so what it leaves unchanged is explicit.

The model replaces several collaborators:
- **The packet stream** (`stream.dfy`) is a scripted oracle: what each read returns and which write and flush calls fail are fixed when the stream is made. Every read, write, flush, close and deadline call is recorded in `ops`; the frame limit is kept in a field of its own.
- **Handler chains** are a dispatch log (`Events.ChainLog`). Each chain call appends the chain and the event's value at that instant.
- **The outbound queue** is a sequence of optional requests, where `None` is the sentinel. A pick takes all of it and clears it.

## Model

| member | source | states |
|---|---|---|
| `Peer.PeerBase.constructor` | socket4kcp/base.go:149-163 | A new peer has both buffer sizes at -1 and the given recv and send chains. Every other setting is at its zero value, and no stream generator is set. |
| `Peer.PeerBase.ApplyConnOption` | socket4kcp/base.go:32-47 | A non-TCP connection gets no calls. A TCP connection gets a read-buffer call iff the read size is >= 0, and the same for the write size; the read-buffer call comes before the write-buffer call. The no-delay call with the configured flag always comes last. |
| `Peer.PeerBase.SetSocketDeadline` | socket4kcp/base.go:49-56 | `SocketDeadline` then returns exactly the pair given. Only the two timeouts change. |
| `Peer.PeerBase.SetSocketOption` | socket4kcp/base.go:58-63 | Only the read-buffer, write-buffer and no-delay settings change. Deadlines, name, address, tag and chains are untouched. |
| `Peer.PeerBase.SetPacketStreamGenerator` | socket4kcp/base.go:65-68 | Only the generator changes. |
| `Peer.PeerBase.GenPacketStream` | socket4kcp/base.go:70-79 | First the socket options are applied. With no generator set the stream is the TLV stream; with one set it is whatever the generator builds, which may itself be a TLV stream. |
| `Peer.PeerBase.NameOrAddress` | socket4kcp/base.go:85-91 | Returns the name when it is non-empty and the address otherwise. The result is empty iff both are. |
| `Peer.PeerBase.SetTag` | socket4kcp/base.go:93-99 | `Tag` then returns the tag given. Nothing else changes. |
| `Peer.PeerBase.SetAddress` | socket4kcp/base.go:101-107 | `Address` then returns the address given. Nothing else changes. |
| `Peer.PeerBase.SetHandlerList` | socket4kcp/base.go:109-123 | `HandlerList` then returns both chains given, and `SafeRecvHandler` returns the recv chain. Nothing else changes. |
| `Peer.PeerBase.SafeRecvHandler` | socket4kcp/base.go:125-131 | Always equals the recv component of `HandlerList`. |
| `Peer.PeerBase.SetName` | socket4kcp/base.go:133-139 | `Name` then returns the name given. Nothing else changes. |
| `Peer.PeerBase.SetMaxPacketSize` | socket4kcp/base.go:141-147 | `MaxPacketSize` then returns the size given. Nothing else changes. |
| `SysEvent.MetaByName` | socket4kcp/sysevent.go:10-13 | The registry lookup by message type name is present iff the name is registered, and then carries that name and its ID. |
| `SysEvent.SystemEventMeta` | socket4kcp/sysevent.go:19-25 | Accepted gets the SessionAccepted meta and Connected the SessionConnected meta. Either is absent when unregistered. Every other type gets no meta and is not an error. |
| `SysEvent.SystemEventValue` | socket4kcp/sysevent.go:15-30 | The event has the requested type, is bound to the given session and has an OK result. It carries a message iff the type is Accepted or Connected and that type is registered. The message announces that type and has its registered ID. Otherwise the ID stays 0. |
| `SysEvent.SystemErrorPayload` | socket4kcp/sysevent.go:36-46 | Defined only for Closed, AcceptFailed and ConnectFailed. The payload announces exactly that type and carries exactly the given result code. |
| `SysEvent.SystemErrorPayloadInjective` | socket4kcp/sysevent.go:37-43 | Two failure payloads are equal iff they were built from the same type and the same code. |
| `SysEvent.SystemErrorValue` | socket4kcp/sysevent.go:32-55 | The event has the requested type and the matching failure payload with the code. Its message ID is the payload type's registered ID when there is one, and stays 0 otherwise. |
| `SysEvent.FromMeta` | socket4kcp/sysevent.go:27 | A present meta sets the message ID and the empty message of its type. An absent meta leaves the event unchanged. |
| `SysEvent.SystemEvent` | socket4kcp/sysevent.go:15-30 | Exactly one event, `SystemEventValue`, goes through the given chain. |
| `SysEvent.SystemError` | socket4kcp/sysevent.go:32-56 | Exactly one event, `SystemErrorValue`, goes through the given chain. |
| `ReadHandler.StaticReadPacketHandler` | socket4kcp/handler_read.go:46-50 | Always returns the one shared read handler. |
| `ReadHandler.Call` | socket4kcp/handler_read.go:11-44 | A non-Recv event is left unchanged, with no read and no dispatch. A Recv event sets the read deadline iff the read timeout is non-zero, then does exactly one read. On success it takes the frame's ID and data, keeps its result, and dispatches nothing. On failure its result becomes the error code, and one Closed event with that code goes through the peer's current recv chain. |
| `Session.WritePrefix` | socket4kcp/session.go:93-101 | The requests of a batch that come before its first sentinel, in queue order. Everything is taken when there is no sentinel. |
| `Session.WritePrefixUnique` | socket4kcp/session.go:93-101 | Any sequence that is the batch's requests up to its first sentinel is that prefix. |
| `Session.WritePrefixAppend` | socket4kcp/session.go:91-101 | A batch with a sentinel hides whatever is queued after it. Without one, the batch is taken whole and what follows is taken after it. |
| `Session.SentinelEndsBatch` | socket4kcp/session.go:35-37 | Requests enqueued and then `Close`, picked in one batch: the batch's write prefix is exactly those requests, in order, whatever is queued after the sentinel. |
| `Session.SentinelBatchWritesAll` | socket4kcp/session.go:91-128 | Requests enqueued and then `Close`, picked in one batch, none of whose writes fails: every request is written in order, after the write deadline if configured, then one flush, and the send loop ends. |
| `Session.CollectBatch` | socket4kcp/session.go:87-101 | The copy loop yields the write prefix. `willExit` is set iff the batch held a sentinel. |
| `Session.FirstWriteFailure` | socket4kcp/session.go:113-120 | The position of the first failing write in a batch, or its length when no write fails. Every write before that position succeeds. |
| `Session.WriteBatch` | socket4kcp/session.go:113-120 | The write loop writes the requests in order up to and including the first failing write, and reports whether a write failed. Nothing else touches the stream. |
| `Session.SendBatch` | socket4kcp/session.go:85-128 | One pass over a batch does what `SendBatchSpec` says: the write deadline if one is configured, then the writes, then one flush. The pass ends on a sentinel, a write error or a flush error. |
| `Session.FlushOncePerBatch` | socket4kcp/session.go:122-128 | Every batch is flushed exactly once, after its writes, including the batch that held the sentinel. |
| `Session.WritesInQueueOrder` | socket4kcp/session.go:91-120 | The writes of a pass are the batch's leading requests, in queue order, all before any sentinel. The deadline comes first and the flush last. |
| `Session.WriteErrorStops` | socket4kcp/session.go:113-119 | When the write at position k is the first to fail, exactly k+1 writes are attempted and the loop ends. |
| `Session.ContinueIff` | socket4kcp/session.go:85-129 | The send loop goes on to another batch iff the batch held no sentinel, no write failed and the flush succeeded. |
| `Session.RecvPass` | socket4kcp/session.go:147-156 | One fresh Recv event bound to the session goes through the recv chain. A frame reaches the rest of the chain, and the pass is OK iff the chain leaves an OK result. A failed read instead dispatches the Closed event and the pass is not OK. |
| `Session.SocketSession.constructor` | socket4kcp/session.go:190-205 | A new session has `needNotifyWrite` set, an empty queue and a zero counter. The peer's frame limit is applied iff the stream is the TLV stream. |
| `Session.SocketSession.SetOnClose` | socket4kcp/session.go:11 | Sets or clears the close callback. Nothing else changes. |
| `Session.SocketSession.Close` | socket4kcp/session.go:35-37 | Appends exactly one sentinel to the queue. Nothing else changes. |
| `Session.SocketSession.QueueSend` | socket4kcp/session.go:24 | An encoded request joins the tail of the queue. Nothing else changes. |
| `Session.SocketSession.Send` | socket4kcp/session.go:39-46 | A fresh Send event carrying the message goes through the peer's send chain, bound to this session. |
| `Session.SocketSession.RawSend` | socket4kcp/session.go:48-57 | The event is bound to the session and goes through the given chain. With no chain given, it goes through the peer's send chain. |
| `Session.SocketSession.Post` | socket4kcp/session.go:59-68 | A fresh Post event carrying the message goes into the peer's event queue. |
| `Session.SocketSession.RawPost` | socket4kcp/session.go:70-78 | The event is bound to the session and goes through the given chain. With no chain given, it goes through the peer's recv chain. |
| `Session.SocketSession.Run` | socket4kcp/session.go:167-188 | The counter becomes 2 and the loops start. The shutdown invariant holds. |
| `Session.SocketSession.RecvStep` | socket4kcp/session.go:143-165 | The recv chain is captured once. Each pass dispatches one fresh Recv event. The loop ends iff the read fails or the chain leaves a non-OK result; ending, it decrements the counter once and enqueues a sentinel iff `needNotifyWrite` is still set. A closed stream always ends the loop. The chain must start with the shared read handler when it is first captured. |
| `Session.SocketSession.EndRecvLoop` | socket4kcp/session.go:159-164 | Leaving its loop, the recv loop enqueues a sentinel iff `needNotifyWrite` is still set and decrements the counter once. Nothing else changes. |
| `Session.SocketSession.SendStep` | socket4kcp/session.go:81-141 | A pass takes the whole queue and does `SendBatchSpec`. On exit it clears `needNotifyWrite`, closes the stream once and decrements the counter once. Otherwise only the queue changes. |
| `Session.SocketSession.Join` | socket4kcp/session.go:172-181 | Enabled only when the counter is zero, so only after both loops are done. `OnClose` runs once if it is set and not at all otherwise. |
| `Session.SocketSession.RunSchedule` | socket4kcp/session.go:167-188 | Under any interleaving of the loops, the coordinator and producers, the shutdown invariant holds. `OnClose` runs at most once, and only after both loops are done. |
| `Session.SocketSession.ShutdownFromRecv` | socket4kcp/session.go:131-181 | After the recv loop ends on an idle session (a failed read or a rejected frame): it leaves the sentinel, and the send loop writes the queued requests in queue order up to and including the first failing write. The stream's record is exactly the read pass, the write deadline if configured, those writes, one flush and one close. Both loops end, and `OnClose` runs once if set. |
| `Session.SocketSession.ShutdownFromSend` | socket4kcp/session.go:131-165 | After a batch ends the send loop (failed write, failed flush or sentinel): the stream is closed once, the recv loop's next read fails and dispatches one Closed event with the closed stream's code, no sentinel is posted, both loops end, and `OnClose` runs once if set. |
| `Session.SocketSession.NoStallAfterOneLoopEnds` | socket4kcp/session.go:131-181 | Once either loop has ended and the coordinator has not run, some step can still move: the other loop (the stream is closed or the sentinel is queued) or the coordinator. |

## Left out

- The acceptor (`socket4kcp/acceptor.go`) and the benchmark (`benchmark/io4kcp/io_test.go`) are not part of this model. They cover network listening, a goroutine per connection, the session manager and timing.
- Real goroutines, `sync.WaitGroup` and the handler lock are replaced by step methods guarded by their enabledness and by an integer counter. Atomicity of a step is assumed.
- Deadline values (`time.Now().Add(...)`) are not modelled. Only whether a deadline is set is recorded.
- The TCP socket calls (`SetReadBuffer`, `SetWriteBuffer`, `SetNoDelay`) are not made. `ApplyConnOption` records which calls would be made.
- The stream generator is kept by identity (a number). The kind of stream it builds is a parameter of `GenPacketStream`, not computed from the connection.
- The TLV codec, the `eventList` queue implementation, `HandlerChainCall`, `BuildRecvHandler`, `BuildSendHandler`, `errToResult`, `NewSessionEvent`, cellnet's own `SessionEvent.FromMeta`, the message meta reflection lookups, `MsgLog` and the event queue behind `Post` are not part of this model. They are treated as follows:
  - A stream error is already a non-OK result code.
  - A new event has the given type and session, and every other field at its zero value.
  - `SysEvent.FromMeta` is the assumed effect of cellnet's `FromMeta`: it sets the ID and the empty message of a present meta.
  - The registry is a map from type name to ID.
- `Session.RecvPass`: the recv chain is required to start with the shared read handler (`ReadHandler.LeadsWithReader`) and is taken to stop at a non-OK result; the handlers after it are not looked into, and the result they leave on the event is a parameter (`verdict`). The chain builder is not shown.
- `ReadHandler.Call`: the source asserts that the event's session is a socket session (`ev.Ses.(*SocketSession)`) and panics when it is not; the model is given that session's stream and peer directly, so that failure cannot occur here.
- `Session.SocketSession.QueueSend`: the send chain's encoding handler is not shown. The model enqueues an already encoded request.
- `Session.SocketSession.Send`: the message is an integer standing for any application message. The event's own send chain is taken to be unset, so the peer's chain is used.
- `Session.SocketSession.Post`: message logging (`MsgLog`) is not modelled.
- `Session.SocketSession.constructor`: the session ID is not assigned here (the session manager does that); it starts at 0 and, being part of the `State` snapshot, no step changes it.
- `SocketSession.ID` and `SocketSession.FromPeer` (`socket4kcp/session.go:27-33`) are plain field reads with no contract of their own.
- The `Queue()` getter and the embedded dispatcher of `peerBase` (`socket4kcp/base.go:81-83`) are not part of this model. They belong to the event queue.
- The getters `SocketDeadline`, `Tag`, `Address`, `HandlerList`, `Name` and `MaxPacketSize` are plain field reads. Their round trips are stated on the setters.
- `ReadHandler.StaticReadPacketHandler`: pointer identity of the shared instance is modelled as one constant value.
