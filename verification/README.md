# Verified model of the tunnel protocol and its control plane

tuzy gives a local app a public name: an agent on the developer's machine keeps one WebSocket to the
edge, and the edge relays visitor requests over it. This project models the parts of that system
where many things happen at once, and proves what they promise over every run. Check it with
`dafny verify dfyconfig.toml` (Dafny 4.11).

## What is modelled

Each subject is a state machine whose atomic steps are the code's own: one critical section in the
agent, one stretch without `await` at the edge, one D1 batch. `Run(steps)` is the state after any list of steps
(a step that is not enabled changes nothing), so a theorem about `Run(steps)` is about every
interleaving. Beside each machine the mutable objects of the code appear as classes; their methods
are proved to change the object exactly as the machine's functions say, and where a decision is taken
their contracts give its condition in plain terms. The delivery theorems say the other half: when
nothing of a listed kind happens, requests, responses and conversations arrive whole.

| subject | files |
|---|---|
| Request bodies, edge to agent: credit on stream and connection, queues, feeders, teardown, hibernation | RequestFlow, RequestFlowSafety, RequestFlowEnds, RequestFlowBooks, RequestFlowTheorems, RequestFlowDelivery, RequestFlowObjects |
| Response bodies, agent to edge, and the life of an edge stream | ResponseFlow, ResponseFlowSafety, ResponseFlowInvariant, ResponseFlowLife, ResponseFlowTheorems, ResponseFlowDelivery, ResponseFlowStarvation, ResponseFlowObjects |
| Admission of agent sockets racing D1, the outbox and control calls | ControlPlane, ControlPlaneSafety, ControlPlaneTheorems, ControlPlaneObjects |
| Stream ids and the limit on streams of a socket | VisitorAdmission |
| Name, hold and account tables, and the client that follows rename hints | NameTables, NameTablesSafety, NameTablesVerdicts, NameTablesObjects |
| Visitor WebSocket relay with message credit and hibernation, and the way back | WsRelay, WsRelaySafety, WsRelayDelivery, WsRelayObjects, WsReturn |
| Inspector store and recorders | InspectorStore, InspectorSafety, InspectorCapture, InspectorObjects |
| Frame codec, in Go and in TypeScript | FrameCodec |
| Login codes | LoginCodes, LoginCodesSafety, LoginCodesObjects |
| Waiting for credit | CreditWait, CreditWaitObjects |
| Constants, finite sums and sets, WINDOW frames | Prelude |

## What the proofs found

- A send cancelled after `acquire` never returns its credit (internal/tunnel/session.go:569-575).
  In the agent to edge direction the conserved sum is the window less those bytes, and the window
  itself if and only if no send was cancelled with bytes in hand (`ConnectionCreditConserved`).
  128 cancelled sends of full chunks, with nothing left open or on its way, leave a connection on
  which no response body can ever be sent again (`CancelledSendsStarveTheConnection`).
- Hibernation restores the send credit stored when the last stream ended. A connection WINDOW that
  arrives later is forgotten (edge/src/tunnel-object.ts:573-574): `HibernationLosesCredit` is a run,
  and credit is lost exactly by hibernating after such a WINDOW. In the other direction hibernation
  forgets nothing (`HibernationForgetsNothing`).
- When the response ends first, the edge sends REQ_END although the visitor's body may be cut short
  (edge/src/protocol/http-stream.ts:272-284), so the app's end of file need not mean the whole body
  (`AnswerCutsBody`). It does if all of the body had been sent at that moment, it does not if some
  had not been taken, and with the last chunk in hand it depends on whether that chunk, which follows
  its REQ_END, overtakes the feeder (`EndOfFileAfterAnswer`, `LateChunkMayGoEitherWay`).
- A control call for a generation the object has not adopted returns before bumping `controlSeq`
  (edge/src/tunnel-object.ts:883). If a connect for that very generation has already read D1, it
  still gets in afterwards and stays. `GoawayWins` and `SuspensionWins` give the exact condition,
  `GoawayCanLose` and `SuspensionCanLose` runs that lose.
- `blockName` promotes a default for the owner it read before its batch
  (edge/src/lib/moderation.ts:127). `BlockKeepsDefaultsExactlyWhen` says when a stale read leaves a
  user with names but without a default, and `StaleBlockLosesDefault` reaches such tables.

## Model

| member | source | states |
|---|---|---|
| `RequestFlowTheorems.ConnectionCreditConserved` | internal/tunnel/session.go:606-631 | edge to agent, after every run: send credit, acquired bytes, socket bytes, bytes held by reader, queues and feeders, coalesced credit and WINDOW frames in flight never exceed the connection window, and equal it if and only if no hibernation of the run came after a connection WINDOW that arrived since the attachment was last written |
| `RequestFlowTheorems.OnlyForgettingLoses` | edge/src/tunnel-object.ts:202-209 | hibernation is the only step that loses connection credit, and it does exactly when a connection WINDOW has arrived since the last stream ended |
| `RequestFlowTheorems.HibernationLosesCredit` | edge/src/tunnel-object.ts:573-574 | a concrete run of ten steps after which hibernation has lost a byte of connection credit |
| `RequestFlowTheorems.StreamCreditConserved` | edge/src/protocol/http-stream.ts:248-270 | per stream the same places never hold more than the stream window, and exactly it while the stream is live at the edge and the agent still takes its data |
| `RequestFlowTheorems.NoCheckFires` | internal/tunnel/http_stream.go:64-96 | no interleaving of pumps, reader, feeders and teardown makes the queue overflow, a window exceed MAX_WINDOW, a WINDOW grant nothing or a REQ_HEAD id arrive out of order; every queue stays within the stream window |
| `RequestFlowTheorems.ResetsOnlyRefusedHeads` | internal/tunnel/session.go:462-475 | the reader sends RESET at most once a stream and only for a REQ_HEAD it refused, never for a stream it accepted |
| `RequestFlowTheorems.FullWindowAtRest` | internal/tunnel/http_stream.go:110-125 | exactly-once return: with no stream registered, no feeder left, nothing on the way and the flushes done, the edge has its connection window back less what hibernation forgot, which is all of it exactly if it never forgot any |
| `RequestFlowBooks.EveryByteIsOwedOnce` | internal/tunnel/http_stream.go:64-125 | exactly-once return at the agent against any edge: whatever frames arrive and however reader, feeders, teardown and writer interleave, what reader and feeders owe, what is coalesced and all connection credit ever granted add up to the body bytes dispatched, on all six ways a byte can take |
| `RequestFlowBooks.EveryByteIsGranted` | internal/tunnel/session.go:516-524 | with no stream registered, no feeder left and every flush done, all of the dispatched bytes have been granted |
| `RequestFlowBooks.BodyBooks` | internal/tunnel/session.go:452-460 | one REQ_BODY, queued, late, over the window, for no stream or for a ws stream, takes exactly its length into the books |
| `RequestFlowBooks.OverWindowBodyIsOwed` | internal/tunnel/http_stream.go:72-78 | a concrete run with one chunk more than the stream window: the stream is reset and cancelled and the chunk is owed by the reader |
| `RequestFlowBooks.WsBodyIsOwed` | internal/tunnel/ws_stream.go:110-111 | a concrete run in which a body for a ws stream is owed by the reader |
| `RequestFlowTheorems.StalledStreamsStarveNobody` | internal/tunnel/session.go:608-621 | no credit deadlock: if only k streams still hold data and no hibernation forgot credit, connection credit exceeds (6-k) MiB and every other joined stream has more than 3/4 of its window |
| `RequestFlowTheorems.RestoredCreditIsSafe` | edge/src/tunnel-object.ts:739-745 | the send credit restored from the attachment after hibernation never exceeds the true one, and is all of it exactly when no connection WINDOW has arrived since it was written |
| `RequestFlowTheorems.AppReadsVisitorBody` | internal/tunnel/http_stream.go:126-166 | the local app reads a prefix of the visitor body; at a clean end it has read everything sent ahead of REQ_END, and perhaps the one chunk in hand then, whether or not the response has ended |
| `RequestFlowTheorems.WholeBodyAfterOwnEnd` | edge/src/protocol/http-stream.ts:247-276 | REQ_END from the own end of the pump: in every continuation an end of file means the whole body |
| `RequestFlowTheorems.EndOfFileAfterAnswer` | edge/src/protocol/http-stream.ts:272-284 | REQ_END because the response ended: in every continuation an end of file means the whole body if all of it had been sent, never if some had not been taken, and with a chunk in hand exactly the body with or without that chunk |
| `RequestFlowTheorems.AnswerCutsBody` | edge/src/protocol/http-stream.ts:279-284 | a concrete run in which the app sees an end of file without having read the body |
| `RequestFlowTheorems.LateChunkMayGoEitherWay` | edge/src/protocol/http-stream.ts:259-261 | concrete runs from one state with a chunk in hand at RES_END: in one the app misses it, in the other it reads the whole body |
| `RequestFlowEnds.RunEnds` | internal/tunnel/http_stream.go:72-102 | what REQ_END and the one chunk that may follow it leave on the socket and in the queue, after every run |
| `RequestFlowTheorems.EarlyReqEndMeansWholeBody` | edge/src/protocol/http-stream.ts:252-276 | REQ_END sent before RES_END implies the whole visitor body has been sent |
| `RequestFlowDelivery.WholeRequestIsDelivered` | internal/tunnel/http_stream.go:126-166 | a request that nothing cuts short (no early answer or finish, no RESET, refused head, cancellation or removal, an app that keeps reading): once its REQ_END was sent and read, the feeder may end as soon as its queue is empty, and whenever it has ended, the app has read the whole body and then end of file |
| `RequestFlowDelivery.ResetStopsTheStream` | internal/tunnel/http_stream.go:94-95 | a RESET that reaches the head of the socket cancels its stream in every continuation, and its feeder may end its loop between any two chunks without an end of file |
| `RequestFlowDelivery.PumpTakes` | edge/src/protocol/http-stream.ts:258-260 | with both credits positive the pump takes the least of what it wants, a frame, the rest of the body and the two credits, and pays it on both |
| `RequestFlowDelivery.PumpSpeaks` | edge/src/protocol/http-stream.ts:272-314 | what the edge puts on the socket: the chunk in hand, REQ_END once the body is out or the response has ended and it was not sent, RESET when a stream finishes with one |
| `RequestFlowDelivery.SleepVerdict` | edge/src/tunnel-object.ts:202-209 | the send credit is saved exactly when the last stream finishes, and an idle object wakes up with what was saved, or a full window |
| `RequestFlowSafety.RunKeeps` | internal/tunnel/session.go:431-524 | the invariant behind these results (shapes, ids, saved credit, connection sum, per-stream credit and byte order) holds after every run of every step |
| `RequestFlowSafety.GrantChunkLaw` | internal/tunnel/http_stream.go:155-165 | granting a consumed chunk moves exactly its length out of the feeder on both the connection and the stream, whether coalesced or flushed |
| `RequestFlowObjects.Session.Dispatch` | internal/tunnel/session.go:431-502 | the whole new session state for each frame: a REQ_HEAD above the high-water mark opens a stream or is refused with RESET, a REQ_BODY is queued within 1 MiB while its feeder runs and else owed, over the window it resets and cancels; REQ_END and RESET mark, and cancel, exactly a registered stream |
| `RequestFlowObjects.Session.GrantConn` | internal/tunnel/session.go:608-621 | coalesces below a quarter window, flushes at once there or when idle, and truncates to 32 bits as the encoder does |
| `RequestFlowObjects.Session.FlushConn` | internal/tunnel/session.go:623-631 | nothing stays coalesced, and the connection gets exactly that much in WINDOW frames while no stream grant changes |
| `RequestFlowObjects.Session.RemoveStream` | internal/tunnel/session.go:516-524 | data of the removed stream, and of no other, is owed at once from now on; an idle session always owes a flush |
| `RequestFlowObjects.Session.TakeChunk` | internal/tunnel/http_stream.go:127-134 | taking the oldest chunk changes neither the order of the content nor what is owed, and keeps the feeder consistent |
| `RequestFlowObjects.Session.WriteChunk` | internal/tunnel/http_stream.go:149-158 | the chunk leaves the queue count whether the app read it or not; the app gets what it read of it and nothing after it stopped reading |
| `RequestFlowObjects.Session.GrantConsumed` | internal/tunnel/http_stream.go:159-164 | connection credit per chunk; stream credit is coalesced below 256 KiB and else sent whole |
| `RequestFlowObjects.Session.FeedChunk` | internal/tunnel/http_stream.go:126-165 | one turn of the feed loop keeps queued plus coalesced plus granted credit constant and the content in order |
| `RequestFlowObjects.Session.Feed` | internal/tunnel/http_stream.go:98-166 | the feed loop from start to end with data arriving before any turn: everything is taken in order, each byte comes back as connection credit exactly once, and the app sees end of file exactly on a clean end it still reads |
| `ResponseFlowTheorems.ConnectionCreditConserved` | internal/tunnel/session.go:563-586 | agent to edge, after every run: the same sum equals the window less the credit of cancelled sends, and exactly the window if and only if no send of the run was cancelled with acquired bytes in hand |
| `ResponseFlowTheorems.OnlyDroppingLoses` | internal/tunnel/session.go:569-575 | a cancelled send loses exactly the acquired bytes in hand, and no other step loses any |
| `ResponseFlowTheorems.CancellationLosesCredit` | internal/tunnel/session.go:569-575 | a concrete run in which a send cancelled after acquire loses a byte of connection credit |
| `ResponseFlowTheorems.StreamCreditConserved` | edge/src/protocol/http-stream.ts:219-228 | per stream never more than the window, and exactly it while both ends work on it |
| `ResponseFlowTheorems.NoCheckFires` | edge/src/protocol/http-stream.ts:177-199 | neither the receive window of the connection, nor the flow_control check, nor MAX_WINDOW ever fires against a conforming agent |
| `ResponseFlowTheorems.FullWindowAtRest` | edge/src/tunnel-object.ts:175-209 | with every stream done, every write settled and nothing on the way, the agent has its window back less cancelled sends, which is all of it exactly if no send was cancelled with bytes in hand |
| `ResponseFlowTheorems.StalledVisitorsStarveNobody` | edge/src/protocol/http-stream.ts:209-228 | if only k visitors still owe writes, the agent keeps more than (6-k) MiB, less what its cancelled sends lost, and every other open stream more than 3/4 of its window |
| `ResponseFlowTheorems.HibernationForgetsNothing` | edge/src/tunnel-object.ts:155-209 | whenever the object can hibernate its receive window and its coalesced credit are both zero, so forgetting them changes nothing |
| `ResponseFlowStarvation.CancelledSendsStarveTheConnection` | internal/tunnel/session.go:569-575 | there is a run after which nothing is open, pending or on its way and yet the agent has no connection credit, and then no acquire succeeds in any continuation |
| `ResponseFlowStarvation.StarvedForGood` | internal/tunnel/flow.go:45-72 | once cancelled sends have lost the whole window, connection credit stays zero and no acquire succeeds in any continuation |
| `ResponseFlowTheorems.VisitorReadsLocalBody` | edge/src/protocol/http-stream.ts:177-245 | for every interleaving the visitor receives a prefix of the local body; a clean close means all of it and the declared length |
| `ResponseFlowDelivery.WholeBodyIsDelivered` | edge/src/protocol/http-stream.ts:145-245 | a response that nothing cuts short (a request that is no HEAD and reached the agent, a valid head 200 to 599 other than 204, 205 and 304 with no length or the right one, every write and the close good, no effective reset): the stream is done only with the whole body received and closed, and it is once the agent has sent its end, the edge has read it and the write chain is at rest |
| `ResponseFlowLife.OneHeadOneEnd` | edge/src/protocol/http-stream.ts:91-121 | against any agent, whatever frames it sends in whatever order, with timers, aborts, settling writes and agent loss in between: exactly one response head and one onDone per finished stream, at most one REQ_END and one RESET, no REQ_END after the RESET, and a REQ_END whenever an HTTP response has ended |
| `ResponseFlowLife.ViolationsEndTheStream` | edge/src/protocol/http-stream.ts:124-199 | a repeated or invalid head or one outside 200 to 599 (101 on ws excepted), a body before the head, beyond 1 MiB held or longer than declared, an early or repeated end: each finishes an open stream at once with one RESET and one head, and no other frame does but a 101 head |
| `ResponseFlowLife.RunLives` | edge/src/protocol/http-stream.ts:230-245 | the life of every stream stays in order after every run against any agent |
| `ResponseFlowLife.DoneIsFinal` | edge/src/protocol/http-stream.ts:293-314 | what a stream has shown is never taken back, and after onDone nothing more is shown, whatever the agent still sends |
| `ResponseFlowLife.JobEndVerdict` | edge/src/protocol/http-stream.ts:209-244 | a settled write gives the visitor its bytes or ends the stream with RESET; a settled close is clean exactly when it succeeds at the declared length, and ends the stream either way |
| `ResponseFlowLife.LossVerdict` | edge/src/tunnel-object.ts:781-793 | a body frame beyond 8 MiB held, and nothing smaller, loses the agent; then every open stream ends with a page if it had no head and without RESET, and the books start from zero |
| `ResponseFlowTheorems.ConformingRunsAreLived` | edge/src/tunnel-object.ts:566-589 | every run with the conforming agent of the credit theorems is, to the edge, one of these runs |
| `ResponseFlowInvariant.RunKeeps` | edge/src/protocol/http-stream.ts:124-138 | the invariant behind these results holds after every run |
| `ResponseFlowInvariant.FrameEffect` | edge/src/tunnel-object.ts:566-589 | any frame from the agent moves exactly its body bytes from the socket into the books of the connection and, while open, of the stream |
| `ResponseFlowSafety.ConsumedLaw` | edge/src/protocol/http-stream.ts:219-228 | consumed bytes are returned once: to the connection always, to the stream only while it is open |
| `ResponseFlowSafety.TooLongEffect` | edge/src/protocol/http-stream.ts:201-208 | a body longer than declared resets the stream and still returns its credit |
| `ResponseFlowSafety.StartEffect` | edge/src/protocol/http-stream.ts:209-216 | the write chain drops the data of a finished stream but returns its credit |
| `ResponseFlowSafety.SettleWriteEffect` | edge/src/protocol/http-stream.ts:209-216 | a settled write, good or failed, returns its credit exactly once |
| `ResponseFlowSafety.SettleCloseEffect` | edge/src/protocol/http-stream.ts:235-244 | a settled close finishes the stream or resets it, and holds no credit |
| `ResponseFlowSafety.HeadKeepsHttp` | edge/src/protocol/http-stream.ts:145-175 | every response head, valid or not, keeps the life of the stream consistent |
| `ResponseFlowInvariant.StartLaw` | edge/src/protocol/http-stream.ts:91-121 | start, undeliverable start and start of an aborted request each leave the books balanced |
| `ResponseFlowObjects.AgentConn.NoStreams` | edge/src/tunnel-object.ts:179 | decides by a loop whether any stream is still open |
| `ResponseFlowObjects.AgentConn.FlushConn` | edge/src/tunnel-object.ts:182-192 | the receive window gives back what the WINDOW grants, never below zero |
| `ResponseFlowObjects.AgentConn.GrantConn` | edge/src/tunnel-object.ts:175-180 | coalesces below 2 MiB while some stream is open, else one WINDOW with all of it |
| `ResponseFlowObjects.AgentConn.Received` | edge/src/protocol/flow.ts:95-98 | fails exactly when the bytes streams hold, the coalesced ones and the new ones together exceed the window; else the new ones are owed |
| `ResponseFlowObjects.AgentConn.Finish` | edge/src/protocol/http-stream.ts:308-314 | an open stream is done and says so once; the last stream flushes the connection |
| `ResponseFlowObjects.AgentConn.Reset` | edge/src/protocol/http-stream.ts:293-305 | an open stream is done, with RESET exactly if the agent must know and a page exactly if no head was given; a done one does not change |
| `ResponseFlowObjects.AgentConn.Consumed` | edge/src/protocol/http-stream.ts:219-228 | consumed bytes leave the stream; while it is open their credit is coalesced below 256 KiB and else sent whole |
| `ResponseFlowObjects.AgentConn.OnResHead` | edge/src/protocol/http-stream.ts:145-175 | a repeated or invalid head resets; 101 ends the stream; for an open stream without a head and a valid one of 200 to 599, a writer is opened exactly if the request is no HEAD and the status none of 204, 205, 304, and then the expected length is the declared one |
| `ResponseFlowObjects.AgentConn.OnResBody` | edge/src/protocol/http-stream.ts:177-216 | bytes are queued for the visitor exactly when the head was given, the response has not ended, 1 MiB is not exceeded, there is a writer and the declared length is kept; early, excessive and too long ones reset, the rest are dropped |
| `ResponseFlowObjects.AgentConn.OnResEnd` | edge/src/protocol/http-stream.ts:230-245 | after the head and once, the close is queued and REQ_END sent if it was not; else a reset |
| `ResponseFlowObjects.AgentConn.AgentGone` | edge/src/tunnel-object.ts:781-793 | ends every open stream once, with a page if no head was given and without RESET, whatever the order, and keeps no credit |
| `ControlPlaneTheorems.GoawayWins` | edge/src/tunnel-object.ts:877-890 | after a goaway for a generation is delivered no socket of it is OPEN in any continuation, if and only if the object held that generation (or none) or no fresh connect had read it |
| `ControlPlaneTheorems.GoawayCanLose` | edge/src/tunnel-object.ts:882-884 | a concrete run in which a goaway for a generation the object never adopted is ignored and that generation then goes online |
| `ControlPlaneTheorems.RevokeUserWins` | edge/src/tunnel-object.ts:922-933 | after a revokeUser delivered while the user is suspended or deleted, no socket of the user is or becomes OPEN until a reinstatement |
| `ControlPlaneTheorems.SuspensionWins` | edge/src/tunnel-object.ts:892-899 | after a delivered suspension no socket of the generation is OPEN once no setSuspended is under way, until the name is reinstated; with the exact condition under which that holds |
| `ControlPlaneTheorems.SuspensionCanLose` | edge/src/tunnel-object.ts:892-893 | a concrete run in which a suspension of a generation the object never adopted is ignored and that generation then goes online |
| `ControlPlaneTheorems.RevocationHasNoGap` | edge/src/api/connect.ts:82-105 | for every interleaving of accepting, recordSession, revocation and outbox delivery: when all have finished no OPEN socket carries a revoked token, and every OPEN one is recorded |
| `ControlPlaneTheorems.OneLiveAgent` | edge/src/tunnel-object.ts:331-351 | every OPEN agent socket carries the generation of the object, and all but the latest epoch drain |
| `ControlPlaneTheorems.LiveAgentIsNotEvicted` | edge/src/tunnel-object.ts:346-351 | without force a live agent of another instance is never replaced |
| `ControlPlaneTheorems.AcceptedAgentServesAlone` | edge/src/tunnel-object.ts:353-378 | an accepted agent is the only OPEN socket that does not drain, under the next epoch and the generation D1 gave |
| `ControlPlaneTheorems.ConnectVerdict` | edge/src/tunnel-object.ts:302-358 | an answered connect is admitted, under the next epoch, if and only if no control call came since it asked, the object is not suspended or held another generation, and every OPEN agent of the generation that does not drain is the same instance, dead, or evicted by force; a refused one changes nothing |
| `ControlPlaneTheorems.AdmissionCloses` | edge/src/tunnel-object.ts:316-350 | an admission leaves an OPEN socket open exactly if it is of the same generation and either not the latest OPEN one or a draining one of another instance that still answers |
| `ControlPlaneTheorems.ReinstatedNameServes` | edge/src/tunnel-object.ts:892-899 | once a lifted suspension was delivered, a connect with force of the active owner that asks, reads D1 and finishes with no call in between is admitted |
| `ControlPlaneTheorems.DeliveryVerdict` | edge/src/tunnel-object.ts:882-933 | each delivered call closes exactly the sockets it is about, sets the flag it carries, and bumps the sequence number unless it is a token revocation; for a stale generation it does nothing |
| `ControlPlaneTheorems.ChangesAreAnnounced` | edge/src/lib/name-repo.ts:176-236 | no batch lets a name go, suspends or reinstates it, suspends its owner, revokes a recorded token or deletes its user without enqueuing the row that tells the object, and rows leave only when delivered |
| `ControlPlaneTheorems.ReadVerdict` | edge/src/lib/name-repo.ts:273-296 | a connect reads the generation of the name exactly when its user owns it and both are active, and is refused otherwise |
| `ControlPlaneTheorems.SuspendedMeansClosed` | edge/src/tunnel-object.ts:892-899 | a suspended object has no OPEN agent socket once every setSuspended completed |
| `ControlPlaneTheorems.EpochsNeverReused` | edge/src/tunnel-object.ts:353-358 | epochs strictly increase over any continuation and a socket keeps its identity and stays closed once closed |
| `ControlPlaneSafety.RunKeeps` | edge/src/tunnel-object.ts:284-393 | the invariant of object, generations, captured sequence numbers and tokens holds after every run |
| `ControlPlaneSafety.AcceptKeeps` | edge/src/tunnel-object.ts:331-393 | the replace rules admit at most one socket that does not drain, under a fresh epoch |
| `ControlPlaneSafety.StoreTokens` | edge/src/api/token-routes.ts:83-96 | every D1 batch that revokes leaves a pending row, or a pending recordSession, for each open socket of a revoked token |
| `ControlPlaneSafety.RecordStep` | edge/src/api/connect.ts:92-105 | the guarded insert of recordSession either records the token or leads to its direct revocation |
| `ControlPlaneSafety.DeliverStep` | edge/src/lib/outbox.ts:36-63 | delivering a row in any order and any number of times keeps the invariant, and a finished row has closed its sockets |
| `ControlPlaneObjects.TunnelObject.CurrentAgent` | edge/src/tunnel-object.ts:720-728 | the loop finds the OPEN socket of the latest epoch |
| `ControlPlaneObjects.TunnelObject.CloseEach` | edge/src/tunnel-object.ts:886-889 | the loop closes exactly the sockets an operation is about |
| `ControlPlaneObjects.TunnelObject.AdoptGen` | edge/src/tunnel-object.ts:316-329 | exactly the sockets of other generations are closed, the suspension is lifted |
| `ControlPlaneObjects.TunnelObject.AcceptAgent` | edge/src/tunnel-object.ts:331-393 | accepts if and only if not suspended and every OPEN agent that does not drain is the same instance, dead, or evicted by force; the accepted socket is OPEN under the next epoch |
| `ControlPlaneObjects.TunnelObject.FinishConnect` | edge/src/tunnel-object.ts:300-309 | discarded if a control call came between, else adopt and accept, keeping the invariant |
| `ControlPlaneObjects.TunnelObject.Goaway` | edge/src/tunnel-object.ts:882-890 | no effect on a stale generation, else bump and nothing stays OPEN |
| `ControlPlaneObjects.TunnelObject.SetSuspendedFlag` | edge/src/tunnel-object.ts:892-896 | keeps the invariant of the object; every connect that asked before is discarded; once suspended no agent is accepted, once lifted a fresh connect with force is |
| `ControlPlaneObjects.TunnelObject.SuspendedStored` | edge/src/tunnel-object.ts:897-898 | the part after it closes everything |
| `ControlPlaneObjects.TunnelObject.RevokeToken` | edge/src/tunnel-object.ts:908-919 | closes exactly the OPEN sockets of the token, without a bump |
| `ControlPlaneObjects.TunnelObject.RevokeUser` | edge/src/tunnel-object.ts:922-933 | bumps the sequence and closes exactly the OPEN sockets of the user |
| `VisitorAdmission.HeadsNeverRejected` | edge/src/tunnel-object.ts:428-435 | the ids of all heads ever sent strictly increase across refused heads and hibernation and stay within 32 bits; what the agent has accepted followed by what is on the socket is exactly that sequence, and nothing is rejected |
| `VisitorAdmission.StreamsWithinLimit` | edge/src/tunnel-object.ts:426 | HTTP streams and visitor sockets of an epoch never exceed 128 and share no id |
| `VisitorAdmission.AgentSocket.ForwardVisitor` | edge/src/tunnel-object.ts:419-456 | which refusal a visitor gets: offline, draining, busy at 128, ids used up, head too large; else the next id, persisted before anything else can fail, and a head sent exactly if it is delivered |
| `NameTablesSafety.TablesStayConsistent` | edge/src/lib/name-repo.ts:99-264 | after every run of reserve, rename, remove, default, block, release, admin reserve, suspension and deletion: a user with names has exactly one default, no reserved name has an active hold, at most 20 active holds per live user |
| `NameTablesSafety.BlockKeepsDefaultsExactlyWhen` | edge/src/lib/moderation.ts:125-151 | with an owner read outside the batch, blocking keeps one default per user exactly when the read named the current owner or nothing depended on it |
| `NameTablesSafety.StaleBlockLosesDefault` | edge/src/lib/moderation.ts:127 | concrete reachable tables where an owner read that was true when made has gone stale, and blocking leaves a user with a name and no default |
| `NameTablesSafety.HintsNeverChain` | edge/src/lib/name-repo.ts:163-197 | whatever was renamed before, the name a hint leads to never answers with another hint |
| `NameTablesSafety.NewNamesRespectHolds` | edge/src/lib/name-repo.ts:104-111 | a name is only ever given to an active user against nobody else's active hold (an admin excepted), and reserving stays within the quota |
| `NameTablesSafety.RenameHints` | edge/src/lib/name-repo.ts:174-194 | a rename re-points older hints and consumes the own hold, so no hint of the user leads to a hint |
| `NameTablesSafety.PromotedDefaults` | edge/src/lib/name-repo.ts:238-245 | promoting the oldest name restores exactly one default after a removal |
| `NameTablesSafety.RunKeeps` | edge/src/lib/moderation.ts:53-186 | the table invariant holds after every run |
| `NameTablesVerdicts.ConnectVerdict` | edge/src/lib/name-repo.ts:273-296 | the owner of an active name in good standing is granted its generation, otherwise refused; a former owner is told where the name went, or that it was removed, while the hold lasts; nobody else learns anything |
| `NameTablesVerdicts.RenameVerdict` | edge/src/lib/name-repo.ts:147-208 | a rename goes through if and only if the name is active, the own and unchanged since it was read, the user active, the target free and not held against the user, and fewer than 20 other holds; then the old name and every hint that led to it answer with the new name, which is granted under a fresh generation, and nobody else is told |
| `NameTablesVerdicts.ReserveVerdict` | edge/src/lib/name-repo.ts:99-129 | a name is given if and only if it is free, not held against an active user below quota; the row, the default, the fresh generation and the hold used up |
| `NameTablesVerdicts.RemoveVerdict` | edge/src/lib/name-repo.ts:214-249 | a removal takes exactly the named row and leaves a hold of a year, or none at the cap, and connecting then answers accordingly |
| `NameTablesVerdicts.ReservationsLast` | edge/src/lib/name-repo.ts:99-264 | a reservation ends or changes owner, generation, status or age only by the rename or removal of its owner, the deletion of the owner, a block or a suspension |
| `NameTablesVerdicts.HoldsLast` | edge/src/lib/name-repo.ts:99-264 | an unexpired hold ends only when its owner takes the name back or an admin releases, gives away or blocks it |
| `NameTablesObjects.NameRepo.Reserve` | edge/src/lib/name-repo.ts:99-129 | the gated statements amount to one atomic reserve; held, over quota or inactive, taken, changed, in that order of precedence |
| `NameTablesObjects.NameRepo.RenameBatch` | edge/src/lib/name-repo.ts:160-199 | every statement gated on the fresh generation acts exactly when the UPDATE did |
| `NameTablesObjects.NameRepo.Rename` | edge/src/lib/name-repo.ts:147-208 | the reads, the batch and the classification: which of eight outcomes a rename has, condition by condition |
| `NameTablesObjects.NameRepo.RepointHints` | edge/src/lib/name-repo.ts:187-194 | the loop changes exactly the hints of this user on the old name |
| `NameTablesObjects.NameRepo.Promote` | edge/src/lib/name-repo.ts:239-245 | the loop makes the first name of the user by age, then by name, the default exactly when the user has names and none is; else nothing changes |
| `NameTablesObjects.NameRepo.Remove` | edge/src/lib/name-repo.ts:214-249 | hold, deletion gated on it, promotion; not found, suspended or changed exactly by owner and status |
| `NameTablesObjects.NameRepo.SetDefault` | edge/src/lib/name-repo.ts:252-264 | the named one is the default of its owner and no other of the own names is; nobody else touched |
| `NameTablesObjects.NameRepo.CountHolds` | edge/src/lib/name-repo.ts:78-84 | counts the active holds of a user except one name |
| `NameTablesObjects.NameRepo.ConsumeHold` | edge/src/lib/name-repo.ts:114-120 | deletes only an own hold and only if this call wrote the row |
| `NameTablesObjects.NameRepo.HoldNames` | edge/src/api/account-routes.ts:57-64 | every name of the deleted user is held a year, suspended ones for nobody |
| `NameTablesObjects.NameRepo.DropNames` | edge/src/api/account-routes.ts:65 | deletes exactly the rows of the user |
| `NameTablesObjects.NameRepo.DeleteAccount` | edge/src/api/account-routes.ts:42-66 | the name part of the delete batch: all names of the user go, each held a year, suspended ones for nobody; a no-op unless this call deleted the account |
| `NameTablesObjects.NameRepo.Block` | edge/src/lib/moderation.ts:125-148 | exactly the one reservation removed, seen owner promoted, name held for nobody for a century |
| `NameTablesObjects.Client.Settle` | internal/tunnel/client.go:219-231 | facing unchanging tables the reconnect loop follows at most one hint and never exhausts its budget of three |
| `WsRelaySafety.RelayIsQueue` | edge/src/tunnel-object.ts:620-668 | until a visitor closes, frames sent followed by buffered messages equal messages received; a buffer means all eight credits are in use and is marked in the attachment |
| `WsRelaySafety.BuffersFitBudget` | edge/src/tunnel-object.ts:636-642 | the running byte count equals the sum of all buffers and stays within 8 MiB |
| `WsRelaySafety.ToleranceNeverFires` | internal/tunnel/ws_stream.go:74-91 | the agent never has more than 8 unacknowledged messages, so its tolerance of 16 is never used up |
| `WsRelaySafety.AppReadsInOrder` | internal/tunnel/ws_stream.go:184-232 | the local app receives a prefix of what the visitor sent, in order |
| `WsRelaySafety.WakingLosesNothingSilently` | edge/src/tunnel-object.ts:264-268 | after hibernation every visitor is closed or had everything it sent passed on |
| `WsRelaySafety.MessageKeeps` | edge/src/tunnel-object.ts:620-649 | the relay invariant survives every message: one on an open visitor is received or the visitor is closed |
| `WsRelaySafety.AckKeeps` | edge/src/tunnel-object.ts:651-668 | an ACK frees credit and lets exactly as many buffered messages go, oldest first |
| `WsRelaySafety.RunKeeps` | edge/src/tunnel-object.ts:620-710 | the relay invariant holds after every run |
| `WsRelayDelivery.MessageVerdict` | edge/src/tunnel-object.ts:620-649 | an open visitor is closed by its message if and only if it exceeds 1 MiB, or cannot be sent on at once (8 unacknowledged or earlier ones waiting) and 8 wait already or all buffers would exceed 8 MiB; else it is received and is the last message sent, or the last one waiting |
| `WsRelayDelivery.WakeVerdict` | edge/src/tunnel-object.ts:264-268 | waking closes an open visitor, and tells the agent, exactly if it had messages waiting; every other visitor is untouched |
| `WsRelayDelivery.WholeConversationIsDelivered` | internal/tunnel/ws_stream.go:184-232 | while no message is refused, no side closes, no local write fails and the object does not sleep on waiting messages, the visitor stays open and what the app has, what the agent holds, what is on its way and what waits are, in order, all it sent; with channels empty and the agent done, the app has everything and nothing waits |
| `WsRelayObjects.VisitorSockets.OnVisitorMessage` | edge/src/tunnel-object.ts:620-649 | closes an open visitor exactly if its agent socket is gone, the message exceeds 1 MiB, or it can neither be sent on nor buffered within 8 messages and 8 MiB; else sent on, or buffered last and marked; the relay invariant of the edge is kept |
| `WsRelayObjects.VisitorSockets.OnAckFrame` | edge/src/tunnel-object.ts:651-668 | the drain loop frees the acknowledged credit and releases the oldest waiting messages until none waits or eight are unacknowledged |
| `WsRelayObjects.VisitorSockets.DropBuffer` | edge/src/tunnel-object.ts:707-710 | the loop takes exactly the sizes of the dropped messages off the total |
| `WsRelayObjects.VisitorSockets.FailVisitor` | edge/src/tunnel-object.ts:698-705 | closes, drops the buffer and tells the agent |
| `WsRelayObjects.VisitorSockets.CloseStream` | edge/src/tunnel-object.ts:684-696 | agent close, ignored when already closed |
| `WsRelayObjects.VisitorSockets.OnVisitorClosed` | edge/src/tunnel-object.ts:489-496 | visitor close, ignored when already closed |
| `WsRelayObjects.VisitorSockets.WakeUp` | edge/src/tunnel-object.ts:264-268 | the constructor loop closes exactly the visitors whose buffer was lost |
| `WsRelayObjects.LocalStream.OnFrame` | internal/tunnel/ws_stream.go:75-104 | a message is queued exactly if the stream runs and fewer than 16 are unacknowledged; else it is marked as dropped and closes the stream |
| `WsRelayObjects.LocalStream.PumpEdge` | internal/tunnel/ws_stream.go:184-232 | with frames arriving before any turn, the loop delivers exactly a prefix of what was queued, one acknowledgement each; the first failure or an earlier close drops the rest, and otherwise every message is delivered |
| `WsReturn.ReturnStaysInCredit` | internal/tunnel/flow.go:84-108 | local app to visitor, after every run: messages on their way plus those whose ACK is on its way never exceed 8 a stream, no ACK is in excess, and no credit leaks while both ends live |
| `WsReturn.VisitorReadsInOrder` | internal/tunnel/ws_stream.go:256-283 | the visitor receives a prefix of what the local app wrote, in order; while both ends live nothing between the two is missing |
| `WsReturn.ReturnNeverStalls` | edge/src/tunnel-object.ts:670-681 | a message waits for credit only while another of its stream is on its way or an ACK is coming back |
| `WsReturn.OnlyClosesEnd` | edge/src/tunnel-object.ts:670-696 | a visitor socket goes only by its own close or the WS_CLOSE of the agent, a source only by its context, a message is dropped only in hand, and credit is given exactly below 8 |
| `WsReturn.RunKeeps` | edge/src/tunnel-object.ts:670-681 | the credit and order invariant of this direction holds after every run |
| `InspectorSafety.StoreAgreesWithSum` | internal/inspector/store.go:182-258 | after every run order lists exactly the stored ids in increasing order, at most 500, total is the plain sum, and it fits 64 MiB or no body is left |
| `InspectorSafety.EvictBodiesPrefix` | internal/inspector/store.go:246-257 | byte eviction takes a prefix of the order, the last body only because the total was still too large |
| `InspectorSafety.EvictOldKeeps` | internal/inspector/store.go:239-245 | entry eviction drops exactly the oldest beyond the limit of 500 |
| `InspectorSafety.EvictionIsPermanent` | internal/inspector/capture.go:104-109 | an evicted body never comes back |
| `InspectorSafety.UnflaggedCaptureIsExact` | internal/inspector/capture.go:71-116 | if no body hook was late, a finished entry neither truncated nor evicted holds exactly the bytes it was given, chunks dropped under contention included in the flag |
| `InspectorCapture.UncontendedCapture` | internal/inspector/capture.go:71-116 | a side whose hooks never found the store busy holds exactly the first 1048576 bytes of what they were given, as long as its entry keeps its bodies, and is marked truncated exactly if there was more |
| `InspectorCapture.FlagsReachTheStore` | internal/inspector/capture.go:91-100 | a flag raised for a dropped chunk is in the entry when the stream ends |
| `InspectorSafety.RunKeeps` | internal/inspector/capture.go:91-171 | the store and recorder invariant holds after every run |
| `InspectorObjects.RecordStore.EvictLocked` | internal/inspector/store.go:238-258 | the two eviction loops, restoring both limits, and doing nothing within 500 entries and 64 MiB |
| `InspectorObjects.RecordStore.AddEntry` | internal/inspector/store.go:182-194 | a fresh id at the end of the order |
| `InspectorObjects.RecordStore.ReplaceEntry` | internal/inspector/store.go:199-234 | the running total follows the change of one entry |
| `InspectorObjects.RecordStore.ClearAll` | internal/inspector/store.go:342-347 | empties the store |
| `FrameCodec.DecodeEncoded` | internal/protocol/frames.go:132-202 | decoding an encoded frame succeeds exactly for well-formed frames (the rules of section 2.2 of PROTOCOL.md one by one) and gives the frame back |
| `FrameCodec.EncodeDecoded` | internal/protocol/frames.go:132-181 | re-encoding any accepted message gives the same bytes |
| `FrameCodec.CreditRoundTrip` | internal/protocol/frames.go:214-218 | a credit frame carries its value through, zero being malformed |
| `FrameCodec.DecodersAgree` | edge/src/protocol/frames.ts:95-152 | Go and TypeScript decoders give the same frame, or the same error kind, stream and close code, on every byte string |
| `FrameCodec.RefusalVerdict` | internal/protocol/frames.go:132-181 | what becomes of every message that is not well formed: a stream error with 1009 for a WebSocket message over 1 MiB, with 1007 for a text that is not UTF-8, else malformed |
| `FrameCodec.Encode` | internal/protocol/frames.go:196-202 | the buffer filled in place is type, big-endian id and payload |
| `FrameCodec.PutWord` | edge/src/protocol/frames.ts:155-160 | writes the four octets of a word, most significant first, and nothing else |
| `LoginCodesSafety.IssuingStaysInCaps` | edge/src/api/login-codes.ts:42-63 | over whole runs, whatever order timestamps arrive in: at most 5 and 10 codes per mailbox in every sliding hour and day, 30 per prefix in every sliding day, the budget per UTC day |
| `LoginCodesSafety.IssuedWhileRoomIsLeft` | edge/src/api/login-codes.ts:42-63 | a code is issued if and only if the whole run has sent fewer than 5 codes to the mailbox in the last hour, 10 in the last day, 30 to the prefix in the last day, and less than the budget that UTC day |
| `LoginCodesSafety.FewGuessesOneToken` | edge/src/api/login-codes.ts:131-168 | under any interleaving of verifies a code is compared at most five times and mints at most one token |
| `LoginCodesSafety.TokenNeedsSecret` | edge/src/api/auth-routes.ts:48-70 | a token is minted only for an active account and an unconsumed login code of its address, which it consumes, and only after a login request of the run that carried the secret of the code less than 600 seconds after it was created |
| `LoginCodesSafety.RightGuessLogsIn` | edge/src/api/login-codes.ts:131-145 | and a request with the secret of an unconsumed login code younger than 600 seconds with an attempt left gets its one token, and uses up every login code of the address |
| `LoginCodesSafety.OthersVerdict` | edge/src/api/login-codes.ts:147-159 | after a miss, exactly the latest codes with an attempt left but the named one are tried, each attempt counted first |
| `LoginCodesSafety.RunKeeps` | edge/src/scheduled.ts:60-64 | the invariant survives issuing, verifying and the retention sweep |
| `LoginCodesObjects.CodeTables.CountMailbox` | edge/src/api/login-codes.ts:50-51 | counts the codes of a mailbox younger than a time |
| `LoginCodesObjects.CodeTables.CountPrefix` | edge/src/api/login-codes.ts:52 | counts the codes of a network prefix younger than a time |
| `LoginCodesObjects.CodeTables.ReserveCodeSlot` | edge/src/api/login-codes.ts:42-63 | inserts the code with its budget row if and only if fewer than 5, 10 and 30 codes of the windows are in the table and the budget of the day is not used up; else nothing |
| `LoginCodesObjects.CodeTables.CountAttempt` | edge/src/api/login-codes.ts:136-142 | counts an attempt if and only if the code exists, is of the purpose, unconsumed, younger than 600 seconds and has fewer than 5 attempts; before any comparison |
| `LoginCodesObjects.CodeTables.LatestCodes` | edge/src/api/login-codes.ts:150-152 | selects the three latest usable codes of the address, and all of them if there are fewer |
| `LoginCodesObjects.CodeTables.TryOthers` | edge/src/api/login-codes.ts:147-159 | an attempt on each of the latest codes but the named one; a code with an attempt left is tried unless three at least as new were |
| `LoginCodesObjects.CodeTables.VerifyCode` | edge/src/api/login-codes.ts:131-160 | the named code, if unexpired, unconsumed, of the purpose and with an attempt left, always matches its own secret; only such a code of the same address ever matches, its attempt just counted; a miss means the guess is wrong for it and for every other such code but one with three at least as new; at most four comparisons |
| `LoginCodesObjects.CodeTables.MintToken` | edge/src/api/auth-routes.ts:48-70 | a token exactly for the call that finds the matched code unconsumed and the account active; afterwards that code and all login codes of the address are consumed, and no other |
| `LoginCodesObjects.CodeTables.ConsumeCodes` | edge/src/api/login-codes.ts:171-173 | exactly the login codes of the address are used up |
| `CreditWait.NoLostWakeUp` | internal/tunnel/flow.go:45-72 | a parked waiter lacks credit on one side or one of its captured signals has fired, and then its next try succeeds |
| `CreditWait.AcquireTakesFromBoth` | edge/src/protocol/flow.ts:56-84 | a try succeeds if and only if both credits are positive, with the least of what is wanted and the two, taken from both; else it parks and takes nothing |
| `CreditWait.SharedCreditIsSpentOnce` | internal/tunnel/flow.go:49-56 | with any number of acquires racing: what is left of the connection credit and what each acquire took add up to what was given, and likewise for the own credit of every stream; nothing is spent twice or lost |
| `CreditWait.ServedIsFinal` | edge/src/protocol/flow.ts:56-84 | what an acquire took is never changed by any continuation |
| `CreditWait.RunKeeps` | edge/src/protocol/flow.ts:22-48 | the waiting invariant holds after every run |
| `CreditWaitObjects.CreditCounter.Add` | internal/tunnel/flow.go:31-41 | refuses exactly what would exceed 2147483647, else adds it all and signals |
| `CreditWaitObjects.CreditCounter.Wake` | edge/src/protocol/flow.ts:44-48 | adds no credit and fires the signal of everyone parked on this credit before |
| `CreditWaitObjects.Acquire` | internal/tunnel/flow.go:45-72 | the retry loop against grants and rivals that empty the connection in between: it takes at its first try with both credits positive, the most both allow, and nothing when it gives up |
| `CreditWaitObjects.SendBuffer` | internal/tunnel/session.go:563-579 | the chunk loop waits for credit and sends the buffer in order without a gap, every byte paid for on both credits; it stops short only when acquire gives up |
| `CreditWaitObjects.MessageCredit.TryTake` | internal/tunnel/flow.go:84-93 | takes one of eight slots or names the signal to wait for |
| `CreditWaitObjects.MessageCredit.Acknowledge` | internal/tunnel/flow.go:103-108 | excess acknowledgements are ignored and waiters are signalled |

## Left out

- RequestFlow: RES_END, resets, timeouts and stream ends are events that may happen at any time; what decides when they do is not modelled. The order in which parked senders enter the control queue is arbitrary. Events may come between taking credit and sending the chunk, where the runtime only runs promise reactions already queued.
- ResponseFlow: the credit and byte theorems are about an agent that keeps the protocol; the life of a stream is proved against any agent (ResponseFlowLife). Timers, aborts, agent RESETs and the loss of the agent are events that may happen at any time. A `FixedLengthStream` is a sink whose close fails on a length mismatch. A refused close is one event whatever its cause, so the code a RESET carries is not modelled.
- RequestFlowObjects.Session.Dispatch: WINDOW and GOAWAY frames are not among its frames; stream WINDOWs feed the response direction (ResponseFlow), a GOAWAY is only remembered for the reconnect loop.
- ResponseFlowTheorems.ConnectionCreditConserved: bounded by the window rather than equal to it when a send is cancelled with bytes in hand, because the code loses that credit.
- RequestFlowTheorems.ConnectionCreditConserved: bounded by the window rather than equal to it when hibernation follows an unsaved connection WINDOW, because that WINDOW is not persisted.
- ControlPlaneTheorems.GoawayWins: claims nothing for the losing case but that it can lose; the code has no other safeguard there.
- ControlPlaneTheorems.RevocationHasNoGap: assumes calls succeed eventually; a recordSession that fails, a row that runs out of attempts and the deletion of old sessions by the daily job are not modelled.
- ControlPlane: one name and its object; a crash in the middle of the storage await of setSuspended is not modelled, and hibernation only happens with nothing in flight. Trust is only modelled as a bump of the sequence number. HELLO, its deadline and the object reset after a missing HELLO appear as a socket that may count as dead and may close at any time.
- NameTablesSafety.TablesStayConsistent: treats the owner read by blockName as current; the stale case is BlockKeepsDefaultsExactlyWhen.
- NameTables: tokens, login codes, sessions and audit rows that the same batches write are not part of this model; names are numbers in sort order and generations are fresh numbers.
- NameTablesObjects.Client: backoff, sessions and GOAWAY handling of the reconnect loop are not modelled, only rename hints.
- WsRelay: close codes and reasons and the loss of the agent socket (which closes every visitor) are not modelled beyond a close at any time.
- WsReturn: a read from the local socket, a failed delivery and the end of either socket are events that may happen at any time.
- InspectorObjects: subscribers, filters, copies handed to readers and the WebSocket counters are left out; how far append grows a buffer is a parameter.
- FrameCodec: UTF-8 validity and JSON parsing are shared parameters of both decoders; schema checks of payloads are left out.
- LoginCodes: email sending, degraded mode, rate limiting per location and hashing are left out; a code matches when its secret equals the guess. No timestamp is older than a retention sweep already done.
- LoginCodesObjects.CodeTables.VerifyCode: one verify without interference; interleaved verifies are the machine's steps.
- CreditWait: the timeout is leaving at any time.
- Long-stream budget, interstitial, abuse reports, usage accounting: not modelled; a stream's limits are resets that may happen at any time.
- Order of outbox delivery: nothing is claimed about opposing updates being applied in commit order.
- Sockets, HTTP transports, Durable Object and D1 runtimes: FIFO channels, maps and atomic steps.
- Header policy, host and name syntax, close-code mapping: not modelled; each is one function of its input without state.
- CLI, configuration, logging, user interface, updater, diagnosis: no protocol state.
