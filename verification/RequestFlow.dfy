/**
 * Request bodies, edge to agent: credit, connection and stream windows, and the bytes themselves.
 *
 * The edge pumps visitor bodies as REQ_BODY under stream and connection credit; the agent queues
 * them per stream, a feeder hands them to the local app, and WINDOW frames carry the credit back.
 * A step is one critical section (agent) or one stretch without await (edge), so every
 * interleaving of reader, feeders, stream teardown and pumps is a sequence of steps.
 * Events caused by the response direction (RES_END, resets, cancellations, timeouts) are free.
 */
module RequestFlow {
  import opened Limits
  import opened Sums
  import opened Windows

  // ---------------------------------------------------------------- state

  datatype Frame =
    | ReqHead(id: nat, http: bool)
    | ReqBody(id: nat, data: Bytes)
    | ReqEnd(id: nat)
    | Reset(id: nat)

  /**
   * One edge HttpStream's request side. `hand` is acquired and not yet sent; `endAt` is how much of
   * the body had been sent when REQ_END went out.
   */
  datatype Pump = Pump(http: bool, body: Bytes, taken: nat, hand: Bytes, credit: nat,
                       live: bool, resEnded: bool, endSent: bool, endAt: int)

  /**
   * The edge's AgentConn. `saved` is the attachment's sendCredit, `heard` whether a connection WINDOW
   * has arrived since it was written; `wire` is the socket, in order.
   */
  datatype Edge = Edge(conn: nat, pumps: map<nat, Pump>, nextId: nat, saved: Option<nat>, heard: bool,
                       wire: seq<Frame>, fault: bool)

  datatype Phase = Feeding | Leaving | LastGrant | LastFlush | Gone

  /**
   * The agent's httpStream with its feeder. `cur` is the chunk being written to the local app,
   * `hand` is consumed and not yet granted; `drained` is everything taken off the queue and `got`
   * is what the local app read.
   */
  datatype Feeder = Feeder(queue: seq<Bytes>, queued: int, cur: Option<Bytes>, hand: Option<nat>, ungranted: nat,
                           reqEnded: bool, cancelled: bool, discard: bool, phase: Phase,
                           drained: Bytes, got: Bytes, eof: bool)
  {
    /** The feeder has exited its loop under the lock: late data is granted straight back. */
    predicate Fed() { phase.LastGrant? || phase.LastFlush? || phase.Gone? }
  }

  /**
   * The agent's session. `readerHand` is what the reader still has to grant, `flushes` counts
   * removals that still have to flush; `ctrl` holds queued control frames, which parked senders may
   * enter in any order, and `wire` what the writer has put on the socket; `resets` are the streams
   * the reader has sent a RESET for.
   */
  datatype Agent = Agent(registered: set<nat>, feeders: map<nat, Feeder>, connUngranted: nat,
                         readerHand: Option<nat>, flushes: nat, maxSeen: nat,
                         ctrl: seq<Grant>, wire: seq<Grant>, resets: seq<nat>, fault: bool)

  /** `lost` is credit the edge forgot when it hibernated. */
  datatype State = State(edge: Edge, agent: Agent, lost: int)

  const Start := State(
    Edge(CONN_WINDOW, map[], 1, None, false, [], false),
    Agent({}, map[], 0, None, 0, 0, [], [], [], false),
    0)

  function NewFeeder(): Feeder { Feeder([], 0, None, None, 0, false, false, false, Feeding, [], [], false) }

  // ---------------------------------------------------------------- edge

  function WithPump(e: Edge, id: nat, p: Pump): Edge { e.(pumps := e.pumps[id := p]) }

  predicate Idle(pumps: map<nat, Pump>) { forall id :: id in pumps ==> !pumps[id].live }

  /** forwardVisitor up to REQ_HEAD. */
  function Open(e: Edge, http: bool, body: Bytes): Edge {
    WithPump(e, e.nextId, Pump(http, body, 0, [], STREAM_WINDOW, true, false, !http, 0)).(
      nextId := e.nextId + 1, wire := e.wire + [ReqHead(e.nextId, http)])
  }

  /** An oversized head is refused after its id was allocated. */
  function Refuse(e: Edge): Edge { e.(nextId := e.nextId + 1) }

  function Allowed(e: Edge, p: Pump, want: nat): int {
    Min(Min(want, Min(MAX_BODY_CHUNK, |p.body| - p.taken)), Min(p.credit, e.conn))
  }

  predicate CanTake(e: Edge, id: nat, want: nat) {
    id in e.pumps && e.pumps[id].live && e.pumps[id].http && !e.pumps[id].resEnded && !e.pumps[id].endSent
    && e.pumps[id].hand == [] && Allowed(e, e.pumps[id], want) > 0
  }

  /** acquireCredit taking at most `want` from both credits; nothing while either is exhausted. */
  function Take(e: Edge, id: nat, want: nat): Edge
    requires CanTake(e, id, want)
  {
    var p := e.pumps[id];
    var n := Allowed(e, p, want);
    WithPump(e, id, p.(hand := p.body[p.taken..p.taken + n], taken := p.taken + n, credit := p.credit - n)).(conn := e.conn - n)
  }

  predicate CanSend(e: Edge, id: nat) { id in e.pumps && e.pumps[id].hand != [] }

  /** The pump's next turn: REQ_BODY goes out even if the stream ended meanwhile. */
  function Send(e: Edge, id: nat): Edge
    requires CanSend(e, id)
  {
    WithPump(e, id, e.pumps[id].(hand := [])).(wire := e.wire + [ReqBody(id, e.pumps[id].hand)])
  }

  predicate CanEndBody(e: Edge, id: nat) {
    id in e.pumps && e.pumps[id].live && !e.pumps[id].endSent && e.pumps[id].hand == []
    && e.pumps[id].taken == |e.pumps[id].body|
  }

  /** The visitor body was read to its end: REQ_END. */
  function EndBody(e: Edge, id: nat): Edge
    requires CanEndBody(e, id)
  {
    WithPump(e, id, e.pumps[id].(endSent := true, endAt := e.pumps[id].taken)).(wire := e.wire + [ReqEnd(id)])
  }

  predicate CanResEnd(e: Edge, id: nat) { id in e.pumps && e.pumps[id].live && !e.pumps[id].resEnded }

  /** RES_END arrived: the pump stops and REQ_END goes out if it has not yet. */
  function ResEnd(e: Edge, id: nat): Edge
    requires CanResEnd(e, id)
  {
    var p := e.pumps[id];
    WithPump(e, id, p.(resEnded := true, endSent := true, endAt := if p.endSent then p.endAt else p.taken - |p.hand|)).(
      wire := if p.endSent then e.wire else e.wire + [ReqEnd(id)])
  }

  predicate CanFinish(e: Edge, id: nat) { id in e.pumps && e.pumps[id].live }

  /** finish, after RESET when `notify`; the last stream to finish persists the send credit. */
  function Finish(e: Edge, id: nat, notify: bool): Edge
    requires CanFinish(e, id)
  {
    var pumps := e.pumps[id := e.pumps[id].(live := false)];
    e.(pumps := pumps,
       wire := if notify then e.wire + [Reset(id)] else e.wire,
       saved := if Idle(pumps) then Some(e.conn) else e.saved,
       heard := e.heard && !Idle(pumps))
  }

  /** WINDOW from the agent. No credit at all, and credit above MAX_WINDOW, are connection errors. */
  function OnWindow(e: Edge, g: Grant): Edge {
    if g.n == 0 then e.(fault := true)
    else if g.id == 0 then
      if e.conn + g.n > MAX_WINDOW then e.(fault := true) else e.(conn := e.conn + g.n, heard := true)
    else if g.id in e.pumps && e.pumps[g.id].live then
      var p := e.pumps[g.id];
      if p.credit + g.n > MAX_WINDOW then e.(fault := true) else WithPump(e, g.id, p.(credit := p.credit + g.n))
    else e
  }

  predicate CanHibernate(e: Edge) {
    Idle(e.pumps) && forall id :: id in e.pumps ==> e.pumps[id].hand == []
  }

  function Restored(e: Edge): nat { if e.saved.Some? then e.saved.value else CONN_WINDOW }

  // ---------------------------------------------------------------- agent

  function WithFeeder(a: Agent, id: nat, f: Feeder): Agent { a.(feeders := a.feeders[id := f]) }

  function SendConn(a: Agent, n: nat): Agent {
    a.(connUngranted := 0, ctrl := if n > 0 then a.ctrl + [Grant(0, U32(n))] else a.ctrl)
  }

  /** grantConn: coalesced at a quarter window, flushed at once while no stream is registered. */
  function GrantConn(a: Agent, n: nat): Agent {
    var u := a.connUngranted + n;
    if u >= CONN_WINDOW / 4 || a.registered == {} then SendConn(a, u) else a.(connUngranted := u)
  }

  function FlushConn(a: Agent): Agent { SendConn(a, a.connUngranted) }

  /** openStream; `headOk` is false when the REQ_HEAD payload is rejected. */
  function OnReqHead(a: Agent, id: nat, http: bool, headOk: bool): Agent {
    if id <= a.maxSeen then a.(fault := true)
    else if !headOk then a.(maxSeen := id, resets := a.resets + [id])
    else
      a.(maxSeen := id, registered := a.registered + {id},
         feeders := if http then a.feeders[id := NewFeeder()] else a.feeders)
  }

  /** The stream is known, is an HTTP stream and its feeder still runs. */
  predicate Accepts(a: Agent, id: nat) { id in a.registered && id in a.feeders && !a.feeders[id].Fed() }

  /** REQ_BODY: queued, or owed at once when nobody will consume it. */
  function OnReqBody(a: Agent, id: nat, data: Bytes): Agent {
    if !Accepts(a, id) then a.(readerHand := Some(|data|))
    else
      var h := a.feeders[id];
      if h.queued + |data| > STREAM_WINDOW then
        WithFeeder(a, id, h.(cancelled := true)).(readerHand := Some(|data|), resets := a.resets + [id], fault := true)
      else WithFeeder(a, id, h.(queue := h.queue + [data], queued := h.queued + |data|))
  }

  function OnReqEnd(a: Agent, id: nat): Agent {
    if id in a.registered && id in a.feeders then WithFeeder(a, id, a.feeders[id].(reqEnded := true)) else a
  }

  function OnReset(a: Agent, id: nat): Agent {
    if id in a.registered && id in a.feeders then WithFeeder(a, id, a.feeders[id].(cancelled := true)) else a
  }

  /** dispatch. */
  function Dispatch(a: Agent, f: Frame, headOk: bool): Agent {
    match f
    case ReqHead(id, http) => OnReqHead(a, id, http, headOk)
    case ReqBody(id, data) => OnReqBody(a, id, data)
    case ReqEnd(id) => OnReqEnd(a, id)
    case Reset(id) => OnReset(a, id)
  }

  predicate CanPop(a: Agent, id: nat) {
    id in a.feeders && a.feeders[id].phase.Feeding? && a.feeders[id].cur.None? && a.feeders[id].hand.None?
    && a.feeders[id].queue != []
  }

  function Pop(a: Agent, id: nat): Agent
    requires CanPop(a, id)
  {
    var h := a.feeders[id];
    WithFeeder(a, id, h.(cur := Some(h.queue[0]), queue := h.queue[1..]))
  }

  predicate CanWrite(a: Agent, id: nat) { id in a.feeders && a.feeders[id].phase.Feeding? && a.feeders[id].cur.Some? }

  /** The pipe write ends after the app read `k` bytes of the chunk; short means it stopped reading. */
  function Write(a: Agent, id: nat, k: nat): Agent
    requires CanWrite(a, id)
  {
    var h := a.feeders[id];
    var chunk := h.cur.value;
    var read := if h.discard then [] else chunk[..Min(k, |chunk|)];
    WithFeeder(a, id, h.(cur := None, hand := Some(|chunk|), queued := h.queued - |chunk|,
                         discard := h.discard || |read| < |chunk|,
                         drained := h.drained + chunk, got := h.got + read))
  }

  predicate CanGrant(a: Agent, id: nat) { id in a.feeders && a.feeders[id].phase.Feeding? && a.feeders[id].hand.Some? }

  /** Connection credit for the chunk, and stream credit once a quarter window has gathered. */
  function GrantChunk(a: Agent, id: nat): Agent
    requires CanGrant(a, id)
  {
    var h := a.feeders[id];
    var b := GrantConn(a, h.hand.value);
    var u := h.ungranted + h.hand.value;
    if u >= STREAM_WINDOW / 4 then
      WithFeeder(b, id, h.(hand := None, ungranted := 0)).(ctrl := b.ctrl + [Grant(id, U32(u))])
    else WithFeeder(b, id, h.(hand := None, ungranted := u))
  }

  /** A clean end needs an empty queue; a cancelled stream may stop with chunks still queued. */
  predicate CanLeave(a: Agent, id: nat, clean: bool) {
    id in a.feeders && a.feeders[id].phase.Feeding? && a.feeders[id].cur.None? && a.feeders[id].hand.None?
    && if clean then a.feeders[id].reqEnded && a.feeders[id].queue == [] else a.feeders[id].cancelled
  }

  /** The loop ends; after a clean end the app, if it still reads, sees end of file. */
  function Leave(a: Agent, id: nat, clean: bool): Agent
    requires CanLeave(a, id, clean)
  {
    var h := a.feeders[id];
    WithFeeder(a, id, h.(phase := Leaving, eof := clean && !h.discard))
  }

  predicate CanLock(a: Agent, id: nat) { id in a.feeders && a.feeders[id].phase.Leaving? }

  /** The exit's critical section: whatever arrived since the loop ended is dropped and owed. */
  function Lock(a: Agent, id: nat): Agent
    requires CanLock(a, id) && a.feeders[id].queued >= 0
  {
    var h := a.feeders[id];
    WithFeeder(a, id, h.(queue := [], queued := 0, hand := Some(h.queued), phase := LastGrant))
  }

  predicate CanLastGrant(a: Agent, id: nat) { id in a.feeders && a.feeders[id].phase.LastGrant? && a.feeders[id].hand.Some? }

  function GrantLeft(a: Agent, id: nat): Agent
    requires CanLastGrant(a, id)
  {
    var h := a.feeders[id];
    WithFeeder(if h.hand.value > 0 then GrantConn(a, h.hand.value) else a, id, h.(hand := None, phase := LastFlush))
  }

  predicate CanLastFlush(a: Agent, id: nat) { id in a.feeders && a.feeders[id].phase.LastFlush? }

  function FlushLeft(a: Agent, id: nat): Agent
    requires CanLastFlush(a, id)
  {
    WithFeeder(FlushConn(a), id, a.feeders[id].(phase := Gone))
  }

  /** removeStream's critical section; the flush that follows is a step of its own. */
  function Remove(a: Agent, id: nat): Agent {
    var rest := a.registered - {id};
    a.(registered := rest, flushes := if rest == {} then a.flushes + 1 else a.flushes)
  }

  // ---------------------------------------------------------------- the whole system

  // A step that is not enabled changes nothing.

  function StepOpen(s: State, http: bool, body: Bytes): State { s.(edge := Open(s.edge, http, body)) }

  function StepRefuse(s: State): State { s.(edge := Refuse(s.edge)) }

  function StepTake(s: State, id: nat, want: nat): State {
    if CanTake(s.edge, id, want) then s.(edge := Take(s.edge, id, want)) else s
  }

  function StepSend(s: State, id: nat): State {
    if CanSend(s.edge, id) then s.(edge := Send(s.edge, id)) else s
  }

  function StepEndBody(s: State, id: nat): State {
    if CanEndBody(s.edge, id) then s.(edge := EndBody(s.edge, id)) else s
  }

  function StepResEnd(s: State, id: nat): State {
    if CanResEnd(s.edge, id) then s.(edge := ResEnd(s.edge, id)) else s
  }

  function StepFinish(s: State, id: nat, notify: bool): State {
    if CanFinish(s.edge, id) then s.(edge := Finish(s.edge, id, notify)) else s
  }

  function StepReceive(s: State): State {
    if s.agent.wire != [] then s.(edge := OnWindow(s.edge, s.agent.wire[0]), agent := s.agent.(wire := s.agent.wire[1..])) else s
  }

  function StepHibernate(s: State): State {
    if CanHibernate(s.edge) then s.(edge := s.edge.(conn := Restored(s.edge), heard := false), lost := s.lost + s.edge.conn - Restored(s.edge)) else s
  }

  function StepDispatch(s: State, headOk: bool): State {
    if s.edge.wire != [] && s.agent.readerHand.None? then s.(edge := s.edge.(wire := s.edge.wire[1..]), agent := Dispatch(s.agent, s.edge.wire[0], headOk)) else s
  }

  function StepReaderGrant(s: State): State {
    if s.agent.readerHand.Some? then s.(agent := GrantConn(s.agent, s.agent.readerHand.value).(readerHand := None)) else s
  }

  function StepPop(s: State, id: nat): State {
    if CanPop(s.agent, id) then s.(agent := Pop(s.agent, id)) else s
  }

  function StepWrite(s: State, id: nat, k: nat): State {
    if CanWrite(s.agent, id) then s.(agent := Write(s.agent, id, k)) else s
  }

  function StepGrant(s: State, id: nat): State {
    if CanGrant(s.agent, id) then s.(agent := GrantChunk(s.agent, id)) else s
  }

  function StepLeave(s: State, id: nat, clean: bool): State {
    if CanLeave(s.agent, id, clean) then s.(agent := Leave(s.agent, id, clean)) else s
  }

  function StepLock(s: State, id: nat): State {
    if CanLock(s.agent, id) && s.agent.feeders[id].queued >= 0 then s.(agent := Lock(s.agent, id)) else s
  }

  function StepLastGrant(s: State, id: nat): State {
    if CanLastGrant(s.agent, id) then s.(agent := GrantLeft(s.agent, id)) else s
  }

  function StepLastFlush(s: State, id: nat): State {
    if CanLastFlush(s.agent, id) then s.(agent := FlushLeft(s.agent, id)) else s
  }

  function StepCancel(s: State, id: nat): State {
    if id in s.agent.feeders then s.(agent := WithFeeder(s.agent, id, s.agent.feeders[id].(cancelled := true))) else s
  }

  function StepRemove(s: State, id: nat): State {
    if id in s.agent.registered then s.(agent := Remove(s.agent, id)) else s
  }

  function StepRemoveFlush(s: State): State {
    if s.agent.flushes > 0 then s.(agent := FlushConn(s.agent).(flushes := s.agent.flushes - 1)) else s
  }

  function StepWriteCtrl(s: State, i: nat): State {
    if i < |s.agent.ctrl| then s.(agent := s.agent.(ctrl := s.agent.ctrl[..i] + s.agent.ctrl[i + 1..], wire := s.agent.wire + [s.agent.ctrl[i]])) else s
  }

  datatype Step =
    | DoOpen(http: bool, body: Bytes)
    | DoRefuse
    | DoTake(id: nat, want: nat)
    | DoSend(id: nat)
    | DoEndBody(id: nat)
    | DoResEnd(id: nat)
    | DoFinish(id: nat, notify: bool)
    | DoReceive
    | DoHibernate
    | DoDispatch(headOk: bool)
    | DoReaderGrant
    | DoPop(id: nat)
    | DoWrite(id: nat, k: nat)
    | DoGrant(id: nat)
    | DoLeave(id: nat, clean: bool)
    | DoLock(id: nat)
    | DoLastGrant(id: nat)
    | DoLastFlush(id: nat)
    | DoCancel(id: nat)
    | DoRemove(id: nat)
    | DoRemoveFlush
    | DoWriteCtrl(i: nat)

  function Do(s: State, step: Step): State {
    match step
    case DoOpen(http, body) => StepOpen(s, http, body)
    case DoRefuse => StepRefuse(s)
    case DoTake(id, want) => StepTake(s, id, want)
    case DoSend(id) => StepSend(s, id)
    case DoEndBody(id) => StepEndBody(s, id)
    case DoResEnd(id) => StepResEnd(s, id)
    case DoFinish(id, notify) => StepFinish(s, id, notify)
    case DoReceive => StepReceive(s)
    case DoHibernate => StepHibernate(s)
    case DoDispatch(headOk) => StepDispatch(s, headOk)
    case DoReaderGrant => StepReaderGrant(s)
    case DoPop(id) => StepPop(s, id)
    case DoWrite(id, k) => StepWrite(s, id, k)
    case DoGrant(id) => StepGrant(s, id)
    case DoLeave(id, clean) => StepLeave(s, id, clean)
    case DoLock(id) => StepLock(s, id)
    case DoLastGrant(id) => StepLastGrant(s, id)
    case DoLastFlush(id) => StepLastFlush(s, id)
    case DoCancel(id) => StepCancel(s, id)
    case DoRemove(id) => StepRemove(s, id)
    case DoRemoveFlush => StepRemoveFlush(s)
    case DoWriteCtrl(i) => StepWriteCtrl(s, i)
  }

  /** The state after a run; every reachable state is `Run(steps)` for some `steps`. */
  function Run(steps: seq<Step>): State {
    if steps == [] then Start else Do(Run(steps[..|steps| - 1]), steps[|steps| - 1])
  }

  // ---------------------------------------------------------------- counting

  function FrameLen(f: Frame): nat { if f.ReqBody? then |f.data| else 0 }

  function BodySum(w: seq<Frame>): nat { if w == [] then 0 else FrameLen(w[0]) + BodySum(w[1..]) }

  function FrameBytes(f: Frame, id: nat): Bytes { if f.ReqBody? && f.id == id then f.data else [] }

  /** The body bytes of stream `id` on the socket, in order. */
  function BytesOf(w: seq<Frame>, id: nat): Bytes { if w == [] then [] else FrameBytes(w[0], id) + BytesOf(w[1..], id) }

  function Flat(q: seq<Bytes>): Bytes { if q == [] then [] else q[0] + Flat(q[1..]) }

  function CurBytes(h: Feeder): Bytes { if h.cur.Some? then h.cur.value else [] }

  /** Everything the feeder has taken or will take, in order. */
  function Content(h: Feeder): Bytes { h.drained + CurBytes(h) + Flat(h.queue) }

  function Or0(o: Option<nat>): nat { if o.Some? then o.value else 0 }

  function HandLen(p: Pump): int { |p.hand| }

  function Owed(h: Feeder): int { h.queued + Or0(h.hand) }

  /** Every place connection credit can be. */
  ghost function ConnTotal(s: State): int {
    s.edge.conn + SumOver(s.edge.pumps, HandLen) + BodySum(s.edge.wire)
    + Or0(s.agent.readerHand) + SumOver(s.agent.feeders, Owed) + s.agent.connUngranted
    + GrantSum(s.agent.ctrl, 0) + GrantSum(s.agent.wire, 0)
  }

  function PumpPart(e: Edge, id: nat): int {
    if id in e.pumps then (if e.pumps[id].live then e.pumps[id].credit else 0) + |e.pumps[id].hand| else 0
  }

  function FeederPart(a: Agent, id: nat): int {
    if id in a.feeders then Owed(a.feeders[id]) + a.feeders[id].ungranted else 0
  }

  /** Every place stream `id`'s credit can be. */
  function StreamTotal(s: State, id: nat): int {
    PumpPart(s.edge, id) + |BytesOf(s.edge.wire, id)| + FeederPart(s.agent, id)
    + GrantSum(s.agent.ctrl, id) + GrantSum(s.agent.wire, id)
  }

  /** The stream's REQ_HEAD is still on its way, or its agent side still takes data. */
  predicate Linked(a: Agent, id: nat) {
    id > a.maxSeen || Accepts(a, id)
  }
}
