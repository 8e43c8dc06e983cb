/**
 * Response bodies, agent to edge, and the life of an edge HttpStream.
 *
 * The agent streams a local response as RES_HEAD, RES_BODY and RES_END under stream and connection
 * credit; the edge relays it to the visitor through a chain of writes and returns credit as the
 * visitor consumes. A step is one stretch without await (edge) or one critical section (agent).
 * Timers, aborts, agent RESETs, agent loss and the end of the request pump are free events.
 */
module ResponseFlow {
  import opened Limits
  import opened Windows

  // ---------------------------------------------------------------- state

  /** A response head as the edge reads it; `valid` is false when the JSON schema is violated. */
  datatype Head = Head(valid: bool, status: int, length: Option<nat>)

  datatype Frame =
    | ResHead(id: nat, head: Head)
    | ResBody(id: nat, data: Bytes)
    | ResEnd(id: nat)

  /** The agent's side of one response; `hand` is acquired and not yet queued. */
  datatype Sender = Sender(body: Bytes, taken: nat, hand: Bytes, credit: nat, headSent: bool, stopped: bool, endSent: bool,
                           registered: bool)

  /** `data` is the writer's ordered queue, `wire` the socket; `lost` is credit of cancelled sends. */
  datatype Agent = Agent(conn: nat, senders: map<nat, Sender>, data: seq<Frame>, wire: seq<Frame>, lost: nat, fault: bool)

  datatype Job = WriteJob(data: Bytes) | CloseJob

  /** What the visitor and the agent get to see of a stream, in order. */
  datatype Event = HeadGiven | Done | ReqEndSent | ResetSent

  /** The flags of an HttpStream and what it has shown so far. */
  datatype Life = Life(ws: bool, headMethod: bool, headDone: bool, resEnded: bool, reqEndSent: bool, done: bool, log: seq<Event>)

  /**
   * The visitor's side of the response body: `jobs` is the write chain, `writing` its head being
   * awaited, `got` what the visitor received and `closed` a clean end.
   */
  datatype Chain = Chain(hasWriter: bool, expected: Option<nat>, bodyBytes: nat, jobs: seq<Job>, writing: bool,
                         got: Bytes, closed: bool)

  /** An HttpStream; `held` is recvOutstanding and `ungranted` its coalesced credit. */
  datatype HttpStream = HttpStream(life: Life, chain: Chain, held: int, ungranted: nat)

  /** The AgentConn: `held` is recvWindow, `wire` the WINDOW frames on the socket. */
  datatype Edge = Edge(held: int, connUngranted: nat, streams: map<nat, HttpStream>, wire: seq<Grant>, fault: bool)

  datatype State = State(agent: Agent, edge: Edge)

  const Start := State(Agent(CONN_WINDOW, map[], [], [], 0, false), Edge(0, 0, map[], [], false))

  function NewStream(ws: bool, headMethod: bool): HttpStream {
    HttpStream(Life(ws, headMethod, false, false, false, false, []), Chain(false, None, 0, [], false, [], false), 0, 0)
  }

  // ---------------------------------------------------------------- edge

  function With(e: Edge, id: nat, h: HttpStream): Edge { e.(streams := e.streams[id := h]) }

  /** No stream is in conn.streams: each leaves it when done. */
  predicate AllDone(streams: map<nat, HttpStream>) { forall id :: id in streams ==> streams[id].life.done }

  function FlushConn(e: Edge): Edge {
    if e.connUngranted <= 0 then e
    else
      e.(connUngranted := 0, held := if e.held < e.connUngranted then 0 else e.held - e.connUngranted,
         wire := e.wire + [Grant(0, U32(e.connUngranted))])
  }

  function GrantConn(e: Edge, n: nat): Edge {
    var f := e.(connUngranted := e.connUngranted + n);
    if f.connUngranted >= CONN_WINDOW / 4 || AllDone(f.streams) then FlushConn(f) else f
  }

  /** The connection's receive window; more than it holds is a connection error. */
  function Received(e: Edge, n: nat): Edge { e.(held := e.held + n, fault := e.fault || e.held + n > CONN_WINDOW) }

  function Note(l: Life, event: Event): Life { l.(log := l.log + [event]) }

  function Finished(l: Life): Life { if l.done then l else Note(l, Done).(done := true) }

  function Finish(e: Edge, id: nat): Edge
    requires id in e.streams
  {
    if e.streams[id].life.done then e
    else
      var f := With(e, id, e.streams[id].(life := Finished(e.streams[id].life)));
      if AllDone(f.streams) then FlushConn(f) else f
  }

  /** What reset shows before it finishes: RESET if the agent must know, a page if no head was given. */
  function Broken(l: Life, notify: bool): Life {
    var l1 := if notify then Note(l, ResetSent) else l;
    if l1.headDone then l1 else Note(l1, HeadGiven).(headDone := true)
  }

  function Reset(e: Edge, id: nat, notify: bool): Edge
    requires id in e.streams
  {
    if e.streams[id].life.done then e
    else Finish(With(e, id, e.streams[id].(life := Broken(e.streams[id].life, notify))), id)
  }

  /** Stream credit is coalesced at a quarter window too. */
  function Rest(u: nat): nat { if u >= STREAM_WINDOW / 4 then 0 else u }

  function Booking(e: Edge, id: nat, u: nat): Edge
    requires id in e.streams
  {
    With(e, id, e.streams[id].(ungranted := Rest(u))).(
      wire := if u >= STREAM_WINDOW / 4 then e.wire + [Grant(id, U32(u))] else e.wire)
  }

  /** Bytes the visitor consumed, or that were dropped: connection credit always, stream credit while it lasts. */
  function Consumed(e: Edge, id: nat, n: nat): Edge
    requires id in e.streams
  {
    var h := e.streams[id];
    var f := GrantConn(With(e, id, h.(held := h.held - n)), n);
    if h.life.done || h.life.resEnded then f else Booking(f, id, h.ungranted + n)
  }

  datatype StartOutcome = Sent | SendFailed | Aborted

  /** start: the head request is sent, or the socket is gone, or the visitor already left. */
  function OnStart(e: Edge, id: nat, ws: bool, headMethod: bool, how: StartOutcome): Edge {
    var h := NewStream(ws, headMethod);
    match how
    case SendFailed => Finish(With(e, id, h.(life := Note(h.life, HeadGiven))), id)
    case Aborted => Reset(With(e, id, h), id, true)
    case Sent => With(e, id, h.(life := h.life.(reqEndSent := ws)))
  }

  predicate NullBody(l: Life, status: int) { l.headMethod || status in {101, 204, 205, 304} }

  predicate AcceptableHead(l: Life, head: Head) {
    head.valid && (200 <= head.status <= 599 || (l.ws && head.status == 101))
  }

  function OnResHead(e: Edge, id: nat, head: Head): Edge
    requires id in e.streams
  {
    var h := e.streams[id];
    if h.life.headDone || h.life.done || !AcceptableHead(h.life, head) then Reset(e, id, true)
    else
      var l := Note(h.life, HeadGiven).(headDone := true);
      if head.status == 101 then Finish(With(e, id, h.(life := l.(resEnded := true))), id)
      else if NullBody(l, head.status) then With(e, id, h.(life := l))
      else With(e, id, h.(life := l, chain := h.chain.(hasWriter := true, expected := head.length)))
  }

  /** RES_BODY of a stream in conn.streams, already counted by the receive window. */
  function OnResBody(e: Edge, id: nat, data: Bytes): Edge
    requires id in e.streams
  {
    var h := e.streams[id];
    if !h.life.headDone || h.life.resEnded || h.life.done then
      var f := GrantConn(e, |data|);
      if !h.life.headDone && !h.life.done then Reset(f, id, true) else f
    else if h.held + |data| + h.ungranted > STREAM_WINDOW then
      Consumed(Reset(With(e, id, h.(held := h.held + |data|)).(fault := true), id, true), id, |data|)
    else if !h.chain.hasWriter then Consumed(With(e, id, h.(held := h.held + |data|)), id, |data|)
    else
      var count := if h.chain.expected.Some? then h.chain.bodyBytes + |data| else h.chain.bodyBytes;
      if h.chain.expected.Some? && count > h.chain.expected.value then
        Consumed(Reset(With(e, id, h.(held := h.held + |data|, chain := h.chain.(bodyBytes := count))), id, true), id, |data|)
      else
        With(e, id, h.(held := h.held + |data|,
                       chain := h.chain.(jobs := h.chain.jobs + [WriteJob(data)], bodyBytes := count)))
  }

  function SendReqEnd(l: Life): Life {
    if l.reqEndSent || l.done then l else Note(l, ReqEndSent).(reqEndSent := true)
  }

  function OnResEnd(e: Edge, id: nat): Edge
    requires id in e.streams
  {
    var h := e.streams[id];
    if !h.life.headDone || h.life.resEnded || h.life.done then Reset(e, id, true)
    else
      With(e, id, h.(life := SendReqEnd(h.life.(resEnded := true)), chain := h.chain.(jobs := h.chain.jobs + [CloseJob])))
  }

  predicate CanStartJob(e: Edge, id: nat) { id in e.streams && !e.streams[id].chain.writing && e.streams[id].chain.jobs != [] }

  /** The write chain reaches its next job. */
  function StartJob(e: Edge, id: nat): Edge
    requires CanStartJob(e, id)
  {
    var h := e.streams[id];
    var rest := h.(chain := h.chain.(jobs := h.chain.jobs[1..]));
    match h.chain.jobs[0]
    case WriteJob(data) =>
      if h.life.done then Consumed(With(e, id, rest), id, |data|)
      else With(e, id, h.(chain := h.chain.(writing := true)))
    case CloseJob =>
      if h.chain.hasWriter && !h.life.done then With(e, id, h.(chain := h.chain.(writing := true)))
      else Finish(With(e, id, rest), id)
  }

  predicate CanEndJob(e: Edge, id: nat) { id in e.streams && e.streams[id].chain.writing && e.streams[id].chain.jobs != [] }

  /** A fixed-length body can only be closed at its length. */
  predicate Fits(c: Chain) { c.expected.None? || |c.got| == c.expected.value }

  /** The awaited write or close settles. */
  function EndJob(e: Edge, id: nat, ok: bool): Edge
    requires CanEndJob(e, id)
  {
    var h := e.streams[id];
    var c := h.chain.(writing := false, jobs := h.chain.jobs[1..]);
    match h.chain.jobs[0]
    case WriteJob(data) =>
      if ok then Consumed(With(e, id, h.(chain := c.(got := c.got + data))), id, |data|)
      else Consumed(Reset(With(e, id, h.(chain := c)), id, true), id, |data|)
    case CloseJob =>
      if ok && Fits(c) then Finish(With(e, id, h.(chain := c.(closed := true))), id)
      else Reset(With(e, id, h.(chain := c)), id, true)
  }

  /** One frame from the agent. */
  function OnFrame(e: Edge, f: Frame): Edge {
    match f
    case ResHead(id, head) => if id in e.streams && !e.streams[id].life.done then OnResHead(e, id, head) else e
    case ResBody(id, data) =>
      var r := Received(e, |data|);
      if id in e.streams && !e.streams[id].life.done then OnResBody(r, id, data) else GrantConn(r, |data|)
    case ResEnd(id) => if id in e.streams && !e.streams[id].life.done then OnResEnd(e, id) else e
  }

  // ---------------------------------------------------------------- agent

  function WithSender(a: Agent, id: nat, p: Sender): Agent { a.(senders := a.senders[id := p]) }

  predicate Ready(a: Agent, id: nat) { id in a.senders && !a.senders[id].stopped && a.senders[id].hand == [] }

  function SendHead(a: Agent, id: nat, head: Head): Agent
    requires Ready(a, id)
  {
    WithSender(a, id, a.senders[id].(headSent := true)).(data := a.data + [ResHead(id, head)])
  }

  function Allowed(a: Agent, p: Sender, want: nat): int {
    Min(Min(want, Min(MAX_BODY_CHUNK, |p.body| - p.taken)), Min(p.credit, a.conn))
  }

  /** acquire taking at most `want` of the chunk read from the local response. */
  function Acquire(a: Agent, id: nat, want: nat): Agent
    requires Ready(a, id) && Allowed(a, a.senders[id], want) > 0
  {
    var p := a.senders[id];
    var n := Allowed(a, p, want);
    WithSender(a, id, p.(hand := p.body[p.taken..p.taken + n], taken := p.taken + n, credit := p.credit - n)).(conn := a.conn - n)
  }

  predicate Holding(a: Agent, id: nat) { id in a.senders && a.senders[id].hand != [] }

  function SendBody(a: Agent, id: nat): Agent
    requires Holding(a, id)
  {
    WithSender(a, id, a.senders[id].(hand := [])).(data := a.data + [ResBody(id, a.senders[id].hand)])
  }

  /** sendData was cancelled after the credit was taken: the bytes are dropped with their credit. */
  function CancelBody(a: Agent, id: nat): Agent
    requires Holding(a, id)
  {
    WithSender(a, id, a.senders[id].(hand := [], stopped := true)).(lost := a.lost + |a.senders[id].hand|)
  }

  function SendEnd(a: Agent, id: nat): Agent
    requires Ready(a, id) && a.senders[id].taken == |a.senders[id].body|
  {
    WithSender(a, id, a.senders[id].(stopped := true, endSent := true)).(data := a.data + [ResEnd(id)])
  }

  function OnWindow(a: Agent, g: Grant): Agent {
    if g.id == 0 then
      if a.conn + g.n > MAX_WINDOW then a.(fault := true) else a.(conn := a.conn + g.n)
    else if g.id in a.senders && a.senders[g.id].registered then
      var p := a.senders[g.id];
      if p.credit + g.n > MAX_WINDOW then a.(fault := true) else WithSender(a, g.id, p.(credit := p.credit + g.n))
    else a
  }

  // ---------------------------------------------------------------- the whole system

  function StepStart(s: State, id: nat, ws: bool, headMethod: bool, how: StartOutcome): State {
    if id > 0 && id !in s.edge.streams then s.(edge := OnStart(s.edge, id, ws, headMethod, how)) else s
  }

  function StepOpen(s: State, id: nat, body: Bytes): State {
    if id in s.edge.streams && id !in s.agent.senders then
      s.(agent := WithSender(s.agent, id, Sender(body, 0, [], STREAM_WINDOW, false, false, false, true)))
    else s
  }

  function StepSendHead(s: State, id: nat, head: Head): State {
    if Ready(s.agent, id) && !s.agent.senders[id].headSent then s.(agent := SendHead(s.agent, id, head)) else s
  }

  function StepAcquire(s: State, id: nat, want: nat): State {
    if Ready(s.agent, id) && s.agent.senders[id].headSent && Allowed(s.agent, s.agent.senders[id], want) > 0
    then s.(agent := Acquire(s.agent, id, want)) else s
  }

  function StepSendBody(s: State, id: nat): State {
    if Holding(s.agent, id) then s.(agent := SendBody(s.agent, id)) else s
  }

  function StepCancelBody(s: State, id: nat): State {
    if Holding(s.agent, id) then s.(agent := CancelBody(s.agent, id)) else s
  }

  function StepSendEnd(s: State, id: nat): State {
    if Ready(s.agent, id) && s.agent.senders[id].headSent && s.agent.senders[id].taken == |s.agent.senders[id].body|
    then s.(agent := SendEnd(s.agent, id)) else s
  }

  /** The local response failed, or the stream was cancelled, with nothing in hand. */
  function StepStop(s: State, id: nat): State {
    if Ready(s.agent, id) then s.(agent := WithSender(s.agent, id, s.agent.senders[id].(stopped := true))) else s
  }

  /** The agent's stream is over and left its map: later WINDOW frames find no stream. */
  function StepRemove(s: State, id: nat): State {
    if id in s.agent.senders && s.agent.senders[id].stopped && s.agent.senders[id].hand == [] then
      s.(agent := WithSender(s.agent, id, s.agent.senders[id].(registered := false)))
    else s
  }

  function StepWriteData(s: State): State {
    if s.agent.data != [] then
      s.(agent := s.agent.(data := s.agent.data[1..], wire := s.agent.wire + [s.agent.data[0]]))
    else s
  }

  function StepAgentReceive(s: State): State {
    if s.edge.wire != [] then
      s.(agent := OnWindow(s.agent, s.edge.wire[0]), edge := s.edge.(wire := s.edge.wire[1..]))
    else s
  }

  function StepEdgeReceive(s: State): State {
    if s.agent.wire != [] then
      s.(edge := OnFrame(s.edge, s.agent.wire[0]), agent := s.agent.(wire := s.agent.wire[1..]))
    else s
  }

  function StepStartJob(s: State, id: nat): State {
    if CanStartJob(s.edge, id) then s.(edge := StartJob(s.edge, id)) else s
  }

  function StepEndJob(s: State, id: nat, ok: bool): State {
    if CanEndJob(s.edge, id) then s.(edge := EndJob(s.edge, id, ok)) else s
  }

  /** A timer, an abort, a failed pump, an agent RESET or the loss of the agent. */
  function StepReset(s: State, id: nat, notify: bool): State {
    if id in s.edge.streams then s.(edge := Reset(s.edge, id, notify)) else s
  }

  /** The request pump read its body to the end. */
  function StepPumpEnd(s: State, id: nat): State {
    if id in s.edge.streams then s.(edge := With(s.edge, id, s.edge.streams[id].(life := SendReqEnd(s.edge.streams[id].life)))) else s
  }

  datatype Step =
    | DoStart(id: nat, ws: bool, headMethod: bool, how: StartOutcome)
    | DoOpen(id: nat, body: Bytes)
    | DoSendHead(id: nat, head: Head)
    | DoAcquire(id: nat, want: nat)
    | DoSendBody(id: nat)
    | DoCancelBody(id: nat)
    | DoSendEnd(id: nat)
    | DoStop(id: nat)
    | DoRemove(id: nat)
    | DoWriteData
    | DoAgentReceive
    | DoEdgeReceive
    | DoStartJob(id: nat)
    | DoEndJob(id: nat, ok: bool)
    | DoReset(id: nat, notify: bool)
    | DoPumpEnd(id: nat)

  function Do(s: State, step: Step): State {
    match step
    case DoStart(id, ws, headMethod, how) => StepStart(s, id, ws, headMethod, how)
    case DoOpen(id, body) => StepOpen(s, id, body)
    case DoSendHead(id, head) => StepSendHead(s, id, head)
    case DoAcquire(id, want) => StepAcquire(s, id, want)
    case DoSendBody(id) => StepSendBody(s, id)
    case DoCancelBody(id) => StepCancelBody(s, id)
    case DoSendEnd(id) => StepSendEnd(s, id)
    case DoStop(id) => StepStop(s, id)
    case DoRemove(id) => StepRemove(s, id)
    case DoWriteData => StepWriteData(s)
    case DoAgentReceive => StepAgentReceive(s)
    case DoEdgeReceive => StepEdgeReceive(s)
    case DoStartJob(id) => StepStartJob(s, id)
    case DoEndJob(id, ok) => StepEndJob(s, id, ok)
    case DoReset(id, notify) => StepReset(s, id, notify)
    case DoPumpEnd(id) => StepPumpEnd(s, id)
  }

  /** The state after a run; a step that is not enabled changes nothing. */
  function Run(steps: seq<Step>): State {
    if steps == [] then Start else Do(Run(steps[..|steps| - 1]), steps[|steps| - 1])
  }
}
