/**
 * Relay of visitor WebSocket messages to the agent and its local app, under message credit.
 *
 * The edge keeps each visitor's attachment across hibernation but not its buffer. Frames travel in
 * two FIFO channels. A step is one event handler of the edge or one critical section of the agent;
 * closes by either side, lost writes and the end of a stream are free events. Socket keys
 * (epoch and stream id) are single numbers.
 */
module WsRelay {
  import opened Limits

  const WS_BUFFER_BUDGET: int := 8 * 1024 * 1024

  datatype Frame = WsMessage(id: nat, data: Bytes) | WsClose(id: nat)

  datatype Ack = Ack(id: nat, n: nat)

  /** A visitor socket's attachment, and what the socket carried: `received` while open, `sent` on to the agent. */
  datatype Visitor = Visitor(outstanding: nat, pending: bool, closed: bool, received: seq<Bytes>, sent: seq<Bytes>)

  datatype Edge = Edge(visitors: map<nat, Visitor>, buffers: map<nat, seq<Bytes>>, buffered: int, out: seq<Frame>)

  /** `writing` is the message pumpEdge took, `doomed` if a close had been asked for by then. */
  datatype Local = Local(unacked: int, inbox: seq<Bytes>, writing: Option<Bytes>, doomed: bool, delivered: seq<Bytes>,
                         closing: bool, dropped: bool, over: bool, overrun: bool)

  datatype State = State(edge: Edge, locals: map<nat, Local>, acks: seq<Ack>)

  const Start := State(Edge(map[], map[], 0, []), map[], [])

  // ---------------------------------------------------------------- edge

  function BufferOf(e: Edge, id: nat): seq<Bytes> { if id in e.buffers then e.buffers[id] else [] }

  function Size(msgs: seq<Bytes>): int { if msgs == [] then 0 else |msgs[0]| + Size(msgs[1..]) }

  function WithVisitor(e: Edge, id: nat, v: Visitor): Edge { e.(visitors := e.visitors[id := v]) }

  /** dropWsBuffer. */
  function Unbuffered(e: Edge, id: nat): Edge {
    e.(buffers := e.buffers - {id}, buffered := e.buffered - Size(BufferOf(e, id)))
  }

  function Fail(e: Edge, id: nat): Edge
    requires id in e.visitors
  {
    var f := Unbuffered(WithVisitor(e, id, e.visitors[id].(closed := true, pending := false)), id);
    f.(out := f.out + [WsClose(id)])
  }

  function OnMessage(e: Edge, id: nat, m: Bytes): Edge
    requires id in e.visitors
  {
    var v, buffer := e.visitors[id], BufferOf(e, id);
    if v.closed then e
    else if |m| > MAX_WS_MESSAGE then Fail(e, id)
    else if v.outstanding < WS_MSG_CREDIT && buffer == [] then
      WithVisitor(e, id, v.(outstanding := v.outstanding + 1, received := v.received + [m], sent := v.sent + [m])).(
        out := e.out + [WsMessage(id, m)])
    else if |buffer| >= WS_MSG_CREDIT || e.buffered + |m| > WS_BUFFER_BUDGET then Fail(e, id)
    else
      WithVisitor(e, id, v.(pending := true, received := v.received + [m])).(
        buffers := e.buffers[id := buffer + [m]], buffered := e.buffered + |m|)
  }

  function Frames(id: nat, msgs: seq<Bytes>): seq<Frame> { seq(|msgs|, i requires 0 <= i < |msgs| => WsMessage(id, msgs[i])) }

  /** How many buffered messages an ACK of `n` lets go. */
  function Released(v: Visitor, buffer: seq<Bytes>, n: nat): nat {
    var left := if v.outstanding < n then 0 else v.outstanding - n;
    if left >= WS_MSG_CREDIT then 0 else Min(|buffer|, WS_MSG_CREDIT - left)
  }

  function OnAck(e: Edge, id: nat, n: nat): Edge {
    if id !in e.visitors then e
    else
      var v, buffer := e.visitors[id], BufferOf(e, id);
      var left := if v.outstanding < n then 0 else v.outstanding - n;
      var k := Released(v, buffer, n);
      var rest := buffer[k..];
      Edge(e.visitors[id := v.(outstanding := left + k, pending := rest != [], sent := v.sent + buffer[..k])],
           if rest == [] then e.buffers - {id} else e.buffers[id := rest],
           e.buffered - Size(buffer[..k]),
           e.out + Frames(id, buffer[..k]))
  }

  /** The agent closed the stream, or broke its rules. */
  function CloseByAgent(e: Edge, id: nat, answer: bool): Edge {
    if id !in e.visitors || e.visitors[id].closed then e
    else
      var f := Unbuffered(WithVisitor(e, id, e.visitors[id].(closed := true, pending := false)), id);
      if answer then f.(out := f.out + [WsClose(id)]) else f
  }

  function CloseByVisitor(e: Edge, id: nat): Edge {
    if id !in e.visitors || e.visitors[id].closed then e
    else
      var f := Unbuffered(WithVisitor(e, id, e.visitors[id].(closed := true)), id);
      f.(out := f.out + [WsClose(id)])
  }

  /** The constructor's loop over the visitor sockets, in the order the runtime lists them. */
  function WakeOver(e: Edge, order: seq<nat>): Edge {
    if order == [] then e
    else
      var f := WakeOver(e, order[..|order| - 1]);
      var id := order[|order| - 1];
      if id in f.visitors && f.visitors[id].pending && !f.visitors[id].closed then Fail(f, id) else f
  }

  /** Hibernation loses the buffers; waking closes every visitor that had one. */
  function Wake(e: Edge, order: seq<nat>): Edge { WakeOver(e.(buffers := map[], buffered := 0), order) }

  // ---------------------------------------------------------------- agent

  function OnLocalFrame(l: Local, f: Frame): Local {
    match f
    case WsMessage(_, data) =>
      if l.over then l.(dropped := true)
      else if l.unacked >= WS_MSG_TOLERANCE then l.(closing := true, dropped := true, overrun := true)
      else l.(unacked := l.unacked + 1, inbox := l.inbox + [data])
    case WsClose(_) => l.(closing := true)
  }

  predicate CanTake(l: Local) { !l.over && l.writing.None? && l.inbox != [] }

  function TakeMessage(l: Local): Local
    requires CanTake(l)
  {
    l.(inbox := l.inbox[1..], writing := Some(l.inbox[0]), doomed := l.closing)
  }

  /** The local write ends; one that failed or was interrupted drops its message and asks for a close. */
  function WriteEnded(l: Local, ok: bool): Local
    requires l.writing.Some?
  {
    if ok && !l.doomed then l.(writing := None, delivered := l.delivered + [l.writing.value], unacked := l.unacked - 1)
    else l.(writing := None, closing := true, dropped := true)
  }

  // ---------------------------------------------------------------- the whole system

  function StepAccept(s: State, id: nat): State {
    if id in s.edge.visitors || id in s.locals then s
    else
      s.(edge := WithVisitor(s.edge, id, Visitor(0, false, false, [], [])),
         locals := s.locals[id := Local(0, [], None, false, [], false, false, false, false)])
  }

  function StepMessage(s: State, id: nat, m: Bytes): State {
    if id in s.edge.visitors then s.(edge := OnMessage(s.edge, id, m)) else s
  }

  function StepAgentReceive(s: State): State {
    if s.edge.out == [] then s
    else
      var f := s.edge.out[0];
      s.(edge := s.edge.(out := s.edge.out[1..]),
         locals := if f.id in s.locals then s.locals[f.id := OnLocalFrame(s.locals[f.id], f)] else s.locals)
  }

  function StepTake(s: State, id: nat): State {
    if id in s.locals && CanTake(s.locals[id]) then s.(locals := s.locals[id := TakeMessage(s.locals[id])]) else s
  }

  /** A delivered message is acknowledged, even if the stream is just ending. */
  function StepWrite(s: State, id: nat, ok: bool): State {
    if id in s.locals && s.locals[id].writing.Some? then
      var l := s.locals[id];
      s.(locals := s.locals[id := WriteEnded(l, ok)], acks := if ok && !l.doomed then s.acks + [Ack(id, 1)] else s.acks)
    else s
  }

  function StepLocalClose(s: State, id: nat): State {
    if id in s.locals then s.(locals := s.locals[id := s.locals[id].(closing := true)]) else s
  }

  /** run returns between two messages: the stream leaves the session's map. */
  function StepLocalOver(s: State, id: nat): State {
    if id in s.locals && s.locals[id].writing.None?
    then s.(locals := s.locals[id := s.locals[id].(over := true, dropped := s.locals[id].dropped || s.locals[id].inbox != [])]) else s
  }

  function StepEdgeReceive(s: State): State {
    if s.acks == [] then s else s.(edge := OnAck(s.edge, s.acks[0].id, s.acks[0].n), acks := s.acks[1..])
  }

  datatype Step =
    | DoAccept(id: nat)
    | DoMessage(id: nat, m: Bytes)
    | DoAgentReceive
    | DoTake(id: nat)
    | DoWrite(id: nat, ok: bool)
    | DoLocalClose(id: nat)
    | DoLocalOver(id: nat)
    | DoEdgeReceive
    | DoCloseByAgent(id: nat, answer: bool)
    | DoCloseByVisitor(id: nat)
    | DoWake(order: seq<nat>)

  function Do(s: State, step: Step): State {
    match step
    case DoAccept(id) => StepAccept(s, id)
    case DoMessage(id, m) => StepMessage(s, id, m)
    case DoAgentReceive => StepAgentReceive(s)
    case DoTake(id) => StepTake(s, id)
    case DoWrite(id, ok) => StepWrite(s, id, ok)
    case DoLocalClose(id) => StepLocalClose(s, id)
    case DoLocalOver(id) => StepLocalOver(s, id)
    case DoEdgeReceive => StepEdgeReceive(s)
    case DoCloseByAgent(id, answer) => s.(edge := CloseByAgent(s.edge, id, answer))
    case DoCloseByVisitor(id) => s.(edge := CloseByVisitor(s.edge, id))
    case DoWake(order) => if forall id :: id in s.edge.visitors ==> id in order then s.(edge := Wake(s.edge, order)) else s
  }

  /** The state after a run; a step that is not enabled changes nothing. */
  function Run(steps: seq<Step>): State {
    if steps == [] then Start else Do(Run(steps[..|steps| - 1]), steps[|steps| - 1])
  }
}
