/**
 * Messages that get through: when a visitor may be closed, and that a conversation nobody ends is
 * delivered whole.
 */
module WsRelayDelivery {
  import opened Limits
  import opened Sums
  import opened WsRelay
  import opened WsRelaySafety

  // ---------------------------------------------------------------- verdicts

  function Waiting(e: Edge, id: nat): seq<Bytes> { if id in e.buffers then e.buffers[id] else [] }

  /** The message is too big, or can neither be sent on nor buffered. */
  predicate Refused(e: Edge, id: nat, m: Bytes)
    requires id in e.visitors
  {
    || |m| > 1048576
    || ((e.visitors[id].outstanding >= 8 || Waiting(e, id) != []) && (|Waiting(e, id)| >= 8 || e.buffered + |m| > 8388608))
  }

  /**
   * An open visitor's message closes it if and only if it is refused. Any other is received, and is
   * sent on at once or, while earlier messages or all credit are in the way, buffered last.
   */
  lemma MessageVerdict(s: State, id: nat, m: Bytes)
    requires id in s.edge.visitors && !s.edge.visitors[id].closed
    ensures var e, f := s.edge, Do(s, DoMessage(id, m)).edge;
      id in f.visitors &&
      var v, w := e.visitors[id], f.visitors[id];
      && (w.closed <==> Refused(e, id, m))
      && (w.closed ==>
            w.received == v.received && w.sent == v.sent && f.out == e.out + [WsClose(id)] && f.buffers == e.buffers - {id})
      && (!w.closed && v.outstanding < 8 && Waiting(e, id) == [] ==>
            w == v.(outstanding := v.outstanding + 1, received := v.received + [m], sent := v.sent + [m])
            && f.out == e.out + [WsMessage(id, m)] && f.buffers == e.buffers && f.buffered == e.buffered)
      && (!w.closed && !(v.outstanding < 8 && Waiting(e, id) == []) ==>
            w == v.(pending := true, received := v.received + [m])
            && f.out == e.out && f.buffers == e.buffers[id := Waiting(e, id) + [m]] && f.buffered == e.buffered + |m|)
  {
    hide Size;
  }

  /** Waking closes an open visitor exactly when it had messages buffered, and tells the agent. */
  lemma WakeVerdict(steps: seq<Step>, order: seq<nat>, id: nat)
    requires forall k :: k in Run(steps).edge.visitors ==> k in order
    requires id in Run(steps).edge.visitors
    ensures id in Do(Run(steps), DoWake(order)).edge.visitors
    ensures var v, w := Run(steps).edge.visitors[id], Do(Run(steps), DoWake(order)).edge.visitors[id];
      && (w.closed <==> v.closed || id in Run(steps).edge.buffers)
      && (id !in Run(steps).edge.buffers ==> w == v)
      && (id in Run(steps).edge.buffers ==> WsClose(id) in Do(Run(steps), DoWake(order)).edge.out)
  {
    hide Run, Wake, EdgeOk, StreamOk;
    RunKeeps(steps);
    WakeClosesBuffered(Run(steps).edge, order, id);
  }

  lemma WakeClosesBuffered(e: Edge, order: seq<nat>, id: nat)
    requires EdgeOk(e) && id in e.visitors && forall k :: k in e.visitors ==> k in order
    ensures var f := Wake(e, order);
      && id in f.visitors
      && (f.visitors[id].closed <==> e.visitors[id].closed || id in e.buffers)
      && (id !in e.buffers ==> f.visitors[id] == e.visitors[id])
      && (id in e.buffers ==> WsClose(id) in f.out)
  {
    hide WakeOver, MsgsOf, SumOver, Size;
    WakeKeeps(e, order);
    assert VisitorOk(e, id);
    if id in e.buffers {
      WakeTells(e.(buffers := map[], buffered := 0), order, id);
    }
  }

  lemma {:induction false} WakeTells(e: Edge, order: seq<nat>, id: nat)
    requires id in e.visitors && !e.visitors[id].closed && e.visitors[id].pending
    ensures var f := WakeOver(e, order);
      id in f.visitors && if id in order then WsClose(id) in f.out else f.visitors[id] == e.visitors[id]
  {
    hide Size;
    if order != [] {
      WakeTells(e, order[..|order| - 1], id);
      assert order == order[..|order| - 1] + [order[|order| - 1]];
    }
  }

  lemma {:induction false} WakePasses(e: Edge, order: seq<nat>, id: nat)
    requires id in e.visitors && !e.visitors[id].pending
    ensures var f := WakeOver(e, order);
      id in f.visitors && f.visitors[id] == e.visitors[id] && (WsClose(id) in f.out ==> WsClose(id) in e.out)
  {
    hide Size;
    if order != [] {
      WakePasses(e, order[..|order| - 1], id);
    }
  }

  // ---------------------------------------------------------------- conversations

  /**
   * The steps that end a conversation: a refused message, a close by either side or by the local app,
   * the end of the agent's stream, a failed local write, waking with messages buffered.
   */
  predicate Ends(s: State, step: Step, id: nat) {
    match step
    case DoMessage(k, m) => k == id && id in s.edge.visitors && Refused(s.edge, id, m)
    case DoWrite(k, ok) => k == id && !ok
    case DoLocalClose(k) => k == id
    case DoLocalOver(k) => k == id
    case DoCloseByAgent(k, _) => k == id
    case DoCloseByVisitor(k) => k == id
    case DoWake(_) => id in s.edge.buffers
    case _ => false
  }

  ghost predicate Spared(steps: seq<Step>, id: nat) {
    forall i :: 0 <= i < |steps| ==> !Ends(Run(steps[..i]), steps[i], id)
  }

  /** Both ends live, and all credit in use is on its way, queued at the agent, or coming back. */
  ghost predicate Unbroken(s: State, id: nat) {
    id in s.edge.visitors && id in s.locals ==>
      var v, l := s.edge.visitors[id], s.locals[id];
      && !v.closed && !l.closing && !l.dropped && !l.over && !(l.writing.Some? && l.doomed)
      && WsClose(id) !in s.edge.out
      && v.outstanding == |MsgsOf(s.edge.out, id)| + l.unacked + AckSum(s.acks, id)
      && l.unacked == |l.inbox| + |Writing(l)|
  }

  /** An edge operation that leaves the visitor open and tells the agent of no close. */
  lemma MovesUnbroken(s: State, f: Edge, k: nat, more: seq<Bytes>, acks: seq<Ack>, n: int, id: nat)
    requires Unbroken(s, id) && k in s.edge.visitors && Moves(s.edge, f, k, more, n)
    requires AckSum(acks, id) == AckSum(s.acks, id) - (if id == k then n else 0)
    requires k == id ==> !f.visitors[id].closed
    requires WsClose(id) in f.out ==> WsClose(id) in s.edge.out
    ensures Unbroken(s.(edge := f, acks := acks), id)
  {
    hide MsgsOf, AckSum;
  }

  lemma AcceptUnbroken(s: State, k: nat, id: nat)
    requires Inv(s) && Unbroken(s, id)
    ensures Unbroken(StepAccept(s, k), id)
  {
    hide SumOver, Size;
    if k == id && id !in s.edge.visitors {
      NoMsgs(s.edge.out, id);
      NoAcks(s.acks, id);
    }
  }

  lemma MessageUnbroken(s: State, k: nat, m: Bytes, id: nat)
    requires Inv(s) && Unbroken(s, id) && !Ends(s, DoMessage(k, m), id)
    ensures Unbroken(StepMessage(s, k, m), id)
  {
    hide EdgeOk, StreamOk, MsgsOf, AckSum, Moves, OnMessage;
    if k in s.edge.visitors && id in s.locals {
      var f := OnMessage(s.edge, k, m);
      MessageKeeps(s.edge, k, m);
      var more :| Moves(s.edge, f, k, more, 0);
      MessageTells(s.edge, k, m);
      if k == id && id in s.edge.visitors {
        MessageVerdict(s, id, m);
      }
      MovesUnbroken(s, f, k, more, s.acks, 0, id);
    }
  }

  lemma MessageTells(e: Edge, k: nat, m: Bytes)
    requires k in e.visitors
    ensures var f := OnMessage(e, k, m);
      forall id: nat :: WsClose(id) in f.out && WsClose(id) !in e.out ==> id == k && f.visitors[k].closed
  {
    hide Size;
  }

  lemma ReceiveUnbroken(s: State, id: nat)
    requires Inv(s) && Unbroken(s, id)
    ensures Unbroken(StepAgentReceive(s), id)
  {
    hide EdgeOk, AckSum, MsgsOf;
    if s.edge.out != [] {
      PopOut(s.edge);
      assert s.edge.out[0] in s.edge.out;
      CreditBound(s, id);
    }
  }

  lemma LocalUnbroken(s: State, step: Step, id: nat)
    requires Inv(s) && Unbroken(s, id) && !Ends(s, step, id)
    requires step.DoTake? || step.DoWrite? || step.DoLocalClose? || step.DoLocalOver?
    ensures Unbroken(Do(s, step), id)
  {
    hide EdgeOk, StreamOk, AckSum, MsgsOf;
    AppendAck(s.acks, Ack(step.id, 1), id);
  }

  lemma AckUnbroken(s: State, id: nat)
    requires Inv(s) && Unbroken(s, id)
    ensures Unbroken(StepEdgeReceive(s), id)
  {
    hide EdgeOk, StreamOk, AckSum, MsgsOf, Moves, OnAck;
    if s.acks != [] {
      AckWithin(s);
      var k, n := s.acks[0].id, s.acks[0].n;
      AckKeeps(s.edge, k, n);
      AckLeavesOpen(s.edge, k, n);
      MovesUnbroken(s, OnAck(s.edge, k, n), k, BufferOf(s.edge, k)[..Released(s.edge.visitors[k], BufferOf(s.edge, k), n)], s.acks[1..], n, id);
    }
  }

  lemma AckLeavesOpen(e: Edge, k: nat, n: nat)
    requires k in e.visitors && EdgeOk(e)
    ensures OnAck(e, k, n).visitors[k].closed == e.visitors[k].closed
    ensures forall id: nat :: WsClose(id) in OnAck(e, k, n).out ==> WsClose(id) in e.out
  {
    hide Size;
  }

  lemma CloseUnbroken(s: State, step: Step, id: nat)
    requires Inv(s) && Unbroken(s, id) && !Ends(s, step, id) && (step.DoCloseByAgent? || step.DoCloseByVisitor?)
    ensures Unbroken(Do(s, step), id)
  {
    hide EdgeOk, StreamOk, MsgsOf, AckSum, Moves, Size;
    var k := step.id;
    if k in s.edge.visitors && !s.edge.visitors[k].closed {
      var pending := if step.DoCloseByAgent? then false else s.edge.visitors[k].pending;
      CloseKeeps(s.edge, k, pending, if step.DoCloseByAgent? then step.answer else true);
      MovesUnbroken(s, Do(s, step).edge, k, [], s.acks, 0, id);
    }
  }

  lemma WakeUnbroken(s: State, order: seq<nat>, id: nat)
    requires Inv(s) && Unbroken(s, id) && !Ends(s, DoWake(order), id)
    ensures Unbroken(Do(s, DoWake(order)), id)
  {
    hide AckSum, MsgsOf, SumOver, Size, WakeOver;
    if (forall k :: k in s.edge.visitors ==> k in order) && id in s.edge.visitors && id in s.locals {
      WakeKeeps(s.edge, order);
      assert VisitorOk(s.edge, id);
      WakePasses(s.edge.(buffers := map[], buffered := 0), order, id);
    }
  }

  lemma StepUnbroken(s: State, step: Step, id: nat)
    requires Inv(s) && Unbroken(s, id) && !Ends(s, step, id)
    ensures Unbroken(Do(s, step), id)
  {
    hide Inv, Unbroken, StepAccept, StepMessage, StepAgentReceive, StepEdgeReceive, Ends;
    match step
    case DoAccept(k) => AcceptUnbroken(s, k, id);
    case DoMessage(k, m) => MessageUnbroken(s, k, m, id);
    case DoAgentReceive => ReceiveUnbroken(s, id);
    case DoEdgeReceive => AckUnbroken(s, id);
    case DoWake(order) => WakeUnbroken(s, order, id);
    case _ =>
      if step.DoCloseByAgent? || step.DoCloseByVisitor? {
        CloseUnbroken(s, step, id);
      } else {
        LocalUnbroken(s, step, id);
      }
  }

  lemma {:induction false} RunUnbroken(steps: seq<Step>, id: nat)
    requires Spared(steps, id)
    ensures Unbroken(Run(steps), id)
  {
    hide Do, Ends;
    if steps != [] {
      var init := steps[..|steps| - 1];
      assert Spared(init, id) by { SparedPrefix(steps, id); }
      RunUnbroken(init, id);
      RunKeeps(init);
      StepUnbroken(Run(init), steps[|steps| - 1], id);
    }
  }

  lemma SparedPrefix(steps: seq<Step>, id: nat)
    requires Spared(steps, id) && steps != []
    ensures Spared(steps[..|steps| - 1], id)
  {
    hide Ends, Run;
    var init := steps[..|steps| - 1];
    forall i | 0 <= i < |init|
      ensures !Ends(Run(init[..i]), init[i], id)
    {
      assert init[..i] == steps[..i];
    }
  }

  /**
   * A conversation nobody ends is delivered: the visitor stays open, every message it sent is with the
   * app, with the agent, on its way or buffered, in that order, and once the channels are empty and
   * the agent has nothing left to write, none is buffered either.
   */
  lemma WholeConversationIsDelivered(steps: seq<Step>, id: nat)
    requires Spared(steps, id) && id in Run(steps).edge.visitors && id in Run(steps).locals
    ensures var s := Run(steps); var v, l := s.edge.visitors[id], s.locals[id];
      && !v.closed && !l.closing && !l.over
      && l.delivered + (if l.writing.Some? then [l.writing.value] else []) + l.inbox + MsgsOf(s.edge.out, id) + Waiting(s.edge, id)
         == v.received
      && (MsgsOf(s.edge.out, id) == [] && AckSum(s.acks, id) == 0 && l.inbox == [] && l.writing.None? ==>
            l.delivered == v.received && Waiting(s.edge, id) == [])
  {
    hide Run, Spared, MsgsOf, AckSum;
    RunUnbroken(steps, id);
    RunKeeps(steps);
    assert StreamOk(Run(steps), id) && VisitorOk(Run(steps).edge, id);
  }

  /** The relay keeps moving: an upgrade opens both ends, the agent takes each frame, pumpEdge each message, the edge each ACK. */
  lemma RelayMoves(s: State, id: nat)
    ensures id !in s.edge.visitors && id !in s.locals ==>
      var r := Do(s, DoAccept(id));
      id in r.edge.visitors && r.edge.visitors[id] == Visitor(0, false, false, [], [])
      && id in r.locals && r.locals[id] == Local(0, [], None, false, [], false, false, false, false)
    ensures s.edge.out != [] && s.edge.out[0].id == id && id in s.locals ==>
      var l, r := s.locals[id], Do(s, DoAgentReceive);
      && r.edge.out == s.edge.out[1..] && id in r.locals
      && match s.edge.out[0]
         case WsClose(_) => r.locals[id] == l.(closing := true)
         case WsMessage(_, data) =>
           if l.over then r.locals[id] == l.(dropped := true)
           else if l.unacked >= 16 then r.locals[id] == l.(closing := true, dropped := true, overrun := true)
           else r.locals[id] == l.(unacked := l.unacked + 1, inbox := l.inbox + [data])
    ensures id in s.locals && !s.locals[id].over && s.locals[id].writing.None? && s.locals[id].inbox != [] ==>
      var l, r := s.locals[id], Do(s, DoTake(id)).locals;
      id in r && r[id] == l.(inbox := l.inbox[1..], writing := Some(l.inbox[0]), doomed := l.closing)
    ensures id in s.locals && s.locals[id].writing.Some? ==>
      var l, r := s.locals[id], Do(s, DoWrite(id, true));
      id in r.locals &&
      if l.doomed then r.acks == s.acks && r.locals[id] == l.(writing := None, closing := true, dropped := true)
      else r.acks == s.acks + [Ack(id, 1)]
           && r.locals[id] == l.(writing := None, delivered := l.delivered + [l.writing.value], unacked := l.unacked - 1)
    ensures s.acks != [] && s.acks[0].id == id && id in s.edge.visitors ==>
      var r := Do(s, DoEdgeReceive);
      r.acks == s.acks[1..] && id in r.edge.visitors && s.edge.visitors[id].sent <= r.edge.visitors[id].sent
  {
    hide OnAck;
    if s.acks != [] && s.acks[0].id == id && id in s.edge.visitors {
      AckAppends(s.edge, id, s.acks[0].n);
    }
  }

  /** An ACK only ever adds to what was sent on. */
  lemma AckAppends(e: Edge, id: nat, n: nat)
    requires id in e.visitors
    ensures id in OnAck(e, id, n).visitors && e.visitors[id].sent <= OnAck(e, id, n).visitors[id].sent
  {
    hide Size, Frames, Released;
  }
}
