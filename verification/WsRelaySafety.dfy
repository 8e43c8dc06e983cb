/** What every run of the WebSocket relay keeps: bounded buffers, in-order relay, no silent loss. */
module WsRelaySafety {
  import opened Limits
  import opened Sums
  import opened WsRelay

  // ---------------------------------------------------------------- counting

  function DataOf(f: Frame, id: nat): seq<Bytes> { if f.WsMessage? && f.id == id then [f.data] else [] }

  /** The messages of stream `id` in a channel, in order. */
  function MsgsOf(w: seq<Frame>, id: nat): seq<Bytes> { if w == [] then [] else DataOf(w[0], id) + MsgsOf(w[1..], id) }

  function AckOf(a: Ack, id: nat): nat { if a.id == id then a.n else 0 }

  function AckSum(w: seq<Ack>, id: nat): nat { if w == [] then 0 else AckOf(w[0], id) + AckSum(w[1..], id) }

  lemma {:induction false} SizeConcat(a: seq<Bytes>, b: seq<Bytes>)
    ensures Size(a + b) == Size(a) + Size(b)
  {
    if a == [] {
      assert a + b == b;
    } else {
      assert (a + b)[1..] == a[1..] + b;
      SizeConcat(a[1..], b);
    }
  }

  lemma {:induction false} SizeNonNegative(a: seq<Bytes>)
    ensures Size(a) >= 0
  {
    if a != [] {
      SizeNonNegative(a[1..]);
    }
  }

  lemma {:induction false} MsgsConcat(u: seq<Frame>, v: seq<Frame>, id: nat)
    ensures MsgsOf(u + v, id) == MsgsOf(u, id) + MsgsOf(v, id)
  {
    if u == [] {
      assert u + v == v;
    } else {
      assert (u + v)[1..] == u[1..] + v;
      MsgsConcat(u[1..], v, id);
    }
  }

  lemma {:induction false} MsgsOfFrames(id: nat, msgs: seq<Bytes>, k: nat)
    ensures MsgsOf(Frames(id, msgs), k) == if k == id then msgs else []
  {
    if msgs != [] {
      assert Frames(id, msgs)[1..] == Frames(id, msgs[1..]);
      MsgsOfFrames(id, msgs[1..], k);
      if k == id {
        assert [msgs[0]] + msgs[1..] == msgs;
      }
    }
  }

  /** One frame at the end of a channel. */
  lemma OneFrame(w: seq<Frame>, f: Frame)
    ensures forall k: nat :: MsgsOf(w + [f], k) == MsgsOf(w, k) + DataOf(f, k)
  {
    forall k: nat
      ensures MsgsOf(w + [f], k) == MsgsOf(w, k) + DataOf(f, k)
    {
      MsgsConcat(w, [f], k);
      assert [f][1..] == [];
      assert MsgsOf([f], k) == DataOf(f, k) + MsgsOf([], k);
    }
  }

  lemma {:induction false} NoMsgs(w: seq<Frame>, id: nat)
    requires forall f :: f in w ==> f.id != id
    ensures MsgsOf(w, id) == []
  {
    if w != [] {
      NoMsgs(w[1..], id);
    }
  }

  lemma {:induction false} NoAcks(w: seq<Ack>, id: nat)
    requires forall a :: a in w ==> a.id != id
    ensures AckSum(w, id) == 0
  {
    if w != [] {
      NoAcks(w[1..], id);
    }
  }

  lemma {:induction false} AppendAck(w: seq<Ack>, a: Ack, id: nat)
    ensures AckSum(w + [a], id) == AckSum(w, id) + AckOf(a, id)
  {
    if w == [] {
      assert w + [a] == [a];
      assert AckSum([a], id) == AckOf(a, id) + AckSum([], id);
    } else {
      assert (w + [a])[1..] == w[1..] + [a];
      AppendAck(w[1..], a, id);
    }
  }

  // ---------------------------------------------------------------- edge invariant

  /** Buffered messages exist only for an open visitor whose credit is used up, and the attachment says so. */
  ghost predicate VisitorOk(e: Edge, id: nat)
    requires id in e.visitors
  {
    var v, buffer := e.visitors[id], BufferOf(e, id);
    && v.outstanding <= WS_MSG_CREDIT
    && |buffer| <= WS_MSG_CREDIT
    && (buffer != [] ==> !v.closed && v.outstanding == WS_MSG_CREDIT)
    && (!v.closed ==> (v.pending <==> buffer != []))
    && v.sent <= v.received
    && (!v.closed ==> v.sent + buffer == v.received)
  }

  ghost predicate EdgeOk(e: Edge) {
    && (forall id :: id in e.visitors ==> VisitorOk(e, id))
    && (forall id :: id in e.buffers ==> id in e.visitors && e.buffers[id] != [])
    && (forall f :: f in e.out ==> f.id in e.visitors)
    && e.buffered == SumOver(e.buffers, Size)
    && e.buffered <= WS_BUFFER_BUDGET
  }

  /** An edge operation on visitor `id` that put `more` on the channel and used `n` acknowledgements. */
  ghost predicate Moves(e: Edge, f: Edge, id: nat, more: seq<Bytes>, n: int)
    requires id in e.visitors
  {
    && id in f.visitors
    && f.visitors.Keys == e.visitors.Keys
    && (forall k :: k in e.visitors && k != id ==> f.visitors[k] == e.visitors[k] && BufferOf(f, k) == BufferOf(e, k))
    && f.visitors[id].sent == e.visitors[id].sent + more
    && f.visitors[id].outstanding == e.visitors[id].outstanding - n + |more|
    && (forall k: nat :: MsgsOf(f.out, k) == MsgsOf(e.out, k) + (if k == id then more else []))
  }

  lemma DropSum(buffers: map<nat, seq<Bytes>>, id: nat)
    ensures SumOver(buffers - {id}, Size) == SumOver(buffers, Size) - Size(if id in buffers then buffers[id] else [])
  {
    if id in buffers {
      SumRemove(buffers, Size, id);
    } else {
      assert buffers - {id} == buffers;
    }
  }

  lemma ClosedVisitor(e: Edge, g: Edge, id: nat, k: nat)
    requires k in e.visitors && k in g.visitors && VisitorOk(e, k)
    requires if k == id then g.visitors[k] == e.visitors[k].(closed := true, pending := g.visitors[k].pending) && BufferOf(g, k) == []
      else g.visitors[k] == e.visitors[k] && BufferOf(g, k) == BufferOf(e, k)
    ensures VisitorOk(g, k)
  {
  }

  /** Closing a visitor drops exactly its buffer. */
  lemma CloseKeeps(e: Edge, id: nat, pending: bool, tell: bool)
    requires EdgeOk(e) && id in e.visitors
    ensures var f := Unbuffered(WithVisitor(e, id, e.visitors[id].(closed := true, pending := pending)), id);
      var g := f.(out := if tell then f.out + [WsClose(id)] else f.out);
      EdgeOk(g) && Moves(e, g, id, [], 0)
  {
    hide SumOver, Size, MsgsOf, VisitorOk;
    DropSum(e.buffers, id);
    SizeNonNegative(BufferOf(e, id));
    OneFrame(e.out, WsClose(id));
    var f := Unbuffered(WithVisitor(e, id, e.visitors[id].(closed := true, pending := pending)), id);
    var g := f.(out := if tell then f.out + [WsClose(id)] else f.out);
    assert BufferOf(g, id) == [];
    assert forall k :: k != id ==> BufferOf(g, k) == BufferOf(e, k);
    forall k | k in e.visitors
      ensures VisitorOk(g, k)
    {
      assert VisitorOk(e, k);
      ClosedVisitor(e, g, id, k);
    }
  }

  lemma SendKeeps(e: Edge, id: nat, m: Bytes)
    requires EdgeOk(e) && id in e.visitors && !e.visitors[id].closed
    requires e.visitors[id].outstanding < WS_MSG_CREDIT && BufferOf(e, id) == []
    ensures var v := e.visitors[id];
      var f := WithVisitor(e, id, v.(outstanding := v.outstanding + 1, received := v.received + [m], sent := v.sent + [m])).(
        out := e.out + [WsMessage(id, m)]);
      EdgeOk(f) && Moves(e, f, id, [m], 0)
  {
    hide SumOver, Size, MsgsOf;
    OneFrame(e.out, WsMessage(id, m));
    assert forall k :: k in e.visitors ==> VisitorOk(e, k);
  }

  lemma BufferKeeps(e: Edge, id: nat, m: Bytes)
    requires EdgeOk(e) && id in e.visitors && !e.visitors[id].closed
    requires e.visitors[id].outstanding >= WS_MSG_CREDIT || BufferOf(e, id) != []
    requires |BufferOf(e, id)| < WS_MSG_CREDIT && e.buffered + |m| <= WS_BUFFER_BUDGET
    ensures var v := e.visitors[id];
      var f := WithVisitor(e, id, v.(pending := true, received := v.received + [m])).(
        buffers := e.buffers[id := BufferOf(e, id) + [m]], buffered := e.buffered + |m|);
      EdgeOk(f) && Moves(e, f, id, [], 0)
  {
    hide SumOver, MsgsOf, Size;
    var buffer := BufferOf(e, id);
    SumUpdate(e.buffers, Size, id, buffer + [m]);
    SizeConcat(buffer, [m]);
    OneSize(m);
    assert VisitorOk(e, id);
    assert forall k :: k in e.visitors ==> VisitorOk(e, k);
  }

  lemma OneSize(m: Bytes)
    ensures Size([m]) == |m| && Size([]) == 0
  {
    assert [m][1..] == [];
  }

  lemma MessageKeeps(e: Edge, id: nat, m: Bytes)
    requires EdgeOk(e) && id in e.visitors
    ensures EdgeOk(OnMessage(e, id, m))
    ensures exists more :: Moves(e, OnMessage(e, id, m), id, more, 0)
    ensures OnMessage(e, id, m).visitors[id].closed
            || OnMessage(e, id, m).visitors[id].received == e.visitors[id].received + [m]
  {
    hide SumOver, MsgsOf, EdgeOk, Moves, Size;
    var v, buffer := e.visitors[id], BufferOf(e, id);
    if v.closed {
      StillKeeps(e, id);
    } else if |m| > MAX_WS_MESSAGE {
      CloseKeeps(e, id, false, true);
    } else if v.outstanding < WS_MSG_CREDIT && buffer == [] {
      SendKeeps(e, id, m);
    } else if |buffer| >= WS_MSG_CREDIT || e.buffered + |m| > WS_BUFFER_BUDGET {
      CloseKeeps(e, id, false, true);
    } else {
      BufferKeeps(e, id, m);
    }
  }

  lemma StillKeeps(e: Edge, id: nat)
    requires id in e.visitors
    ensures Moves(e, e, id, [], 0)
  {
  }

  /** What an ACK does to its own visitor and buffer. */
  lemma AckOwn(e: Edge, id: nat, n: nat)
    requires id in e.visitors && VisitorOk(e, id)
    ensures Released(e.visitors[id], BufferOf(e, id), n) <= |BufferOf(e, id)|
    ensures var f := OnAck(e, id, n);
      VisitorOk(f, id) && BufferOf(f, id) == BufferOf(e, id)[Released(e.visitors[id], BufferOf(e, id), n)..]
      && (id in f.buffers ==> BufferOf(f, id) != [])
  {
    var buffer := BufferOf(e, id);
    var k := Released(e.visitors[id], buffer, n);
    assert buffer == buffer[..k] + buffer[k..];
    assert e.visitors[id].sent + buffer == e.visitors[id].sent + buffer[..k] + buffer[k..];
  }

  lemma AckSums(e: Edge, id: nat, n: nat)
    requires id in e.visitors && e.buffered == SumOver(e.buffers, Size)
    ensures var f := OnAck(e, id, n); f.buffered == SumOver(f.buffers, Size) && f.buffered <= e.buffered
  {
    hide SumOver, Size;
    var buffer := BufferOf(e, id);
    var k := Released(e.visitors[id], buffer, n);
    assert buffer == buffer[..k] + buffer[k..];
    SizeConcat(buffer[..k], buffer[k..]);
    SizeNonNegative(buffer[..k]);
    OneSize([]);
    if buffer[k..] == [] {
      DropSum(e.buffers, id);
    } else {
      SumUpdate(e.buffers, Size, id, buffer[k..]);
    }
  }

  lemma AckOut(e: Edge, id: nat, n: nat)
    requires id in e.visitors && forall f :: f in e.out ==> f.id in e.visitors
    ensures forall f :: f in OnAck(e, id, n).out ==> f.id in e.visitors
    ensures forall j: nat :: MsgsOf(OnAck(e, id, n).out, j)
              == MsgsOf(e.out, j) + (if j == id then BufferOf(e, id)[..Released(e.visitors[id], BufferOf(e, id), n)] else [])
  {
    hide MsgsOf;
    var msgs := BufferOf(e, id)[..Released(e.visitors[id], BufferOf(e, id), n)];
    forall j: nat
      ensures MsgsOf(OnAck(e, id, n).out, j) == MsgsOf(e.out, j) + (if j == id then msgs else [])
    {
      MsgsConcat(e.out, Frames(id, msgs), j);
      MsgsOfFrames(id, msgs, j);
    }
  }

  lemma AckKeeps(e: Edge, id: nat, n: nat)
    requires EdgeOk(e) && id in e.visitors && n <= e.visitors[id].outstanding
    ensures EdgeOk(OnAck(e, id, n))
    ensures Moves(e, OnAck(e, id, n), id, BufferOf(e, id)[..Released(e.visitors[id], BufferOf(e, id), n)], n)
  {
    hide SumOver, MsgsOf, Size, Released, Frames;
    AckOwn(e, id, n);
    AckSums(e, id, n);
    AckOut(e, id, n);
    assert forall j :: j in e.visitors ==> VisitorOk(e, j);
  }

  /** Losing the buffers breaks only the visitors that had one. */
  ghost predicate Waking(e: Edge, f: Edge, done: seq<nat>) {
    && f.visitors.Keys == e.visitors.Keys && f.buffers == map[] && f.buffered == 0
    && (forall g :: g in f.out ==> g.id in f.visitors)
    && (forall k: nat :: MsgsOf(f.out, k) == MsgsOf(e.out, k))
    && (forall id :: id in e.visitors ==>
          && f.visitors[id] == e.visitors[id].(closed := f.visitors[id].closed, pending := f.visitors[id].pending)
          && (e.visitors[id].closed ==> f.visitors[id].closed)
          && (id in done && BufferOf(e, id) != [] ==> f.visitors[id].closed)
          && (BufferOf(e, id) == [] ==> f.visitors[id] == e.visitors[id])
          && (!f.visitors[id].closed ==> f.visitors[id].pending == e.visitors[id].pending))
  }

  /** An attachment's pending mark tells, for an open visitor, whether a buffer was lost. */
  ghost predicate Marked(e: Edge) {
    forall id :: id in e.visitors && !e.visitors[id].closed ==> (e.visitors[id].pending <==> BufferOf(e, id) != [])
  }

  ghost predicate ClosedWhenBuffered(e: Edge) { forall id :: id in e.visitors && BufferOf(e, id) != [] ==> !e.visitors[id].closed }

  lemma WakeStep(e: Edge, f: Edge, done: seq<nat>, id: nat)
    requires Marked(e) && ClosedWhenBuffered(e) && Waking(e, f, done)
    ensures id in f.visitors && f.visitors[id].pending && !f.visitors[id].closed ==> Waking(e, Fail(f, id), done + [id])
    ensures !(id in f.visitors && f.visitors[id].pending && !f.visitors[id].closed) ==> Waking(e, f, done + [id])
  {
    hide MsgsOf;
    OneFrame(f.out, WsClose(id));
    assert BufferOf(f, id) == [];
    OneSize([]);
    assert f.buffers - {id} == map[];
  }

  lemma {:induction false} WakeLoop(e: Edge, order: seq<nat>)
    requires Marked(e) && ClosedWhenBuffered(e) && forall g :: g in e.out ==> g.id in e.visitors
    ensures Waking(e, Wake(e, order), order)
  {
    hide MsgsOf, Fail, Marked, ClosedWhenBuffered;
    if order != [] {
      var init, id := order[..|order| - 1], order[|order| - 1];
      WakeLoop(e, init);
      WakeStep(e, Wake(e, init), init, id);
      assert init + [id] == order;
    }
  }

  /** After waking, every visitor is closed or lost nothing; the edge is consistent again. */
  lemma WakeKeeps(e: Edge, order: seq<nat>)
    requires EdgeOk(e) && forall id :: id in e.visitors ==> id in order
    ensures EdgeOk(Wake(e, order)) && Waking(e, Wake(e, order), order)
  {
    hide MsgsOf, Size, WakeOver;
    assert forall k :: k in e.visitors ==> VisitorOk(e, k);
    WakeLoop(e, order);
  }

  // ---------------------------------------------------------------- the agent's stream

  function Writing(l: Local): seq<Bytes> { if l.writing.Some? then [l.writing.value] else [] }

  /** The agent's copy of a stream; `flight` is what is still in the channel. */
  ghost predicate LocalOk(v: Visitor, l: Local, flight: seq<Bytes>, acks: nat) {
    && |flight| + l.unacked + acks <= v.outstanding
    && l.unacked >= |l.inbox| + |Writing(l)|
    && !l.overrun
    && (!l.dropped ==> l.delivered + Writing(l) + l.inbox + flight == v.sent)
    && l.delivered <= v.sent
    && (l.dropped ==> l.closing || l.over)
    && (l.dropped && l.writing.Some? ==> l.doomed)
    && (l.over ==> l.writing.None?)
  }

  ghost predicate IdsOk(s: State) {
    && s.locals.Keys == s.edge.visitors.Keys
    && (forall a :: a in s.acks ==> a.id in s.edge.visitors)
  }

  ghost predicate StreamOk(s: State, id: nat) {
    id in s.edge.visitors && id in s.locals ==>
      LocalOk(s.edge.visitors[id], s.locals[id], MsgsOf(s.edge.out, id), AckSum(s.acks, id))
  }

  ghost predicate Inv(s: State) { EdgeOk(s.edge) && IdsOk(s) && forall id: nat :: StreamOk(s, id) }

  /** An edge operation carries over to every stream. */
  lemma MovesKeep(s: State, f: Edge, id: nat, more: seq<Bytes>, acks: seq<Ack>, n: int, k: nat)
    requires Inv(s) && id in s.edge.visitors && Moves(s.edge, f, id, more, n)
    requires n >= 0 && AckSum(acks, k) == AckSum(s.acks, k) - (if k == id then n else 0)
    ensures StreamOk(s.(edge := f, acks := acks), k)
  {
    hide EdgeOk, MsgsOf, AckSum;
    assert StreamOk(s, k);
    if k == id && id in s.locals && !s.locals[id].dropped {
      var l := s.locals[id];
      assert l.delivered + Writing(l) + l.inbox + (MsgsOf(s.edge.out, id) + more)
          == (l.delivered + Writing(l) + l.inbox + MsgsOf(s.edge.out, id)) + more;
    }
  }

  /** Channel and acknowledgements never exceed the credit in use. */
  lemma AckWithin(s: State)
    requires Inv(s) && s.acks != []
    ensures s.acks[0].id in s.edge.visitors && s.acks[0].n <= s.edge.visitors[s.acks[0].id].outstanding
    ensures forall k :: AckSum(s.acks[1..], k) == AckSum(s.acks, k) - AckOf(s.acks[0], k)
  {
    hide EdgeOk, MsgsOf;
    var id := s.acks[0].id;
    assert s.acks[0] in s.acks;
    assert StreamOk(s, id);
  }

  lemma EdgeReceiveKeeps(s: State, k: nat)
    requires Inv(s)
    ensures var r := StepEdgeReceive(s); EdgeOk(r.edge) && IdsOk(r) && StreamOk(r, k)
  {
    hide EdgeOk, MsgsOf, AckSum, OnAck, BufferOf;
    if s.acks != [] {
      AckWithin(s);
      var id, n := s.acks[0].id, s.acks[0].n;
      AckKeeps(s.edge, id, n);
      var more := BufferOf(s.edge, id)[..Released(s.edge.visitors[id], BufferOf(s.edge, id), n)];
      MovesKeep(s, OnAck(s.edge, id, n), id, more, s.acks[1..], n, k);
    } else {
      assert StreamOk(s, k);
    }
  }

  lemma EdgeStepKeeps(s: State, step: Step, k: nat)
    requires Inv(s) && (step.DoMessage? || step.DoCloseByAgent? || step.DoCloseByVisitor?)
    ensures var r := Do(s, step); EdgeOk(r.edge) && IdsOk(r) && StreamOk(r, k)
  {
    hide EdgeOk, MsgsOf, AckSum, OnMessage, BufferOf;
    assert StreamOk(s, k);
    var id := step.id;
    if id in s.edge.visitors {
      match step
      case DoMessage(_, m) =>
        MessageKeeps(s.edge, id, m);
        var more :| Moves(s.edge, OnMessage(s.edge, id, m), id, more, 0);
        MovesKeep(s, OnMessage(s.edge, id, m), id, more, s.acks, 0, k);
      case DoCloseByAgent(_, answer) =>
        if !s.edge.visitors[id].closed {
          CloseKeeps(s.edge, id, false, answer);
          MovesKeep(s, CloseByAgent(s.edge, id, answer), id, [], s.acks, 0, k);
        }
      case DoCloseByVisitor(_) =>
        if !s.edge.visitors[id].closed {
          CloseKeeps(s.edge, id, s.edge.visitors[id].pending, true);
          MovesKeep(s, CloseByVisitor(s.edge, id), id, [], s.acks, 0, k);
        }
    }
  }

  lemma WakeStepKeeps(s: State, order: seq<nat>, k: nat)
    requires Inv(s)
    ensures var r := Do(s, DoWake(order)); EdgeOk(r.edge) && IdsOk(r) && StreamOk(r, k)
  {
    hide EdgeOk, MsgsOf, AckSum, Wake, BufferOf;
    assert StreamOk(s, k);
    if forall id :: id in s.edge.visitors ==> id in order {
      WakeKeeps(s.edge, order);
    }
  }

  lemma AcceptKeeps(s: State, id: nat, k: nat)
    requires Inv(s)
    ensures var r := StepAccept(s, id); EdgeOk(r.edge) && IdsOk(r) && StreamOk(r, k)
  {
    hide SumOver, MsgsOf, AckSum, Size;
    assert StreamOk(s, k);
    if id !in s.edge.visitors && id !in s.locals {
      NoMsgs(s.edge.out, id);
      NoAcks(s.acks, id);
      assert forall j :: j in s.edge.visitors ==> VisitorOk(s.edge, j);
    }
  }

  lemma PopOut(e: Edge)
    requires EdgeOk(e) && e.out != []
    ensures EdgeOk(e.(out := e.out[1..])) && e.out[0].id in e.visitors
    ensures forall k :: MsgsOf(e.out, k) == DataOf(e.out[0], k) + MsgsOf(e.out[1..], k)
  {
    hide SumOver, Size;
    assert e.out[0] in e.out;
    assert forall j :: j in e.visitors ==> VisitorOk(e, j);
  }

  lemma AgentReceiveKeeps(s: State, k: nat)
    requires Inv(s)
    ensures var r := StepAgentReceive(s); EdgeOk(r.edge) && IdsOk(r) && StreamOk(r, k)
  {
    hide EdgeOk, MsgsOf, AckSum;
    assert StreamOk(s, k);
    if s.edge.out != [] {
      var f := s.edge.out[0];
      PopOut(s.edge);
      CreditBound(s, k);
      if k == f.id {
        ReceiveLocal(s.edge.visitors[k], s.locals[k], f, MsgsOf(s.edge.out[1..], k), AckSum(s.acks, k));
      } else {
        assert [] + MsgsOf(s.edge.out[1..], k) == MsgsOf(s.edge.out[1..], k);
      }
    }
  }

  lemma CreditBound(s: State, k: nat)
    requires EdgeOk(s.edge)
    ensures k in s.edge.visitors ==> s.edge.visitors[k].outstanding <= WS_MSG_CREDIT
  {
    if k in s.edge.visitors {
      assert VisitorOk(s.edge, k);
    }
  }

  /** One frame reaches the agent's stream: its tolerance of WS_MSG_TOLERANCE is never used up. */
  lemma ReceiveLocal(v: Visitor, l: Local, f: Frame, flight: seq<Bytes>, acks: nat)
    requires LocalOk(v, l, DataOf(f, f.id) + flight, acks) && v.outstanding <= WS_MSG_CREDIT
    ensures LocalOk(v, OnLocalFrame(l, f), flight, acks)
  {
    if f.WsMessage? {
      assert l.delivered + Writing(l) + l.inbox + ([f.data] + flight) == l.delivered + Writing(l) + (l.inbox + [f.data]) + flight;
    } else {
      assert [] + flight == flight;
    }
  }

  lemma LocalStepKeeps(s: State, step: Step, k: nat)
    requires Inv(s) && (step.DoTake? || step.DoWrite? || step.DoLocalClose? || step.DoLocalOver?)
    ensures var r := Do(s, step); EdgeOk(r.edge) && IdsOk(r) && StreamOk(r, k)
  {
    hide EdgeOk, MsgsOf, AckSum, LocalOk;
    assert StreamOk(s, k);
    var id := step.id;
    if id in s.locals {
      assert StreamOk(s, id);
      AppendAck(s.acks, Ack(id, 1), k);
      LocalMoves(s.edge.visitors[id], s.locals[id], MsgsOf(s.edge.out, id), AckSum(s.acks, id));
    }
  }

  lemma LocalMoves(v: Visitor, l: Local, flight: seq<Bytes>, acks: nat)
    requires LocalOk(v, l, flight, acks)
    ensures CanTake(l) ==> LocalOk(v, TakeMessage(l), flight, acks)
    ensures l.writing.Some? ==> forall ok :: LocalOk(v, WriteEnded(l, ok), flight, if ok && !l.doomed then acks + 1 else acks)
    ensures LocalOk(v, l.(closing := true), flight, acks)
    ensures l.writing.None? ==> LocalOk(v, l.(over := true, dropped := l.dropped || l.inbox != []), flight, acks)
  {
    if l.inbox != [] {
      assert l.delivered + [] + l.inbox == l.delivered + [l.inbox[0]] + l.inbox[1..];
    }
    if l.writing.Some? {
      assert l.delivered + Writing(l) + l.inbox + flight == (l.delivered + [l.writing.value]) + [] + l.inbox + flight;
      assert !l.dropped ==> l.delivered + [l.writing.value] <= v.sent;
    }
  }

  // ---------------------------------------------------------------- runs

  lemma StepKeeps(s: State, step: Step)
    requires Inv(s)
    ensures Inv(Do(s, step))
  {
    hide EdgeOk, IdsOk, StreamOk, Do;
    forall k: nat
      ensures EdgeOk(Do(s, step).edge) && IdsOk(Do(s, step)) && StreamOk(Do(s, step), k)
    {
      StepKeepsOne(s, step, k);
    }
    StepKeepsOne(s, step, 0);
  }

  lemma StepKeepsOne(s: State, step: Step, k: nat)
    requires Inv(s)
    ensures EdgeOk(Do(s, step).edge) && IdsOk(Do(s, step)) && StreamOk(Do(s, step), k)
  {
    hide Inv, EdgeOk, IdsOk, StreamOk, StepAccept, StepAgentReceive, StepEdgeReceive;
    match step
    case DoAccept(id) => AcceptKeeps(s, id, k);
    case DoAgentReceive => AgentReceiveKeeps(s, k);
    case DoEdgeReceive => EdgeReceiveKeeps(s, k);
    case DoWake(order) => WakeStepKeeps(s, order, k);
    case _ =>
      if step.DoMessage? || step.DoCloseByAgent? || step.DoCloseByVisitor? {
        EdgeStepKeeps(s, step, k);
      } else {
        LocalStepKeeps(s, step, k);
      }
  }

  lemma {:induction false} RunKeeps(steps: seq<Step>)
    ensures Inv(Run(steps))
  {
    hide Do;
    if steps != [] {
      RunKeeps(steps[..|steps| - 1]);
      StepKeeps(Run(steps[..|steps| - 1]), steps[|steps| - 1]);
    }
  }

  // ---------------------------------------------------------------- theorems

  /**
   * The relay refines a FIFO queue: until a visitor closes, what it sent is what went to the agent
   * followed by what is buffered; a buffer means all credit is in use, and all buffers together fit
   * the budget.
   */
  lemma RelayIsQueue(steps: seq<Step>, id: nat)
    requires id in Run(steps).edge.visitors && !Run(steps).edge.visitors[id].closed
    ensures var e := Run(steps).edge;
      && e.visitors[id].sent + BufferOf(e, id) == e.visitors[id].received
      && (BufferOf(e, id) != [] ==> e.visitors[id].outstanding == WS_MSG_CREDIT)
      && (e.visitors[id].pending <==> BufferOf(e, id) != [])
      && |BufferOf(e, id)| <= WS_MSG_CREDIT
  {
    hide Run;
    RunKeeps(steps);
    assert VisitorOk(Run(steps).edge, id);
  }

  lemma BuffersFitBudget(steps: seq<Step>)
    ensures Run(steps).edge.buffered == SumOver(Run(steps).edge.buffers, Size) <= WS_BUFFER_BUDGET
  {
    hide Run, SumOver;
    RunKeeps(steps);
  }

  /** The agent never has more than WS_MSG_CREDIT unacknowledged messages, so its tolerance never fires. */
  lemma ToleranceNeverFires(steps: seq<Step>, id: nat)
    requires id in Run(steps).locals
    ensures 0 <= Run(steps).locals[id].unacked <= WS_MSG_CREDIT && !Run(steps).locals[id].overrun
  {
    hide Run, MsgsOf, AckSum;
    RunKeeps(steps);
    var s := Run(steps);
    assert StreamOk(s, id) && VisitorOk(s.edge, id);
  }

  /** The local app reads a prefix of what the visitor sent, in order, and nothing twice. */
  lemma AppReadsInOrder(steps: seq<Step>, id: nat)
    requires id in Run(steps).locals
    ensures id in Run(steps).edge.visitors
    ensures Run(steps).locals[id].delivered <= Run(steps).edge.visitors[id].received
  {
    hide Run, MsgsOf, AckSum;
    RunKeeps(steps);
    var s := Run(steps);
    assert StreamOk(s, id) && VisitorOk(s.edge, id);
    assert s.edge.visitors[id].sent <= s.edge.visitors[id].received;
  }

  /** Waking never drops a message silently: a visitor is closed, or everything it sent had been sent on. */
  lemma WakingLosesNothingSilently(steps: seq<Step>, order: seq<nat>, id: nat)
    requires forall k :: k in Run(steps).edge.visitors ==> k in order
    requires id in Run(steps).edge.visitors
    ensures id in Wake(Run(steps).edge, order).visitors
    ensures var v, w := Run(steps).edge.visitors[id], Wake(Run(steps).edge, order).visitors[id];
      w.closed || (w == v && v.sent == v.received)
  {
    hide Run, Wake, MsgsOf;
    RunKeeps(steps);
    var e := Run(steps).edge;
    WakeKeeps(e, order);
    assert VisitorOk(e, id);
  }
}
