/** What every run of RequestFlow keeps: credit conservation, no overflow, no starvation, byte order. */
module RequestFlowSafety {
  import opened Limits
  import opened Sums
  import opened Windows
  import opened RequestFlow

  // ---------------------------------------------------------------- sequences

  lemma {:induction false} AppendSum(w: seq<Frame>, f: Frame)
    ensures BodySum(w + [f]) == BodySum(w) + FrameLen(f)
  {
    if w == [] {
      assert w + [f] == [f];
    } else {
      assert (w + [f])[1..] == w[1..] + [f];
      AppendSum(w[1..], f);
    }
  }

  lemma {:induction false} AppendFrame(w: seq<Frame>, f: Frame, id: nat)
    ensures BodySum(w + [f]) == BodySum(w) + FrameLen(f)
    ensures BytesOf(w + [f], id) == BytesOf(w, id) + FrameBytes(f, id)
  {
    hide BodySum, FrameBytes;
    AppendSum(w, f);
    if w == [] {
      assert w + [f] == [f];
      assert BytesOf([f], id) == FrameBytes(f, id) + BytesOf([], id);
    } else {
      assert (w + [f])[1..] == w[1..] + [f];
      AppendFrame(w[1..], f, id);
      assert FrameBytes(w[0], id) + (BytesOf(w[1..], id) + FrameBytes(f, id)) == BytesOf(w, id) + FrameBytes(f, id);
    }
  }

  lemma {:induction false} AppendChunk(q: seq<Bytes>, b: Bytes)
    ensures Flat(q + [b]) == Flat(q) + b
  {
    if q == [] {
      assert q + [b] == [b];
      assert Flat([b]) == b + Flat([]);
    } else {
      assert (q + [b])[1..] == q[1..] + [b];
      AppendChunk(q[1..], b);
    }
  }

  // ---------------------------------------------------------------- stream ids

  /** Heads arrive in increasing order above `seen`, and no other frame comes before its head. */
  predicate Ordered(w: seq<Frame>, seen: nat) {
    w == [] ||
    if w[0].ReqHead? then w[0].id > seen && Ordered(w[1..], w[0].id)
    else 0 < w[0].id <= seen && Ordered(w[1..], seen)
  }

  function HighWater(w: seq<Frame>, seen: nat): nat {
    if w == [] then seen else HighWater(w[1..], if w[0].ReqHead? then w[0].id else seen)
  }

  lemma {:induction false} AppendOrdered(w: seq<Frame>, seen: nat, f: Frame)
    requires Ordered(w, seen)
    requires if f.ReqHead? then f.id > HighWater(w, seen) else 0 < f.id <= HighWater(w, seen)
    ensures Ordered(w + [f], seen)
    ensures HighWater(w + [f], seen) == if f.ReqHead? then f.id else HighWater(w, seen)
  {
    if w == [] {
      assert w + [f] == [f];
    } else {
      assert (w + [f])[1..] == w[1..] + [f];
      AppendOrdered(w[1..], if w[0].ReqHead? then w[0].id else seen, f);
    }
  }

  /** No REQ_BODY of a stream follows its REQ_END. */
  predicate EndLast(w: seq<Frame>, id: nat) {
    w == [] || ((w[0] == ReqEnd(id) ==> BytesOf(w[1..], id) == []) && EndLast(w[1..], id))
  }

  lemma {:induction false} AppendEndLast(w: seq<Frame>, id: nat, f: Frame)
    requires EndLast(w, id)
    requires FrameBytes(f, id) == [] || ReqEnd(id) !in w
    ensures EndLast(w + [f], id)
  {
    if w == [] {
      assert w + [f] == [f];
      assert BytesOf([], id) == [];
    } else {
      assert (w + [f])[1..] == w[1..] + [f];
      AppendEndLast(w[1..], id, f);
      AppendFrame(w[1..], f, id);
    }
  }

  // ---------------------------------------------------------------- invariant

  ghost predicate PumpOk(p: Pump) {
    && p.taken <= |p.body|
    && (p.hand != [] ==> p.http)
    && (p.hand == [] || |p.hand| <= MAX_BODY_CHUNK)
    && (p.http && p.endSent && !p.resEnded ==> p.taken == |p.body| && p.hand == [])
  }

  ghost predicate FeederOk(h: Feeder) {
    && h.queued == |Flat(h.queue)| + |CurBytes(h)|
    && h.ungranted < STREAM_WINDOW / 4
    && (h.Fed() ==> h.queue == [])
    && (!h.phase.Feeding? ==> h.cur.None?)
    && (h.cur.Some? ==> h.hand.None?)
    && (h.eof ==> !h.phase.Feeding?)
    && (h.hand.Some? ==> h.phase.Feeding? || h.phase.LastGrant?)
  }

  ghost predicate ShapeOk(s: State) {
    var e, a := s.edge, s.agent;
    && a.connUngranted < CONN_WINDOW / 4
    && (a.registered == {} && a.connUngranted > 0 ==> a.flushes > 0)
    && (forall id :: id in e.pumps ==> PumpOk(e.pumps[id]))
    && (forall id :: id in a.feeders ==> FeederOk(a.feeders[id]))
    && s.lost >= 0
    && !e.fault && !a.fault
  }

  ghost predicate IdsOk(s: State) {
    var e, a := s.edge, s.agent;
    && 0 < e.nextId
    && Ordered(e.wire, a.maxSeen)
    && HighWater(e.wire, a.maxSeen) < e.nextId
    && (forall id :: id in e.pumps ==> 0 < id <= HighWater(e.wire, a.maxSeen))
    && (forall id :: id in e.pumps && id > a.maxSeen ==> ReqHead(id, e.pumps[id].http) in e.wire)
    && (forall f :: f in e.wire ==> f.id in e.pumps && (f.ReqHead? ==> f.http == e.pumps[f.id].http))
    && (forall id :: id in a.registered ==> id <= a.maxSeen)
    && (forall id :: id in a.feeders ==> id <= a.maxSeen && id in e.pumps && e.pumps[id].http)
    && (forall g :: g in a.ctrl || g in a.wire ==> g.n > 0 && (g.id == 0 || g.id in a.feeders))
  }

  /**
   * While the connection is idle the persisted send credit never exceeds the true one, and falls
   * short of it exactly when a connection WINDOW has arrived since.
   */
  ghost predicate SavedOk(s: State) {
    var e := s.edge;
    && (e.pumps == map[] ==> e.conn == CONN_WINDOW && s.lost == 0 && e.saved.None?)
    && (Idle(e.pumps) && e.pumps != map[] ==> e.saved.Some? && e.saved.value <= e.conn)
    && (Idle(e.pumps) ==> (Restored(e) == e.conn <==> !e.heard))
  }

  ghost predicate CreditOk(s: State, id: nat) {
    id > 0 ==>
    && StreamTotal(s, id) <= STREAM_WINDOW
    && (id in s.edge.pumps && s.edge.pumps[id].live && s.edge.pumps[id].http && Linked(s.agent, id)
        ==> StreamTotal(s, id) == STREAM_WINDOW)
  }

  /** The app has read a prefix of what was taken off the queue, all of it while it keeps reading. */
  ghost predicate InOrder(h: Feeder) { h.got <= h.drained && (!h.discard ==> h.got == h.drained) }

  /** What the agent holds of stream `id` and what is on its way, in the order the visitor sent it. */
  ghost predicate BytesOk(s: State, id: nat) {
    var e, a := s.edge, s.agent;
    id in e.pumps && e.pumps[id].http ==>
      var p := e.pumps[id];
      && p.taken <= |p.body|
      && EndLastUnlessAnswered(s, id)
      && (ReqEnd(id) in e.wire ==> p.endSent)
      && (id > a.maxSeen ==> BytesOf(e.wire, id) + p.hand == p.body[..p.taken])
      && (id in a.feeders ==>
        var h := a.feeders[id];
        && Content(h) <= p.body
        && (id in a.registered && !h.Fed() ==>
              Content(h) + BytesOf(e.wire, id) + p.hand == p.body[..p.taken])
        && InOrder(h)
        && (h.reqEnded ==> p.endSent)
        && (h.reqEnded && !p.resEnded ==> BytesOf(e.wire, id) == [])
        && (h.reqEnded && !p.resEnded && !h.Fed() ==> Content(h) == p.body)
        && (h.eof && !p.resEnded ==> h.got == p.body))
  }

  ghost predicate EndLastUnlessAnswered(s: State, id: nat)
    requires id in s.edge.pumps
  {
    s.edge.pumps[id].resEnded || EndLast(s.edge.wire, id)
  }

  ghost predicate ConnOk(s: State) { ConnTotal(s) + s.lost == CONN_WINDOW }

  ghost predicate Global(s: State) { ShapeOk(s) && IdsOk(s) && SavedOk(s) && ConnOk(s) }

  ghost predicate StreamOk(s: State, id: nat) { CreditOk(s, id) && BytesOk(s, id) }

  ghost predicate Inv(s: State) { Global(s) && forall id: nat :: StreamOk(s, id) }

  // ---------------------------------------------------------------- opening a stream

  /** Nothing is ever negative, so no single place holds more than a window. */
  lemma Bounds(s: State)
    requires Global(s)
    ensures s.edge.conn + SumOver(s.edge.pumps, HandLen) + Or0(s.agent.readerHand)
            + SumOver(s.agent.feeders, Owed) + s.agent.connUngranted <= CONN_WINDOW
    ensures SumOver(s.edge.pumps, HandLen) >= 0 && SumOver(s.agent.feeders, Owed) >= 0
    ensures forall id :: id in s.agent.feeders ==> 0 <= Owed(s.agent.feeders[id]) <= SumOver(s.agent.feeders, Owed)
  {
    SumNonNegative(s.edge.pumps, HandLen);
    SumNonNegative(s.agent.feeders, Owed);
  }

  lemma OpenGlobal(s: State, http: bool, body: Bytes)
    requires Global(s)
    ensures Global(StepOpen(s, http, body))
  {
    hide Ordered, HighWater, BytesOf, EndLast, Flat, GrantSum, SumOver, BodySum, FeederOk;
    var s' := StepOpen(s, http, body);
    var n := s.edge.nextId;
    SumUpdate(s.edge.pumps, HandLen, n, s'.edge.pumps[n]);
    AppendOrdered(s.edge.wire, s.agent.maxSeen, ReqHead(n, http));
    AppendFrame(s.edge.wire, ReqHead(n, http), 0);
    assert s'.edge.pumps[n].live;
  }

  lemma OpenCredit(s: State, http: bool, body: Bytes, id: nat)
    requires IdsOk(s) && CreditOk(s, id)
    ensures CreditOk(StepOpen(s, http, body), id)
  {
    AppendFrame(s.edge.wire, ReqHead(s.edge.nextId, http), id);
    if id == s.edge.nextId {
      NoneOf(s, id);
    }
  }

  lemma OpenBytes(s: State, http: bool, body: Bytes, id: nat)
    requires IdsOk(s) && BytesOk(s, id)
    ensures BytesOk(StepOpen(s, http, body), id)
  {
    hide Ordered, HighWater, BytesOf, EndLast, Flat, GrantSum, SumOver, BodySum, Content, InOrder, IdsOk;
    var n := s.edge.nextId;
    var f := ReqHead(n, http);
    AppendFrame(s.edge.wire, f, id);
    if id == n {
      NextUnused(s);
      NoneOf(s, n);
      NoEnd(s.edge.wire + [f], n);
    } else {
      assert BytesOf(s.edge.wire, id) + [] == BytesOf(s.edge.wire, id);
      if EndLast(s.edge.wire, id) {
        AppendEndLast(s.edge.wire, id, f);
      }
    }
  }

  lemma NextUnused(s: State)
    requires IdsOk(s)
    ensures s.edge.nextId > s.agent.maxSeen && s.edge.nextId !in s.edge.pumps && s.edge.nextId !in s.agent.feeders
    ensures ReqEnd(s.edge.nextId) !in s.edge.wire
  {
    HighWaterAbove(s.edge.wire, s.agent.maxSeen);
  }

  lemma {:induction false} HighWaterAbove(w: seq<Frame>, seen: nat)
    requires Ordered(w, seen)
    ensures HighWater(w, seen) >= seen
  {
    if w != [] {
      HighWaterAbove(w[1..], if w[0].ReqHead? then w[0].id else seen);
    }
  }

  /** A stream that was never opened has left no trace. */
  lemma NoneOf(s: State, id: nat)
    requires IdsOk(s)
    requires id > 0 && id !in s.edge.pumps
    ensures BytesOf(s.edge.wire, id) == [] && FeederPart(s.agent, id) == 0
    ensures GrantSum(s.agent.ctrl, id) == 0 == GrantSum(s.agent.wire, id)
    ensures ReqEnd(id) !in s.edge.wire
  {
    NoBytes(s.edge.wire, id);
    NoGrants(s.agent.ctrl, id);
    NoGrants(s.agent.wire, id);
  }

  lemma {:induction false} NoBytes(w: seq<Frame>, id: nat)
    requires forall f :: f in w ==> f.id != id
    ensures BytesOf(w, id) == []
  {
    if w != [] {
      NoBytes(w[1..], id);
    }
  }

  lemma {:induction false} NoEnd(w: seq<Frame>, id: nat)
    requires ReqEnd(id) !in w
    ensures EndLast(w, id)
  {
    if w != [] {
      assert w[0] in w;
      NoEnd(w[1..], id);
    }
  }

  // ---------------------------------------------------------------- the pump

  lemma TakeGlobal(s: State, id: nat, want: nat)
    requires Global(s)
    ensures Global(StepTake(s, id, want))
  {
    hide Ordered, HighWater, BytesOf, EndLast, Flat, GrantSum, SumOver, BodySum;
    var s' := StepTake(s, id, want);
    if CanTake(s.edge, id, want) {
      SumUpdate(s.edge.pumps, HandLen, id, s'.edge.pumps[id]);
      SameLiveness(s.edge.pumps, id, s'.edge.pumps[id]);
    }
  }

  lemma SendGlobal(s: State, id: nat)
    requires Global(s)
    ensures Global(StepSend(s, id))
  {
    hide Ordered, HighWater, BytesOf, EndLast, Flat, GrantSum, SumOver, BodySum, FeederOk;
    var s' := StepSend(s, id);
    if CanSend(s.edge, id) {
      var f := ReqBody(id, s.edge.pumps[id].hand);
      SumUpdate(s.edge.pumps, HandLen, id, s'.edge.pumps[id]);
      SameLiveness(s.edge.pumps, id, s'.edge.pumps[id]);
      AppendOrdered(s.edge.wire, s.agent.maxSeen, f);
      AppendFrame(s.edge.wire, f, 0);
    }
  }

  lemma EndBodyGlobal(s: State, id: nat)
    requires Global(s)
    ensures Global(StepEndBody(s, id))
  {
    hide Ordered, HighWater, BytesOf, EndLast, Flat, GrantSum, SumOver, BodySum, FeederOk;
    var s' := StepEndBody(s, id);
    if CanEndBody(s.edge, id) {
      SumUpdate(s.edge.pumps, HandLen, id, s'.edge.pumps[id]);
      SameLiveness(s.edge.pumps, id, s'.edge.pumps[id]);
      AppendOrdered(s.edge.wire, s.agent.maxSeen, ReqEnd(id));
      AppendFrame(s.edge.wire, ReqEnd(id), 0);
    }
  }

  lemma ResEndGlobal(s: State, id: nat)
    requires Global(s)
    ensures Global(StepResEnd(s, id))
  {
    hide Ordered, HighWater, BytesOf, EndLast, Flat, GrantSum, SumOver, BodySum, FeederOk, PumpOk, IdsOk;
    var s' := StepResEnd(s, id);
    if CanResEnd(s.edge, id) {
      SumUpdate(s.edge.pumps, HandLen, id, s'.edge.pumps[id]);
      SameLiveness(s.edge.pumps, id, s'.edge.pumps[id]);
      AppendFrame(s.edge.wire, ReqEnd(id), 0);
      AnsweredPump(s.edge.pumps[id]);
      ResEndIds(s, id);
    }
  }

  lemma AnsweredPump(p: Pump)
    requires PumpOk(p)
    ensures forall at :: PumpOk(p.(resEnded := true, endSent := true, endAt := at))
  {
  }

  lemma ResEndIds(s: State, id: nat)
    requires IdsOk(s) && CanResEnd(s.edge, id)
    ensures IdsOk(StepResEnd(s, id))
  {
    hide Ordered, HighWater;
    AppendOrdered(s.edge.wire, s.agent.maxSeen, ReqEnd(id));
  }

  lemma SameLiveness(pumps: map<nat, Pump>, id: nat, p: Pump)
    requires id in pumps && pumps[id].live == p.live
    ensures Idle(pumps[id := p]) == Idle(pumps) && pumps[id := p] != map[] && pumps != map[]
  {
    assert id in pumps[id := p];
    if Idle(pumps[id := p]) {
      forall k | k in pumps
        ensures !pumps[k].live
      {
        assert k in pumps[id := p];
        assert !pumps[id := p][k].live;
      }
    }
  }

  lemma TakeCredit(s: State, take: nat, want: nat, id: nat)
    requires Global(s) && CreditOk(s, id)
    ensures CreditOk(StepTake(s, take, want), id)
  {
    hide Ordered, HighWater, BytesOf, EndLast, Flat, GrantSum, SumOver, BodySum, Content;
  }

  lemma SendCredit(s: State, send: nat, id: nat)
    requires CreditOk(s, id)
    ensures CreditOk(StepSend(s, send), id)
  {
    hide Ordered, HighWater, BytesOf, EndLast, Flat, GrantSum, SumOver, BodySum, Content;
    if CanSend(s.edge, send) {
      AppendFrame(s.edge.wire, ReqBody(send, s.edge.pumps[send].hand), id);
    }
  }

  lemma AllowedFits(e: Edge, p: Pump, want: nat)
    requires PumpOk(p) && Allowed(e, p, want) > 0
    ensures p.taken + Allowed(e, p, want) <= |p.body|
  {
  }

  lemma TakeBytes(s: State, take: nat, want: nat, id: nat)
    requires Global(s) && BytesOk(s, id)
    ensures BytesOk(StepTake(s, take, want), id)
  {
    hide Ordered, HighWater, BytesOf, EndLast, Flat, GrantSum, SumOver, BodySum, Content, Allowed, Min, IdsOk, SavedOk, ConnOk, FeederOk, InOrder;
    if take == id && CanTake(s.edge, id, want) {
      var p := s.edge.pumps[id];
      assert PumpOk(p);
      var n := Allowed(s.edge, p, want);
      AllowedFits(s.edge, p, want);
      assert p.body[..p.taken] + p.body[p.taken..p.taken + n] == p.body[..p.taken + n];
    }
  }

  lemma SendBytes(s: State, send: nat, id: nat)
    requires Global(s) && BytesOk(s, id)
    ensures BytesOk(StepSend(s, send), id)
  {
    hide Ordered, HighWater, BytesOf, EndLast, Flat, GrantSum, SumOver, BodySum, Content;
    if CanSend(s.edge, send) {
      var f := ReqBody(send, s.edge.pumps[send].hand);
      AppendFrame(s.edge.wire, f, id);
      if id in s.edge.pumps && EndLast(s.edge.wire, id) && (id != send || ReqEnd(id) !in s.edge.wire) {
        AppendEndLast(s.edge.wire, id, f);
      }
      assert BytesOf(s.edge.wire, id) + FrameBytes(f, id) + [] == BytesOf(s.edge.wire, id) + FrameBytes(f, id);
    }
  }

  /** A frame without body bytes changes nobody's credit and nobody's order. */
  lemma TailFrame(w: seq<Frame>, f: Frame, id: nat)
    requires !f.ReqBody?
    ensures BytesOf(w + [f], id) == BytesOf(w, id)
    ensures EndLast(w, id) ==> EndLast(w + [f], id)
    ensures ReqEnd(id) in w + [f] ==> ReqEnd(id) in w || f == ReqEnd(id)
  {
    AppendFrame(w, f, id);
    if EndLast(w, id) {
      AppendEndLast(w, id, f);
    }
  }

  lemma EndBodyStream(s: State, end: nat, id: nat)
    requires Global(s) && StreamOk(s, id)
    ensures StreamOk(StepEndBody(s, end), id)
  {
    hide Ordered, HighWater, BytesOf, EndLast, Flat, GrantSum, SumOver, BodySum, Content;
    TailFrame(s.edge.wire, ReqEnd(end), id);
  }

  lemma ResEndStream(s: State, end: nat, id: nat)
    requires Global(s) && StreamOk(s, id)
    ensures StreamOk(StepResEnd(s, end), id)
  {
    hide Ordered, HighWater, BytesOf, EndLast, Flat, GrantSum, SumOver, BodySum, Content;
    TailFrame(s.edge.wire, ReqEnd(end), id);
  }

  lemma FinishGlobal(s: State, id: nat, notify: bool)
    requires Global(s)
    ensures Global(StepFinish(s, id, notify))
  {
    hide Ordered, HighWater, BytesOf, EndLast, Flat, GrantSum, SumOver, BodySum, FeederOk, PumpOk, IdsOk;
    var s' := StepFinish(s, id, notify);
    if CanFinish(s.edge, id) {
      SumUpdate(s.edge.pumps, HandLen, id, s'.edge.pumps[id]);
      AppendFrame(s.edge.wire, Reset(id), 0);
      FinishedPump(s.edge.pumps[id]);
      FinishIds(s, id, notify);
    }
  }

  lemma FinishedPump(p: Pump)
    requires PumpOk(p)
    ensures PumpOk(p.(live := false))
  {
  }

  lemma FinishIds(s: State, id: nat, notify: bool)
    requires IdsOk(s) && CanFinish(s.edge, id)
    ensures IdsOk(StepFinish(s, id, notify))
  {
    hide Ordered, HighWater;
    AppendOrdered(s.edge.wire, s.agent.maxSeen, Reset(id));
  }

  lemma FinishStream(s: State, done: nat, notify: bool, id: nat)
    requires Global(s) && StreamOk(s, id)
    ensures StreamOk(StepFinish(s, done, notify), id)
  {
    hide Ordered, HighWater, BytesOf, EndLast, Flat, GrantSum, SumOver, BodySum, Content;
    TailFrame(s.edge.wire, Reset(done), id);
  }

  // ---------------------------------------------------------------- credit coming back to the edge

  lemma ReceiveGlobal(s: State)
    requires Inv(s)
    ensures Global(StepReceive(s))
  {
    hide Ordered, HighWater, BytesOf, EndLast, Flat, SumOver, BodySum, GrantSum, StreamOk, PumpOk, FeederOk;
    if s.agent.wire != [] {
      var g := s.agent.wire[0];
      Bounds(s);
      PopGrant(s.agent.wire, 0);
      if g.id > 0 && g.id in s.edge.pumps && s.edge.pumps[g.id].live {
        ReceiveStream(s);
      }
    }
  }

  /** A WINDOW for a live stream only moves credit into its pump. */
  lemma ReceiveStream(s: State)
    requires Inv(s) && s.agent.wire != []
    requires var g := s.agent.wire[0]; g.id > 0 && g.id in s.edge.pumps && s.edge.pumps[g.id].live
    ensures Global(StepReceive(s))
  {
    hide Ordered, HighWater, BytesOf, EndLast, Flat, SumOver, BodySum, GrantSum, StreamOk, FeederOk;
    var g := s.agent.wire[0];
    var p := s.edge.pumps[g.id].(credit := s.edge.pumps[g.id].credit + g.n);
    PopGrant(s.agent.wire, 0);
    CreditRoom(s, g);
    SumUpdate(s.edge.pumps, HandLen, g.id, p);
    SameLiveness(s.edge.pumps, g.id, p);
  }

  /** A stream grant never lifts the sender above the stream window. */
  lemma CreditRoom(s: State, g: Grant)
    requires Inv(s)
    requires s.agent.wire != [] && g == s.agent.wire[0] && g.id > 0
    requires g.id in s.edge.pumps && s.edge.pumps[g.id].live
    ensures s.edge.pumps[g.id].credit + g.n <= STREAM_WINDOW
  {
    assert StreamOk(s, g.id);
    FeederPartNonNegative(s, g.id);
  }

  lemma FeederPartNonNegative(s: State, id: nat)
    requires ShapeOk(s)
    ensures FeederPart(s.agent, id) >= 0
  {
  }

  lemma ReceiveCredit(s: State, id: nat)
    requires Inv(s)
    ensures CreditOk(StepReceive(s), id)
  {
    hide Ordered, HighWater, BytesOf, EndLast, Flat, SumOver, BodySum, GrantSum, BytesOk;
    assert StreamOk(s, id);
    if s.agent.wire != [] {
      var g := s.agent.wire[0];
      PopGrant(s.agent.wire, id);
      if g.id > 0 && g.id in s.edge.pumps && s.edge.pumps[g.id].live {
        CreditRoom(s, g);
      }
    }
  }

  lemma ReceiveBytes(s: State, id: nat)
    requires BytesOk(s, id)
    ensures BytesOk(StepReceive(s), id)
  {
    hide Ordered, HighWater, BytesOf, EndLast, Flat, SumOver, BodySum, GrantSum, Content;
  }

  lemma HibernateKeeps(s: State)
    requires Inv(s)
    ensures Inv(StepHibernate(s))
  {
    hide Ordered, HighWater, BytesOf, EndLast, Flat, GrantSum, SumOver, BodySum;
    var s' := StepHibernate(s);
    forall id: nat
      ensures StreamOk(s', id)
    {
      assert StreamOk(s, id);
    }
  }

  // ---------------------------------------------------------------- the agent's reader

  lemma PopFrame(w: seq<Frame>, id: nat)
    requires w != []
    ensures BodySum(w) == FrameLen(w[0]) + BodySum(w[1..])
    ensures |BytesOf(w, id)| == |FrameBytes(w[0], id)| + |BytesOf(w[1..], id)|
    ensures FrameBytes(w[0], id) == [] ==> BytesOf(w, id) == BytesOf(w[1..], id)
    ensures FrameBytes(w[0], id) != [] ==> BytesOf(w, id) == w[0].data + BytesOf(w[1..], id)
    ensures EndLast(w, id) ==> EndLast(w[1..], id) && (w[0] == ReqEnd(id) ==> BytesOf(w[1..], id) == [])
  {
  }

  lemma PopOrdered(w: seq<Frame>, seen: nat)
    requires w != [] && Ordered(w, seen)
    ensures var now := if w[0].ReqHead? then w[0].id else seen;
            seen <= now && Ordered(w[1..], now) && HighWater(w, seen) == HighWater(w[1..], now)
    ensures if w[0].ReqHead? then w[0].id > seen else 0 < w[0].id <= seen
  {
  }

  /** The state once the reader has taken `f` off the socket and changed the agent to `a`. */
  function Taken(s: State, a: Agent): State
    requires s.edge.wire != []
  {
    s.(edge := s.edge.(wire := s.edge.wire[1..]), agent := a)
  }

  ghost predicate Next(s: State, f: Frame) { s.edge.wire != [] && s.edge.wire[0] == f && s.agent.readerHand.None? }

  lemma HeadIds(s: State, id: nat, http: bool, headOk: bool)
    requires IdsOk(s) && Next(s, ReqHead(id, http))
    ensures IdsOk(Taken(s, OnReqHead(s.agent, id, http, headOk)))
  {
    hide Ordered, HighWater, BytesOf, EndLast, Flat, GrantSum, SumOver, BodySum;
    PopOrdered(s.edge.wire, s.agent.maxSeen);
    assert ReqHead(id, http) in s.edge.wire;
  }

  lemma HeadShape(s: State, id: nat, http: bool, headOk: bool)
    requires ShapeOk(s) && Next(s, ReqHead(id, http)) && id > s.agent.maxSeen
    ensures ShapeOk(Taken(s, OnReqHead(s.agent, id, http, headOk)))
  {
    hide FeederOk, PumpOk;
    NewFeederOk();
    assert id in s.agent.registered + {id};
  }

  lemma HeadGlobal(s: State, id: nat, http: bool, headOk: bool)
    requires Global(s) && Next(s, ReqHead(id, http))
    ensures Global(Taken(s, OnReqHead(s.agent, id, http, headOk)))
  {
    hide Ordered, HighWater, BytesOf, EndLast, Flat, GrantSum, SumOver, BodySum, IdsOk, ShapeOk;
    HeadIds(s, id, http, headOk);
    HeadIsNew(s, id, http);
    HeadShape(s, id, http, headOk);
    PopFrame(s.edge.wire, 0);
    SumUpdate(s.agent.feeders, Owed, id, NewFeeder());
  }

  lemma HeadIsNew(s: State, id: nat, http: bool)
    requires IdsOk(s) && Next(s, ReqHead(id, http))
    ensures id > s.agent.maxSeen && id !in s.agent.feeders
  {
    hide Ordered, HighWater, BytesOf, EndLast, Flat, GrantSum, SumOver, BodySum;
    PopOrdered(s.edge.wire, s.agent.maxSeen);
  }

  lemma NewFeederOk()
    ensures FeederOk(NewFeeder())
  {
  }

  lemma HeadCredit(s: State, head: nat, http: bool, headOk: bool, id: nat)
    requires Global(s) && Next(s, ReqHead(head, http)) && CreditOk(s, id)
    ensures CreditOk(Taken(s, OnReqHead(s.agent, head, http, headOk)), id)
  {
    hide Ordered, HighWater, BytesOf, EndLast, Flat, GrantSum, SumOver, BodySum;
    PopFrame(s.edge.wire, id);
    PopOrdered(s.edge.wire, s.agent.maxSeen);
  }

  lemma HeadBytes(s: State, head: nat, http: bool, headOk: bool, id: nat)
    requires Global(s) && Next(s, ReqHead(head, http)) && BytesOk(s, id)
    ensures BytesOk(Taken(s, OnReqHead(s.agent, head, http, headOk)), id)
  {
    hide Ordered, HighWater, BytesOf, EndLast, Flat, GrantSum, SumOver, BodySum, Content;
    PopFrame(s.edge.wire, id);
    HeadIsNew(s, head, http);
    if id == head && id in s.edge.pumps {
      NothingFed(BytesOf(s.edge.wire[1..], id), s.edge.pumps[id].hand);
    }
  }

  lemma NothingFed(rest: Bytes, hand: Bytes)
    ensures Content(NewFeeder()) + rest + hand == rest + hand && Content(NewFeeder()) == []
  {
    assert Content(NewFeeder()) == [];
    assert [] + rest == rest;
  }

  /** A body frame never overflows the stream's queue. */
  lemma BodyRoom(s: State, id: nat, data: Bytes)
    requires Inv(s) && Next(s, ReqBody(id, data)) && id in s.agent.feeders
    ensures s.agent.feeders[id].queued + |data| <= STREAM_WINDOW
  {
    hide Ordered, HighWater, BytesOf, EndLast, Flat, SumOver, BytesOk, GrantSum;
    PopFrame(s.edge.wire, id);
    PopOrdered(s.edge.wire, s.agent.maxSeen);
    assert StreamOk(s, id);
  }

  lemma DiscardGlobal(s: State, id: nat, data: Bytes)
    requires Global(s) && Next(s, ReqBody(id, data))
    ensures Global(Taken(s, s.agent.(readerHand := Some(|data|))))
  {
    hide Ordered, HighWater, BytesOf, EndLast, Flat, GrantSum, SumOver, BodySum;
    PopFrame(s.edge.wire, 0);
    PopOrdered(s.edge.wire, s.agent.maxSeen);
  }

  lemma DiscardStream(s: State, from: nat, data: Bytes, id: nat)
    requires Global(s) && Next(s, ReqBody(from, data)) && StreamOk(s, id) && !Accepts(s.agent, from)
    ensures StreamOk(Taken(s, s.agent.(readerHand := Some(|data|))), id)
  {
    hide Ordered, HighWater, BytesOf, EndLast, Flat, GrantSum, SumOver, BodySum, Content;
    PopFrame(s.edge.wire, id);
    PopOrdered(s.edge.wire, s.agent.maxSeen);
  }

  function Enqueued(a: Agent, id: nat, data: Bytes): Agent
    requires id in a.feeders
  {
    WithFeeder(a, id, a.feeders[id].(queue := a.feeders[id].queue + [data], queued := a.feeders[id].queued + |data|))
  }

  lemma EnqueueGlobal(s: State, id: nat, data: Bytes)
    requires Global(s) && Next(s, ReqBody(id, data)) && Accepts(s.agent, id)
    ensures Global(Taken(s, Enqueued(s.agent, id, data)))
  {
    hide Ordered, HighWater, BytesOf, EndLast, Flat, GrantSum, SumOver, BodySum, PumpOk, FeederOk, Owed;
    PopFrame(s.edge.wire, 0);
    PopOrdered(s.edge.wire, s.agent.maxSeen);
    FeederIsOk(s, id);
    EnqueuedFeeder(s.agent, id, data);
    SumUpdate(s.agent.feeders, Owed, id, Enqueued(s.agent, id, data).feeders[id]);
  }

  lemma EnqueuedFeeder(a: Agent, id: nat, data: Bytes)
    requires Accepts(a, id) && FeederOk(a.feeders[id])
    ensures FeederOk(Enqueued(a, id, data).feeders[id])
    ensures Owed(Enqueued(a, id, data).feeders[id]) == Owed(a.feeders[id]) + |data|
  {
    hide Flat;
    AppendChunk(a.feeders[id].queue, data);
  }

  lemma EnqueueCredit(s: State, from: nat, data: Bytes, id: nat)
    requires Global(s) && Next(s, ReqBody(from, data)) && CreditOk(s, id) && Accepts(s.agent, from)
    ensures CreditOk(Taken(s, Enqueued(s.agent, from, data)), id)
  {
    hide Ordered, HighWater, BytesOf, EndLast, Flat, GrantSum, SumOver, BodySum;
    PopFrame(s.edge.wire, id);
    PopOrdered(s.edge.wire, s.agent.maxSeen);
  }

  lemma EnqueueBytes(s: State, from: nat, data: Bytes, id: nat)
    requires Global(s) && Next(s, ReqBody(from, data)) && BytesOk(s, id) && Accepts(s.agent, from)
    ensures BytesOk(Taken(s, Enqueued(s.agent, from, data)), id)
  {
    hide Ordered, HighWater, BytesOf, EndLast, Flat, GrantSum, SumOver, BodySum, Content;
    PopFrame(s.edge.wire, id);
    PopOrdered(s.edge.wire, s.agent.maxSeen);
    EnqueueContent(s.agent.feeders[from], data);
    if id == from && id in s.edge.pumps {
      var p := s.edge.pumps[id];
      MoveChunk(Content(s.agent.feeders[id]), data, BytesOf(s.edge.wire[1..], id), p.hand, p.body[..p.taken]);
      assert p.body[..p.taken] <= p.body;
    }
  }

  lemma EnqueueContent(h: Feeder, data: Bytes)
    ensures Content(h.(queue := h.queue + [data], queued := h.queued + |data|)) == Content(h) + data
  {
    AppendChunk(h.queue, data);
    assert h.drained + CurBytes(h) + (Flat(h.queue) + data) == h.drained + CurBytes(h) + Flat(h.queue) + data;
  }

  /** The oldest bytes on the socket join the end of what the feeder has. */
  lemma MoveChunk(content: Bytes, data: Bytes, rest: Bytes, hand: Bytes, all: Bytes)
    requires content + (if data == [] then rest else data + rest) + hand == all
    ensures (content + data) + rest + hand == all && content + data <= all
  {
    assert content + (data + rest) + hand == (content + data) + rest + hand;
    assert data == [] ==> content + data == content;
  }

  lemma SwapShape(s: State, id: nat, h: Feeder)
    requires ShapeOk(s) && IdsOk(s) && id in s.agent.feeders && FeederOk(h)
    ensures ShapeOk(s.(agent := WithFeeder(s.agent, id, h))) && IdsOk(s.(agent := WithFeeder(s.agent, id, h)))
  {
    hide Ordered, HighWater, FeederOk, PumpOk;
  }

  /** A feeder may change in any way that keeps what it owes. */
  lemma SwapGlobal(s: State, id: nat, h: Feeder)
    requires Global(s) && id in s.agent.feeders
    requires FeederOk(h) && Owed(h) == Owed(s.agent.feeders[id])
    ensures Global(s.(agent := WithFeeder(s.agent, id, h)))
  {
    hide ShapeOk, IdsOk, SumOver, GrantSum, BodySum, FeederOk;
    SwapShape(s, id, h);
    SumUpdate(s.agent.feeders, Owed, id, h);
  }

  lemma SkipGlobal(s: State)
    requires Global(s) && s.edge.wire != []
    requires s.edge.wire[0].ReqEnd? || s.edge.wire[0].Reset?
    ensures Global(Taken(s, s.agent))
  {
    hide Ordered, HighWater, BytesOf, EndLast, Flat, GrantSum, SumOver, BodySum;
    PopFrame(s.edge.wire, 0);
    PopOrdered(s.edge.wire, s.agent.maxSeen);
  }

  lemma TailGlobal(s: State, id: nat, end: bool)
    requires Global(s) && Next(s, if end then ReqEnd(id) else Reset(id))
    ensures Global(Taken(s, if end then OnReqEnd(s.agent, id) else OnReset(s.agent, id)))
  {
    SkipGlobal(s);
    if id in s.agent.registered && id in s.agent.feeders {
      var h := s.agent.feeders[id];
      assert FeederOk(h);
      SwapGlobal(Taken(s, s.agent), id, if end then h.(reqEnded := true) else h.(cancelled := true));
    }
  }

  lemma TailCredit(s: State, tail: nat, end: bool, id: nat)
    requires Global(s) && CreditOk(s, id) && Next(s, if end then ReqEnd(tail) else Reset(tail))
    ensures CreditOk(Taken(s, if end then OnReqEnd(s.agent, tail) else OnReset(s.agent, tail)), id)
  {
    hide Ordered, HighWater, BytesOf, EndLast, Flat, GrantSum, SumOver, BodySum, Content;
    PopFrame(s.edge.wire, id);
  }

  /** What a feeder may do without disturbing the byte order. */
  ghost predicate BytesKept(h: Feeder, h': Feeder) {
    && (Content(h') == Content(h) || (h'.Fed() && Content(h') <= Content(h)))
    && (h.Fed() ==> h'.Fed())
    && h'.reqEnded == h.reqEnded
    && (InOrder(h) ==> InOrder(h'))
    && (h'.eof ==> (h.eof && h'.got == h.got)
                   || (h.reqEnded && !h.Fed() && !h.discard && h'.got == h.got && Content(h) == h.drained))
    && (h.eof ==> h'.got == h.got)
  }

  lemma SwapBytes(s: State, swap: nat, h: Feeder, id: nat)
    requires BytesOk(s, id) && swap in s.agent.feeders && BytesKept(s.agent.feeders[swap], h)
    ensures BytesOk(s.(agent := WithFeeder(s.agent, swap, h)), id)
  {
    hide Ordered, HighWater, BytesOf, EndLast, Flat, GrantSum, SumOver, BodySum, Content;
  }

  lemma SwapCredit(s: State, swap: nat, h: Feeder, id: nat)
    requires CreditOk(s, id) && swap in s.agent.feeders
    requires var s' := s.(agent := WithFeeder(s.agent, swap, h));
      FeederPart(s'.agent, swap) == FeederPart(s.agent, swap)
      || (FeederPart(s'.agent, swap) <= FeederPart(s.agent, swap) && h.Fed() && swap <= s.agent.maxSeen)
    requires s.agent.feeders[swap].Fed() ==> h.Fed()
    ensures CreditOk(s.(agent := WithFeeder(s.agent, swap, h)), id)
  {
    hide Ordered, HighWater, BytesOf, EndLast, Flat, GrantSum, SumOver, BodySum, Content;
  }

  lemma SkipBytes(s: State, id: nat)
    requires BytesOk(s, id) && s.edge.wire != []
    requires s.edge.wire[0].ReqEnd? || s.edge.wire[0].Reset?
    ensures BytesOk(Taken(s, s.agent), id)
  {
    hide Ordered, HighWater, BytesOf, EndLast, Flat, GrantSum, SumOver, BodySum, Content;
    PopFrame(s.edge.wire, id);
  }

  lemma ResetBytes(s: State, tail: nat, id: nat)
    requires BytesOk(s, id) && Next(s, Reset(tail))
    ensures BytesOk(Taken(s, OnReset(s.agent, tail)), id)
  {
    SkipBytes(s, id);
    if tail in s.agent.feeders {
      SwapBytes(Taken(s, s.agent), tail, s.agent.feeders[tail].(cancelled := true), id);
    }
  }

  /** REQ_END reaches a running feeder: unless the answer came first, the whole body is there. */
  lemma EndReachesFeeder(s: State, id: nat)
    requires Global(s) && BytesOk(s, id) && Next(s, ReqEnd(id)) && id in s.agent.feeders
    ensures var p := s.edge.pumps[id];
      p.endSent && (!p.resEnded ==> BytesOf(s.edge.wire[1..], id) == [])
      && (!p.resEnded && Accepts(s.agent, id) ==> Content(s.agent.feeders[id]) == p.body)
  {
    hide Ordered, HighWater, BytesOf, EndLast, Flat, GrantSum, SumOver, BodySum, Content;
    PopFrame(s.edge.wire, id);
    assert s.edge.wire[0] in s.edge.wire;
    var p := s.edge.pumps[id];
    assert PumpOk(p);
    assert p.body[..|p.body|] == p.body;
    assert Content(s.agent.feeders[id]) + [] + [] == Content(s.agent.feeders[id]);
  }

  lemma EndBytesAgent(s: State, tail: nat, id: nat)
    requires Global(s) && BytesOk(s, id) && Next(s, ReqEnd(tail))
    ensures BytesOk(Taken(s, OnReqEnd(s.agent, tail)), id)
  {
    SkipBytes(s, id);
    if tail == id && id in s.agent.feeders {
      EndReachesFeeder(s, id);
    }
    hide Ordered, HighWater, BytesOf, EndLast, Flat, GrantSum, SumOver, BodySum, Content;
  }

  // ---------------------------------------------------------------- the feeder

  lemma PopKeeps(s: State, pop: nat, id: nat)
    requires Global(s) && StreamOk(s, id) && CanPop(s.agent, pop)
    ensures Global(StepPop(s, pop)) && StreamOk(StepPop(s, pop), id)
  {
    var h := s.agent.feeders[pop];
    var h' := h.(cur := Some(h.queue[0]), queue := h.queue[1..]);
    PopContent(h, h');
    hide ShapeOk, IdsOk, SavedOk, ConnOk, CreditOk, BytesOk, FeederOk, Content;
    SwapGlobal(s, pop, h');
    SwapBytes(s, pop, h', id);
    SwapCredit(s, pop, h', id);
  }

  lemma PopContent(h: Feeder, h': Feeder)
    requires FeederOk(h) && h.cur.None? && h.hand.None? && h.phase.Feeding? && h.queue != []
    requires h' == h.(cur := Some(h.queue[0]), queue := h.queue[1..])
    ensures FeederOk(h') && Content(h') == Content(h)
  {
    assert Flat(h.queue) == h.queue[0] + Flat(h.queue[1..]);
    assert h.drained + [] + (h.queue[0] + Flat(h.queue[1..])) == h.drained + h.queue[0] + Flat(h.queue[1..]);
  }

  function Written(h: Feeder, k: nat): Feeder
    requires h.cur.Some?
  {
    var chunk := h.cur.value;
    var read := if h.discard then [] else chunk[..Min(k, |chunk|)];
    h.(cur := None, hand := Some(|chunk|), queued := h.queued - |chunk|,
       discard := h.discard || |read| < |chunk|, drained := h.drained + chunk, got := h.got + read)
  }

  /** Whatever the app reads of a chunk, it has read the visitor's bytes in order. */
  lemma WrittenContent(h: Feeder, k: nat)
    requires FeederOk(h) && h.cur.Some? && h.phase.Feeding?
    ensures BytesKept(h, Written(h, k)) && FeederOk(Written(h, k))
  {
    var w := Written(h, k);
    assert w.drained + [] + Flat(w.queue) == h.drained + h.cur.value + Flat(h.queue);
    if h.discard {
      assert h.got + [] == h.got;
    } else {
      var n := Min(k, |h.cur.value|);
      assert h.got + h.cur.value == (h.got + h.cur.value[..n]) + h.cur.value[n..];
    }
  }

  lemma WriteKeeps(s: State, write: nat, k: nat, id: nat)
    requires Global(s) && StreamOk(s, id) && CanWrite(s.agent, write)
    ensures Global(StepWrite(s, write, k)) && StreamOk(StepWrite(s, write, k), id)
  {
    var h := s.agent.feeders[write];
    assert FeederOk(h);
    WrittenContent(h, k);
    hide ShapeOk, IdsOk, SavedOk, ConnOk, CreditOk, BytesOk, FeederOk, Content;
    SwapGlobal(s, write, Written(h, k));
    SwapBytes(s, write, Written(h, k), id);
    SwapCredit(s, write, Written(h, k), id);
  }

  lemma LeaveKeeps(s: State, leave: nat, clean: bool, id: nat)
    requires Global(s) && StreamOk(s, id) && CanLeave(s.agent, leave, clean)
    ensures Global(StepLeave(s, leave, clean)) && StreamOk(StepLeave(s, leave, clean), id)
  {
    hide ShapeOk, IdsOk, SavedOk, ConnOk, CreditOk, BytesOk, FeederOk, Content;
    var h := s.agent.feeders[leave];
    var h' := h.(phase := Leaving, eof := clean && !h.discard);
    FeederIsOk(s, leave);
    LeaveContent(h, h');
    SwapGlobal(s, leave, h');
    SwapBytes(s, leave, h', id);
    SwapCredit(s, leave, h', id);
  }

  lemma FeederIsOk(s: State, id: nat)
    requires ShapeOk(s) && id in s.agent.feeders
    ensures FeederOk(s.agent.feeders[id])
    ensures s.agent.connUngranted < CONN_WINDOW / 4
  {
  }

  lemma LeaveContent(h: Feeder, h': Feeder)
    requires FeederOk(h) && h.phase.Feeding? && h.cur.None? && h.hand.None?
    requires h' == h.(phase := Leaving, eof := h'.eof)
    ensures FeederOk(h') && !h.eof && Content(h') == Content(h) && (h.queue == [] ==> Content(h) == h.drained)
  {
    assert h.drained + [] + [] == h.drained;
  }

  lemma LockKeeps(s: State, lock: nat, id: nat)
    requires Global(s) && StreamOk(s, id) && CanLock(s.agent, lock)
    ensures Global(StepLock(s, lock)) && StreamOk(StepLock(s, lock), id)
  {
    var h := s.agent.feeders[lock];
    var h' := h.(queue := [], queued := 0, hand := Some(h.queued), phase := LastGrant);
    assert FeederOk(h);
    LockContent(h, h');
    hide ShapeOk, IdsOk, SavedOk, ConnOk, CreditOk, BytesOk, FeederOk, Content;
    SwapGlobal(s, lock, h');
    SwapBytes(s, lock, h', id);
    SwapCredit(s, lock, h', id);
  }

  lemma LockContent(h: Feeder, h': Feeder)
    requires FeederOk(h) && h.phase.Leaving?
    requires h' == h.(queue := [], queued := 0, hand := Some(h.queued), phase := LastGrant)
    ensures FeederOk(h') && Content(h') <= Content(h)
  {
    assert h.drained + [] + [] == h.drained <= h.drained + CurBytes(h) + Flat(h.queue);
  }

  lemma CancelKeeps(s: State, cancel: nat, id: nat)
    requires Global(s) && StreamOk(s, id)
    ensures Global(StepCancel(s, cancel)) && StreamOk(StepCancel(s, cancel), id)
  {
    hide IdsOk, SavedOk, ConnOk, CreditOk, BytesOk, Flat, ShapeOk;
    if cancel in s.agent.feeders {
      var h := s.agent.feeders[cancel];
      FeederIsOk(s, cancel);
      SwapGlobal(s, cancel, h.(cancelled := true));
      SwapBytes(s, cancel, h.(cancelled := true), id);
      SwapCredit(s, cancel, h.(cancelled := true), id);
    }
  }

  // ---------------------------------------------------------------- grants

  /** Coalescing moves credit between the counter and the control queue and keeps it all. */
  lemma GrantConnLaw(a: Agent, n: nat, id: nat)
    requires a.connUngranted + n <= CONN_WINDOW && a.connUngranted < CONN_WINDOW / 4
    ensures var b := GrantConn(a, n);
      && b == a.(connUngranted := b.connUngranted, ctrl := b.ctrl)
      && b.connUngranted + GrantSum(b.ctrl, 0) == a.connUngranted + n + GrantSum(a.ctrl, 0)
      && b.connUngranted < CONN_WINDOW / 4
      && (a.registered == {} ==> b.connUngranted == 0)
      && (id > 0 ==> GrantSum(b.ctrl, id) == GrantSum(a.ctrl, id))
      && (forall g :: g in b.ctrl ==> g in a.ctrl || (g.n > 0 && g.id == 0))
  {
    SendConnLaw(a, a.connUngranted + n, id);
  }

  lemma SendConnLaw(a: Agent, n: nat, id: nat)
    requires n <= CONN_WINDOW
    ensures var b := SendConn(a, n);
      && GrantSum(b.ctrl, 0) == n + GrantSum(a.ctrl, 0)
      && (id > 0 ==> GrantSum(b.ctrl, id) == GrantSum(a.ctrl, id))
      && (forall g :: g in b.ctrl ==> g in a.ctrl || (g.n > 0 && g.id == 0))
  {
    AppendGrant(a.ctrl, Grant(0, U32(n)), 0);
    AppendGrant(a.ctrl, Grant(0, U32(n)), id);
  }

  /** The agent may settle what it owes in any way that keeps the sum. */
  lemma Settled(s: State, b: Agent)
    requires Global(s)
    requires b.registered == s.agent.registered && b.maxSeen == s.agent.maxSeen && !b.fault
    requires b.feeders.Keys == s.agent.feeders.Keys && forall id :: id in b.feeders ==> FeederOk(b.feeders[id])
    requires b.connUngranted < CONN_WINDOW / 4 && (b.registered == {} && b.connUngranted > 0 ==> b.flushes > 0)
    requires forall g :: g in b.ctrl || g in b.wire ==> g in s.agent.ctrl || g in s.agent.wire || (g.n > 0 && (g.id == 0 || g.id in b.feeders))
    requires Or0(b.readerHand) + SumOver(b.feeders, Owed) + b.connUngranted + GrantSum(b.ctrl, 0) + GrantSum(b.wire, 0)
          == Or0(s.agent.readerHand) + SumOver(s.agent.feeders, Owed) + s.agent.connUngranted
             + GrantSum(s.agent.ctrl, 0) + GrantSum(s.agent.wire, 0)
    ensures Global(s.(agent := b))
  {
    hide Ordered, HighWater, BytesOf, Flat, GrantSum, SumOver, BodySum, FeederOk, PumpOk;
  }

  lemma ReaderGrantGlobal(s: State)
    requires Inv(s)
    ensures Global(StepReaderGrant(s))
  {
    hide GrantConn, GrantSum, SumOver, FeederOk, Ordered, HighWater, BodySum, IdsOk, SavedOk, StreamOk;
    if s.agent.readerHand.Some? {
      Bounds(s);
      GrantConnLaw(s.agent, s.agent.readerHand.value, 0);
      Settled(s, GrantConn(s.agent, s.agent.readerHand.value).(readerHand := None));
    }
  }

  lemma RemoveFlushGlobal(s: State)
    requires Inv(s)
    ensures Global(StepRemoveFlush(s))
  {
    hide GrantSum, SumOver, FeederOk, Ordered, HighWater, BodySum, IdsOk, SavedOk, StreamOk;
    if s.agent.flushes > 0 {
      SendConnLaw(s.agent, s.agent.connUngranted, 0);
      Settled(s, FlushConn(s.agent).(flushes := s.agent.flushes - 1));
    }
  }

  lemma LastFlushGlobal(s: State, id: nat)
    requires Inv(s) && CanLastFlush(s.agent, id)
    ensures Global(StepLastFlush(s, id))
  {
    hide GrantSum, SumOver, FeederOk, Ordered, HighWater, BodySum, IdsOk, SavedOk, StreamOk;
    FeederIsOk(s, id);
    SendConnLaw(s.agent, s.agent.connUngranted, 0);
    var h := s.agent.feeders[id];
    GoneFeeder(h);
    SumUpdate(s.agent.feeders, Owed, id, h.(phase := Gone));
    Settled(s, FlushLeft(s.agent, id));
  }

  lemma GoneFeeder(h: Feeder)
    requires FeederOk(h) && h.phase.LastFlush?
    ensures FeederOk(h.(phase := Gone))
  {
  }

  lemma LastGrantGlobal(s: State, id: nat)
    requires Inv(s) && CanLastGrant(s.agent, id)
    ensures Global(StepLastGrant(s, id))
  {
    hide GrantConn, GrantSum, SumOver, FeederOk, CreditOk, BytesOk, IdsOk, SavedOk;
    var h := s.agent.feeders[id];
    var h' := h.(hand := None, phase := LastFlush);
    FeederIsOk(s, id);
    LastGrantFeeder(h, h');
    Bounds(s);
    GrantConnLaw(s.agent, h.hand.value, 0);
    SumUpdate(s.agent.feeders, Owed, id, h');
    Settled(s, GrantLeft(s.agent, id));
  }

  lemma LastGrantFeeder(h: Feeder, h': Feeder)
    requires FeederOk(h) && h.phase.LastGrant? && h.hand.Some?
    requires h' == h.(hand := None, phase := LastFlush)
    ensures FeederOk(h') && h.queued == 0
  {
    assert |Flat([])| == 0;
  }

  /** The chunk's credit: the connection's part and, once a quarter window gathered, the stream's. */
  function ChunkGrants(a: Agent, id: nat): seq<Grant>
    requires CanGrant(a, id)
  {
    var u := a.feeders[id].ungranted + a.feeders[id].hand.value;
    if u >= STREAM_WINDOW / 4 then [Grant(id, U32(u))] else []
  }

  lemma ChunkGrantsLaw(a: Agent, id: nat, other: nat)
    requires CanGrant(a, id) && FeederOk(a.feeders[id]) && a.feeders[id].hand.value <= CONN_WINDOW
    ensures var h := a.feeders[id];
      GrantSum(ChunkGrants(a, id), id) == h.ungranted + h.hand.value - GrantChunk(a, id).feeders[id].ungranted
    ensures other != id ==> GrantSum(ChunkGrants(a, id), other) == 0
    ensures FeederOk(GrantChunk(a, id).feeders[id])
    ensures GrantChunk(a, id).ctrl == GrantConn(a, a.feeders[id].hand.value).ctrl + ChunkGrants(a, id)
    ensures forall g :: g in ChunkGrants(a, id) ==> g.n > 0 && g.id == id
  {
    hide GrantConn;
    var u := a.feeders[id].ungranted + a.feeders[id].hand.value;
    assert U32(u) == u;
    assert [Grant(id, u)][1..] == [];
  }

  /** Granting a consumed chunk moves the same amount on the connection and on the stream. */
  lemma GrantChunkLaw(a: Agent, id: nat, other: nat)
    requires CanGrant(a, id) && id > 0 && FeederOk(a.feeders[id])
    requires a.connUngranted + a.feeders[id].hand.value <= CONN_WINDOW && a.connUngranted < CONN_WINDOW / 4
    ensures var b, h := GrantChunk(a, id), a.feeders[id];
      && b == a.(connUngranted := b.connUngranted, ctrl := b.ctrl, feeders := a.feeders[id := b.feeders[id]])
      && b.feeders[id] == h.(hand := None, ungranted := b.feeders[id].ungranted)
      && FeederOk(b.feeders[id])
      && b.connUngranted + GrantSum(b.ctrl, 0) == a.connUngranted + h.hand.value + GrantSum(a.ctrl, 0)
      && b.feeders[id].ungranted + GrantSum(b.ctrl, id) == h.ungranted + h.hand.value + GrantSum(a.ctrl, id)
      && (other > 0 && other != id ==> GrantSum(b.ctrl, other) == GrantSum(a.ctrl, other))
      && b.connUngranted < CONN_WINDOW / 4
      && (a.registered == {} ==> b.connUngranted == 0)
      && (forall g :: g in b.ctrl ==> g in a.ctrl || (g.n > 0 && (g.id == 0 || g.id == id)))
  {
    hide GrantConn, GrantSum, Flat, U32, FeederOk;
    var n := a.feeders[id].hand.value;
    GrantSums(a, n, id, 0);
    GrantSums(a, n, id, id);
    GrantSums(a, n, id, other);
  }

  lemma GrantSums(a: Agent, n: nat, id: nat, k: nat)
    requires CanGrant(a, id) && FeederOk(a.feeders[id]) && n == a.feeders[id].hand.value
    requires a.connUngranted + n <= CONN_WINDOW && a.connUngranted < CONN_WINDOW / 4
    ensures var b, c := GrantChunk(a, id), GrantConn(a, n);
      && GrantSum(b.ctrl, k) == GrantSum(c.ctrl, k) + GrantSum(ChunkGrants(a, id), k)
      && (k != id ==> GrantSum(ChunkGrants(a, id), k) == 0)
      && GrantSum(ChunkGrants(a, id), id) == a.feeders[id].ungranted + n - b.feeders[id].ungranted
      && FeederOk(b.feeders[id])
      && c == a.(connUngranted := c.connUngranted, ctrl := c.ctrl)
      && c.connUngranted + GrantSum(c.ctrl, 0) == a.connUngranted + n + GrantSum(a.ctrl, 0)
      && c.connUngranted < CONN_WINDOW / 4
      && (a.registered == {} ==> c.connUngranted == 0)
      && (k > 0 ==> GrantSum(c.ctrl, k) == GrantSum(a.ctrl, k))
      && (forall g :: g in c.ctrl ==> g in a.ctrl || (g.n > 0 && g.id == 0))
      && (forall g :: g in b.ctrl ==> g in c.ctrl || (g.n > 0 && g.id == id))
  {
    hide GrantConn, GrantSum, Flat, U32, FeederOk;
    GrantConnLaw(a, n, k);
    ChunkGrantsLaw(a, id, k);
    GrantConcat(GrantConn(a, n).ctrl, ChunkGrants(a, id), k);
  }

  /** What a feeder about to grant may count on. */
  lemma GrantFacts(s: State, id: nat)
    requires Inv(s) && CanGrant(s.agent, id)
    ensures id > 0 && FeederOk(s.agent.feeders[id]) && s.agent.connUngranted < CONN_WINDOW / 4
    ensures s.agent.connUngranted + s.agent.feeders[id].hand.value <= CONN_WINDOW
  {
    hide Ordered, HighWater, BytesOf, EndLast, Flat, GrantSum, SumOver, BodySum, StreamOk;
    PositiveIds(s, id);
    FeederIsOk(s, id);
    Bounds(s);
  }

  lemma GrantGlobal(s: State, id: nat)
    requires Inv(s) && CanGrant(s.agent, id)
    ensures Global(StepGrant(s, id))
  {
    hide GrantChunk, GrantSum, SumOver, FeederOk, Ordered, HighWater, BytesOf, EndLast, Flat, BodySum, StreamOk;
    GrantFacts(s, id);
    GrantChunkLaw(s.agent, id, 0);
    SumUpdate(s.agent.feeders, Owed, id, GrantChunk(s.agent, id).feeders[id]);
    Settled(s, GrantChunk(s.agent, id));
  }

  lemma GrantCredit(s: State, grant: nat, id: nat)
    requires Inv(s) && CanGrant(s.agent, grant)
    ensures CreditOk(StepGrant(s, grant), id)
  {
    hide GrantChunk, GrantSum, SumOver, FeederOk, Ordered, HighWater, BytesOf, EndLast, Flat, BodySum, BytesOk, Global;
    assert StreamOk(s, id);
    GrantFacts(s, grant);
    GrantChunkLaw(s.agent, grant, id);
  }

  lemma GrantBytes(s: State, grant: nat, id: nat)
    requires Inv(s) && CanGrant(s.agent, grant)
    ensures BytesOk(StepGrant(s, grant), id)
  {
    hide GrantChunk, GrantSum, SumOver, FeederOk, Ordered, HighWater, BytesOf, EndLast, BodySum, CreditOk, Global, BytesOk;
    assert StreamOk(s, id);
    GrantFacts(s, grant);
    GrantChunkLaw(s.agent, grant, id);
    var b := GrantChunk(s.agent, grant);
    assert Content(b.feeders[grant]) == Content(s.agent.feeders[grant]);
    SwapBytes(s, grant, b.feeders[grant], id);
    GrantOnly(s, grant, b, id);
  }

  /** Granting touches nothing the order of the bytes depends on. */
  lemma GrantOnly(s: State, grant: nat, b: Agent, id: nat)
    requires grant in s.agent.feeders
    requires b == s.agent.(connUngranted := b.connUngranted, ctrl := b.ctrl, feeders := b.feeders)
    ensures BytesOk(s.(agent := s.agent.(feeders := b.feeders)), id) == BytesOk(s.(agent := b), id)
  {
    hide BytesOf, EndLast, Content, Flat;
  }

  lemma PositiveIds(s: State, id: nat)
    requires IdsOk(s) && id in s.agent.feeders
    ensures id > 0 && id <= s.agent.maxSeen
  {
  }

  lemma WriteCtrlGlobal(s: State, i: nat)
    requires Global(s)
    ensures Global(StepWriteCtrl(s, i))
  {
    if i < |s.agent.ctrl| {
      MoveGrant(s.agent.ctrl, s.agent.wire, i, 0);
      hide GrantSum, SumOver, FeederOk;
      Settled(s, s.agent.(ctrl := s.agent.ctrl[..i] + s.agent.ctrl[i + 1..], wire := s.agent.wire + [s.agent.ctrl[i]]));
    }
  }

  /** Connection grants and flushes leave every stream alone. */
  lemma ConnOnlyStream(s: State, b: Agent, id: nat)
    requires StreamOk(s, id)
    requires b == s.agent.(connUngranted := b.connUngranted, ctrl := b.ctrl, readerHand := b.readerHand, flushes := b.flushes)
    requires id > 0 ==> GrantSum(b.ctrl, id) == GrantSum(s.agent.ctrl, id)
    ensures StreamOk(s.(agent := b), id)
  {
    hide GrantSum, Content, BytesOf, EndLast;
  }

  lemma ReaderGrantStream(s: State, id: nat)
    requires Inv(s)
    ensures StreamOk(StepReaderGrant(s), id)
  {
    assert StreamOk(s, id);
    if s.agent.readerHand.Some? {
      Bounds(s);
      GrantConnLaw(s.agent, s.agent.readerHand.value, id);
      hide GrantConn, GrantSum, BytesOk, CreditOk;
      ConnOnlyStream(s, GrantConn(s.agent, s.agent.readerHand.value).(readerHand := None), id);
    }
  }

  lemma RemoveFlushStream(s: State, id: nat)
    requires Global(s) && StreamOk(s, id)
    ensures StreamOk(StepRemoveFlush(s), id)
  {
    if s.agent.flushes > 0 {
      SendConnLaw(s.agent, s.agent.connUngranted, id);
      hide GrantSum, BytesOk, CreditOk;
      ConnOnlyStream(s, FlushConn(s.agent).(flushes := s.agent.flushes - 1), id);
    }
  }

  lemma LastFlushStream(s: State, last: nat, id: nat)
    requires Global(s) && StreamOk(s, id) && CanLastFlush(s.agent, last)
    ensures StreamOk(StepLastFlush(s, last), id)
  {
    hide GrantSum, BytesOk, CreditOk;
    SendConnLaw(s.agent, s.agent.connUngranted, id);
    ConnOnlyStream(s, FlushConn(s.agent), id);
    var t := s.(agent := FlushConn(s.agent));
    PhaseStream(t, last, t.agent.feeders[last].(phase := Gone), id);
  }

  lemma PhaseStream(s: State, swap: nat, h: Feeder, id: nat)
    requires StreamOk(s, id) && swap in s.agent.feeders && s.agent.feeders[swap].Fed() && h.Fed()
    requires h == s.agent.feeders[swap].(phase := h.phase, hand := h.hand) && Or0(h.hand) <= Or0(s.agent.feeders[swap].hand)
    requires IdsOk(s)
    ensures StreamOk(s.(agent := WithFeeder(s.agent, swap, h)), id)
  {
    assert Content(h) == Content(s.agent.feeders[swap]);
    SwapBytes(s, swap, h, id);
    SwapCredit(s, swap, h, id);
  }

  lemma LastGrantStream(s: State, last: nat, id: nat)
    requires Inv(s) && CanLastGrant(s.agent, last)
    ensures StreamOk(StepLastGrant(s, last), id)
  {
    assert StreamOk(s, id);
    Bounds(s);
    var h := s.agent.feeders[last];
    var b := if h.hand.value > 0 then GrantConn(s.agent, h.hand.value) else s.agent;
    assert FeederOk(h);
    GrantConnLaw(s.agent, h.hand.value, id);
    hide GrantConn, GrantSum, BytesOk, CreditOk, FeederOk;
    ConnOnlyStream(s, b, id);
    PhaseStream(s.(agent := b), last, h.(hand := None, phase := LastFlush), id);
  }

  lemma WriteCtrlStream(s: State, i: nat, id: nat)
    requires StreamOk(s, id)
    ensures StreamOk(StepWriteCtrl(s, i), id)
  {
    hide GrantSum, Content, BytesOf, EndLast;
    if i < |s.agent.ctrl| {
      MoveGrant(s.agent.ctrl, s.agent.wire, i, id);
    }
  }

  lemma RemoveKeeps(s: State, remove: nat, id: nat)
    requires Global(s) && StreamOk(s, id)
    ensures Global(StepRemove(s, remove)) && StreamOk(StepRemove(s, remove), id)
  {
    hide Ordered, HighWater, BytesOf, EndLast, Flat, GrantSum, SumOver, BodySum, Content, FeederOk, PumpOk;
  }

  lemma RefuseKeeps(s: State, id: nat)
    requires Global(s) && StreamOk(s, id)
    ensures Global(StepRefuse(s)) && StreamOk(StepRefuse(s), id)
  {
    hide Ordered, HighWater, BytesOf, EndLast, Flat, GrantSum, SumOver, BodySum, Content, FeederOk, PumpOk;
  }

  // ---------------------------------------------------------------- every run

  lemma DispatchKeeps(s: State, headOk: bool, id: nat)
    requires Inv(s)
    ensures Global(StepDispatch(s, headOk)) && StreamOk(StepDispatch(s, headOk), id)
  {
    hide Global, CreditOk, BytesOk;
    assert StreamOk(s, id);
    if s.edge.wire != [] && s.agent.readerHand.None? {
      var f := s.edge.wire[0];
      match f
      case ReqHead(head, http) =>
        HeadGlobal(s, head, http, headOk);
        HeadCredit(s, head, http, headOk, id);
        HeadBytes(s, head, http, headOk, id);
      case ReqBody(from, data) =>
        if Accepts(s.agent, from) {
          BodyRoom(s, from, data);
          EnqueueGlobal(s, from, data);
          EnqueueCredit(s, from, data, id);
          EnqueueBytes(s, from, data, id);
        } else {
          DiscardGlobal(s, from, data);
          DiscardStream(s, from, data, id);
        }
      case ReqEnd(tail) =>
        TailGlobal(s, tail, true);
        TailCredit(s, tail, true, id);
        EndBytesAgent(s, tail, id);
      case Reset(tail) =>
        TailGlobal(s, tail, false);
        TailCredit(s, tail, false, id);
        ResetBytes(s, tail, id);
    }
  }

  lemma EdgeKeeps(s: State, step: Step, id: nat)
    requires Inv(s) && !OfFeeder(step) && !OfSession(step)
    ensures Global(Do(s, step)) && StreamOk(Do(s, step), id)
  {
    hide ShapeOk, IdsOk, SavedOk, ConnOk, CreditOk, BytesOk, StepOpen, StepRefuse, StepTake, StepSend, StepEndBody, StepResEnd,
         StepFinish, StepReceive, StepHibernate;
    assert StreamOk(s, id);
    match step
    case DoOpen(http, body) =>
      OpenGlobal(s, http, body);
      OpenCredit(s, http, body, id);
      OpenBytes(s, http, body, id);
    case DoRefuse => RefuseKeeps(s, id);
    case DoTake(t, want) =>
      TakeGlobal(s, t, want);
      TakeCredit(s, t, want, id);
      TakeBytes(s, t, want, id);
    case DoSend(t) =>
      SendGlobal(s, t);
      SendCredit(s, t, id);
      SendBytes(s, t, id);
    case DoEndBody(t) =>
      EndBodyGlobal(s, t);
      EndBodyStream(s, t, id);
    case DoResEnd(t) =>
      ResEndGlobal(s, t);
      ResEndStream(s, t, id);
    case DoFinish(t, notify) =>
      FinishGlobal(s, t, notify);
      FinishStream(s, t, notify, id);
    case DoReceive =>
      ReceiveGlobal(s);
      ReceiveCredit(s, id);
      ReceiveBytes(s, id);
    case DoHibernate =>
      HibernateKeeps(s);
      assert StreamOk(StepHibernate(s), id);
  }

  lemma PopStep(s: State, t: nat, id: nat)
    requires Inv(s)
    ensures Global(StepPop(s, t)) && StreamOk(StepPop(s, t), id)
  {
    hide ShapeOk, IdsOk, SavedOk, ConnOk, CreditOk, BytesOk;
    assert StreamOk(s, id);
    if CanPop(s.agent, t) {
      PopKeeps(s, t, id);
    }
  }

  lemma WriteStep(s: State, t: nat, k: nat, id: nat)
    requires Inv(s)
    ensures Global(StepWrite(s, t, k)) && StreamOk(StepWrite(s, t, k), id)
  {
    hide ShapeOk, IdsOk, SavedOk, ConnOk, CreditOk, BytesOk;
    assert StreamOk(s, id);
    if CanWrite(s.agent, t) {
      WriteKeeps(s, t, k, id);
    }
  }

  lemma GrantStep(s: State, t: nat, id: nat)
    requires Inv(s)
    ensures Global(StepGrant(s, t)) && StreamOk(StepGrant(s, t), id)
  {
    hide ShapeOk, IdsOk, SavedOk, ConnOk, CreditOk, BytesOk;
    assert StreamOk(s, id);
    if CanGrant(s.agent, t) {
      GrantGlobal(s, t);
      GrantCredit(s, t, id);
      GrantBytes(s, t, id);
    }
  }

  lemma LeaveStep(s: State, t: nat, clean: bool, id: nat)
    requires Inv(s)
    ensures Global(StepLeave(s, t, clean)) && StreamOk(StepLeave(s, t, clean), id)
  {
    hide ShapeOk, IdsOk, SavedOk, ConnOk, CreditOk, BytesOk;
    assert StreamOk(s, id);
    if CanLeave(s.agent, t, clean) {
      LeaveKeeps(s, t, clean, id);
    }
  }

  lemma LockStep(s: State, t: nat, id: nat)
    requires Inv(s)
    ensures Global(StepLock(s, t)) && StreamOk(StepLock(s, t), id)
  {
    hide ShapeOk, IdsOk, SavedOk, ConnOk, CreditOk, BytesOk;
    assert StreamOk(s, id);
    if CanLock(s.agent, t) {
      LockKeeps(s, t, id);
    }
  }

  lemma LastGrantStep(s: State, t: nat, id: nat)
    requires Inv(s)
    ensures Global(StepLastGrant(s, t)) && StreamOk(StepLastGrant(s, t), id)
  {
    hide ShapeOk, IdsOk, SavedOk, ConnOk, CreditOk, BytesOk;
    assert StreamOk(s, id);
    if CanLastGrant(s.agent, t) {
      LastGrantGlobal(s, t);
      LastGrantStream(s, t, id);
    }
  }

  lemma LastFlushStep(s: State, t: nat, id: nat)
    requires Inv(s)
    ensures Global(StepLastFlush(s, t)) && StreamOk(StepLastFlush(s, t), id)
  {
    hide ShapeOk, IdsOk, SavedOk, ConnOk, CreditOk, BytesOk;
    assert StreamOk(s, id);
    if CanLastFlush(s.agent, t) {
      LastFlushGlobal(s, t);
      LastFlushStream(s, t, id);
    }
  }

  predicate OfFeeder(step: Step) {
    step.DoPop? || step.DoWrite? || step.DoGrant? || step.DoLeave? || step.DoLock? || step.DoLastGrant? || step.DoLastFlush?
  }

  lemma FeederKeeps(s: State, step: Step, id: nat)
    requires Inv(s) && OfFeeder(step)
    ensures Global(Do(s, step)) && StreamOk(Do(s, step), id)
  {
    hide Global, StreamOk, StepPop, StepWrite, StepGrant, StepLeave, StepLock, StepLastGrant, StepLastFlush;
    match step
    case DoPop(t) => PopStep(s, t, id);
    case DoWrite(t, k) => WriteStep(s, t, k, id);
    case DoGrant(t) => GrantStep(s, t, id);
    case DoLeave(t, clean) => LeaveStep(s, t, clean, id);
    case DoLock(t) => LockStep(s, t, id);
    case DoLastGrant(t) => LastGrantStep(s, t, id);
    case DoLastFlush(t) => LastFlushStep(s, t, id);
  }

  predicate OfSession(step: Step) {
    step.DoDispatch? || step.DoReaderGrant? || step.DoCancel? || step.DoRemove? || step.DoRemoveFlush? || step.DoWriteCtrl?
  }

  lemma SessionKeeps(s: State, step: Step, id: nat)
    requires Inv(s) && OfSession(step)
    ensures Global(Do(s, step)) && StreamOk(Do(s, step), id)
  {
    hide Global, StreamOk, StepDispatch, StepReaderGrant, StepCancel, StepRemove, StepRemoveFlush, StepWriteCtrl;
    assert StreamOk(s, id);
    match step
    case DoDispatch(headOk) => DispatchKeeps(s, headOk, id);
    case DoReaderGrant =>
      ReaderGrantGlobal(s);
      ReaderGrantStream(s, id);
    case DoCancel(t) => CancelKeeps(s, t, id);
    case DoRemove(t) => RemoveKeeps(s, t, id);
    case DoRemoveFlush =>
      RemoveFlushGlobal(s);
      RemoveFlushStream(s, id);
    case DoWriteCtrl(i) =>
      WriteCtrlGlobal(s, i);
      WriteCtrlStream(s, i, id);
  }

  lemma StepKeeps(s: State, step: Step)
    requires Inv(s)
    ensures Inv(Do(s, step))
  {
    hide Global, StreamOk, Do;
    forall id: nat
      ensures Global(Do(s, step)) && StreamOk(Do(s, step), id)
    {
      if OfFeeder(step) {
        FeederKeeps(s, step, id);
      } else if OfSession(step) {
        SessionKeeps(s, step, id);
      } else {
        EdgeKeeps(s, step, id);
      }
    }
    assert StreamOk(Do(s, step), 0);
  }

  lemma {:induction false} RunKeeps(steps: seq<Step>)
    ensures Inv(Run(steps))
  {
    if steps == [] {
      StartOk();
    } else {
      RunKeeps(steps[..|steps| - 1]);
      StepKeeps(Run(steps[..|steps| - 1]), steps[|steps| - 1]);
    }
  }

  lemma StartOk()
    ensures Inv(Start)
  {
    forall id: nat
      ensures StreamOk(Start, id)
    {
    }
  }
}
