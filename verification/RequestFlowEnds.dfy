/**
 * What the local app's end of file says about the visitor's body, also after the response has ended.
 *
 * REQ_END goes out either from the pump's own end or when RES_END is handled; in the second case a
 * chunk may be acquired and not yet sent, and then follows its REQ_END.
 */
module RequestFlowEnds {
  import opened Limits
  import opened RequestFlow
  import opened RequestFlowSafety

  // ---------------------------------------------------------------- invariant

  /** The body bytes of stream `id` ahead of its REQ_END. */
  function Cut(w: seq<Frame>, id: nat): Bytes {
    if w == [] || w[0] == ReqEnd(id) then [] else FrameBytes(w[0], id) + Cut(w[1..], id)
  }

  ghost predicate AllLate(w: seq<Frame>, id: nat, late: Bytes) {
    forall f :: f in w ==> FrameBytes(f, id) == [] || FrameBytes(f, id) == late
  }

  /** Behind the REQ_END of stream `id` only the late chunk is still to come. */
  ghost predicate LateOnly(w: seq<Frame>, id: nat, late: Bytes) {
    w == [] || if w[0] == ReqEnd(id) then AllLate(w[1..], id, late) else LateOnly(w[1..], id, late)
  }

  ghost predicate PumpEnds(p: Pump) {
    && |p.hand| <= p.taken <= |p.body|
    && p.hand == p.body[p.taken - |p.hand|..p.taken]
    && (p.endSent ==>
          && 0 <= p.endAt <= p.taken
          && (p.hand == [] || p.hand == p.body[p.endAt..p.taken])
          && (p.resEnded || p.endAt == |p.body|))
  }

  /** What was in hand when REQ_END went out. */
  ghost function LateChunk(p: Pump): Bytes
    requires PumpEnds(p) && p.endSent
  {
    p.body[p.endAt..p.taken]
  }

  /** The agent still takes the stream's data and has not seen its REQ_END. */
  predicate AwaitsEnd(a: Agent, id: nat) { id > a.maxSeen || (Accepts(a, id) && !a.feeders[id].reqEnded) }

  function ContentOf(a: Agent, id: nat): Bytes { if id in a.feeders then Content(a.feeders[id]) else [] }

  /** All that was sent ahead of REQ_END, or that and the late chunk. */
  ghost predicate Ended(p: Pump, bytes: Bytes)
    requires PumpEnds(p) && p.endSent
  {
    bytes == p.body[..p.endAt] || bytes == p.body[..p.taken]
  }

  ghost predicate EndOk(s: State, id: nat) {
    var e, a := s.edge, s.agent;
    id in e.pumps && e.pumps[id].http ==>
      var p := e.pumps[id];
      && PumpEnds(p)
      && (p.endSent && AwaitsEnd(a, id) ==>
            && ReqEnd(id) in e.wire
            && ContentOf(a, id) + Cut(e.wire, id) == p.body[..p.endAt]
            && LateOnly(e.wire, id, LateChunk(p)))
      && (id in a.feeders ==>
            var h := a.feeders[id];
            && (h.reqEnded && !h.Fed() ==>
                  p.endSent && Ended(p, Content(h)) && (id in a.registered ==> AllLate(e.wire, id, LateChunk(p))))
            && (h.eof ==> p.endSent && Ended(p, h.got)))
  }

  // ---------------------------------------------------------------- the agent's own steps

  /** The feeders may move on, and streams may leave the map. */
  ghost predicate FeedersKept(a: Agent, b: Agent) {
    && b.registered <= a.registered && b.maxSeen == a.maxSeen && b.feeders.Keys == a.feeders.Keys
    && forall id :: id in a.feeders ==> BytesKept(a.feeders[id], b.feeders[id])
  }

  lemma KeptEnds(s: State, b: Agent, id: nat)
    requires EndOk(s, id) && BytesOk(s, id) && IdsOk(s) && FeedersKept(s.agent, b)
    ensures EndOk(s.(agent := b), id)
  {
    hide Ordered, HighWater, BytesOf, EndLast, Flat, Cut, LateOnly, AllLate, Content, PumpEnds;
  }

  lemma SameFeeders(a: Agent, b: Agent)
    requires b.registered <= a.registered && b.maxSeen == a.maxSeen && b.feeders == a.feeders
    ensures FeedersKept(a, b)
  {
    hide Content;
  }

  lemma OneFeeder(a: Agent, b: Agent, id: nat)
    requires id in a.feeders && id in b.feeders && BytesKept(a.feeders[id], b.feeders[id])
    requires b.registered == a.registered && b.maxSeen == a.maxSeen && b.feeders == a.feeders[id := b.feeders[id]]
    ensures FeedersKept(a, b)
  {
    hide Content;
  }

  lemma FeederStepKept(s: State, step: Step)
    requires Inv(s) && OfFeeder(step)
    ensures Do(s, step).edge == s.edge && FeedersKept(s.agent, Do(s, step).agent)
  {
    hide Content, FeedersKept, BytesKept, Inv, FeederOk;
    SameFeeders(s.agent, s.agent);
    match step
    case DoPop(t) => if CanPop(s.agent, t) { PopKept(s, t); }
    case DoWrite(t, k) => if CanWrite(s.agent, t) { WriteKept(s, t, k); }
    case DoGrant(t) => if CanGrant(s.agent, t) { GrantKept(s, t); }
    case DoLeave(t, clean) => if CanLeave(s.agent, t, clean) { LeaveKept(s, t, clean); }
    case DoLock(t) => if CanLock(s.agent, t) { LockKept(s, t); }
    case DoLastGrant(t) => if CanLastGrant(s.agent, t) { LastGrantKept(s, t); }
    case DoLastFlush(t) => if CanLastFlush(s.agent, t) { LastFlushKept(s, t); }
  }

  lemma PopKept(s: State, t: nat)
    requires Inv(s) && CanPop(s.agent, t)
    ensures FeedersKept(s.agent, Pop(s.agent, t))
  {
    hide Flat, StreamOk, IdsOk;
    FeederIsOk(s, t);
    PopContent(s.agent.feeders[t], Pop(s.agent, t).feeders[t]);
    hide Content, FeedersKept;
    OneFeeder(s.agent, Pop(s.agent, t), t);
  }

  lemma WriteKept(s: State, t: nat, k: nat)
    requires Inv(s) && CanWrite(s.agent, t)
    ensures FeedersKept(s.agent, Write(s.agent, t, k))
  {
    hide Content, BytesKept, StreamOk, FeedersKept;
    FeederIsOk(s, t);
    WrittenContent(s.agent.feeders[t], k);
    OneFeeder(s.agent, Write(s.agent, t, k), t);
  }

  lemma GrantKept(s: State, t: nat)
    requires Inv(s) && CanGrant(s.agent, t)
    ensures FeedersKept(s.agent, GrantChunk(s.agent, t))
  {
    hide GrantChunk, StreamOk, FeedersKept, FeederOk;
    GrantFacts(s, t);
    GrantChunkLaw(s.agent, t, 0);
    OneFeeder(s.agent, GrantChunk(s.agent, t), t);
  }

  lemma LeaveKept(s: State, t: nat, clean: bool)
    requires Inv(s) && CanLeave(s.agent, t, clean)
    ensures FeedersKept(s.agent, Leave(s.agent, t, clean))
  {
    hide Content, StreamOk, FeedersKept;
    FeederIsOk(s, t);
    LeaveContent(s.agent.feeders[t], Leave(s.agent, t, clean).feeders[t]);
    OneFeeder(s.agent, Leave(s.agent, t, clean), t);
  }

  lemma LockKept(s: State, t: nat)
    requires Inv(s) && CanLock(s.agent, t)
    ensures FeedersKept(s.agent, StepLock(s, t).agent)
  {
    hide Content, StreamOk, FeedersKept;
    FeederIsOk(s, t);
    var h := s.agent.feeders[t];
    if h.queued >= 0 {
      LockContent(h, Lock(s.agent, t).feeders[t]);
      OneFeeder(s.agent, Lock(s.agent, t), t);
    } else {
      SameFeeders(s.agent, s.agent);
    }
  }

  lemma LastGrantKept(s: State, t: nat)
    requires CanLastGrant(s.agent, t)
    ensures FeedersKept(s.agent, GrantLeft(s.agent, t))
  {
    hide Flat;
    OneFeeder(s.agent, GrantLeft(s.agent, t), t);
  }

  lemma LastFlushKept(s: State, t: nat)
    requires CanLastFlush(s.agent, t)
    ensures FeedersKept(s.agent, FlushLeft(s.agent, t))
  {
    hide Flat;
    OneFeeder(s.agent, FlushLeft(s.agent, t), t);
  }

  lemma SessionStepKept(s: State, step: Step)
    requires OfSession(step) && !step.DoDispatch?
    ensures Do(s, step).edge == s.edge && FeedersKept(s.agent, Do(s, step).agent)
  {
    hide Content, FeedersKept;
    var b := Do(s, step).agent;
    if step.DoCancel? && step.id in s.agent.feeders {
      CancelledContent(s.agent.feeders[step.id]);
      OneFeeder(s.agent, b, step.id);
    } else {
      SameFeeders(s.agent, b);
    }
  }

  lemma CancelledContent(h: Feeder)
    ensures Content(h.(cancelled := true)) == Content(h)
  {
  }

  // ---------------------------------------------------------------- the agent's reader

  lemma PopCut(w: seq<Frame>, id: nat, late: Bytes)
    requires w != []
    ensures w[0] == ReqEnd(id) ==> Cut(w, id) == [] && (LateOnly(w, id, late) ==> AllLate(w[1..], id, late))
    ensures w[0] != ReqEnd(id) ==>
              Cut(w, id) == FrameBytes(w[0], id) + Cut(w[1..], id)
              && (LateOnly(w, id, late) ==> LateOnly(w[1..], id, late))
              && (ReqEnd(id) in w ==> ReqEnd(id) in w[1..])
    ensures AllLate(w, id, late) ==> AllLate(w[1..], id, late) && (FrameBytes(w[0], id) == [] || FrameBytes(w[0], id) == late)
  {
  }

  lemma HeadEnds(s: State, head: nat, http: bool, headOk: bool, id: nat)
    requires Inv(s) && Next(s, ReqHead(head, http)) && EndOk(s, id)
    ensures EndOk(Taken(s, OnReqHead(s.agent, head, http, headOk)), id)
  {
    hide Ordered, HighWater, BytesOf, EndLast, Flat, Cut, LateOnly, AllLate, Content, StreamOk, ConnOk, SavedOk, ShapeOk, PumpEnds;
    HeadIsNew(s, head, http);
    NothingFed([], []);
    if id in s.edge.pumps && PumpEnds(s.edge.pumps[id]) && s.edge.pumps[id].endSent {
      PopCut(s.edge.wire, id, LateChunk(s.edge.pumps[id]));
    }
  }

  /** A frame that is not the stream's own, or a RESET, leaves the stream's end alone. */
  lemma TailEnds(s: State, id: nat)
    requires EndOk(s, id) && s.edge.wire != []
    requires s.edge.wire[0].Reset? || (s.edge.wire[0].id != id && !s.edge.wire[0].ReqHead?)
    ensures EndOk(Taken(s, s.agent), id)
  {
    hide Ordered, HighWater, BytesOf, EndLast, Flat, Cut, LateOnly, AllLate, Content, StreamOk, ConnOk, SavedOk, ShapeOk, PumpEnds;
    if id in s.edge.pumps && PumpEnds(s.edge.pumps[id]) && s.edge.pumps[id].endSent {
      PopCut(s.edge.wire, id, LateChunk(s.edge.pumps[id]));
    }
  }

  lemma ResetEnds(s: State, tail: nat, id: nat)
    requires Inv(s) && EndOk(s, id) && Next(s, Reset(tail))
    ensures EndOk(Taken(s, OnReset(s.agent, tail)), id)
  {
    hide Ordered, HighWater, BytesOf, EndLast, Flat, Cut, LateOnly, AllLate, Content, StreamOk, ConnOk, SavedOk, ShapeOk, PumpEnds;
    TailEnds(s, id);
    if tail in s.agent.feeders {
      CancelledContent(s.agent.feeders[tail]);
    }
  }

  lemma OtherEnds(s: State, b: Agent, id: nat)
    requires EndOk(s, id)
    requires b.registered == s.agent.registered && b.maxSeen == s.agent.maxSeen
    requires id in b.feeders <==> id in s.agent.feeders
    requires id in b.feeders ==> b.feeders[id] == s.agent.feeders[id]
    ensures EndOk(s.(agent := b), id)
  {
    hide Cut, LateOnly, AllLate, Content, PumpEnds;
  }

  /** REQ_END arrives: all that was sent ahead of it has arrived. */
  lemma EndEnds(s: State, tail: nat, id: nat)
    requires Inv(s) && EndOk(s, id) && Next(s, ReqEnd(tail))
    ensures EndOk(Taken(s, OnReqEnd(s.agent, tail)), id)
  {
    hide EndOk, Inv;
    if tail == id {
      OwnEnd(s, id);
    } else {
      TailEnds(s, id);
      OtherEnds(Taken(s, s.agent), OnReqEnd(s.agent, tail), id);
    }
  }

  lemma OwnEnd(s: State, id: nat)
    requires Inv(s) && EndOk(s, id) && Next(s, ReqEnd(id))
    ensures EndOk(Taken(s, OnReqEnd(s.agent, id)), id)
  {
    hide Ordered, HighWater, BytesOf, EndLast, Flat, Cut, LateOnly, AllLate, Content, ConnOk, SavedOk, ShapeOk, PumpEnds, CreditOk;
    assert StreamOk(s, id);
    assert ReqEnd(id) in s.edge.wire;
    PopOrdered(s.edge.wire, s.agent.maxSeen);
    if id in s.agent.feeders {
      EndedContent(s.agent.feeders[id]);
    }
    if id in s.edge.pumps && PumpEnds(s.edge.pumps[id]) && s.edge.pumps[id].endSent {
      PopCut(s.edge.wire, id, LateChunk(s.edge.pumps[id]));
      assert ContentOf(s.agent, id) + [] == ContentOf(s.agent, id);
    }
  }

  lemma EndedContent(h: Feeder)
    ensures Content(h.(reqEnded := true)) == Content(h)
  {
  }

  lemma DiscardEnds(s: State, from: nat, data: Bytes, id: nat)
    requires Inv(s) && EndOk(s, id) && Next(s, ReqBody(from, data)) && !Accepts(s.agent, from)
    ensures EndOk(Taken(s, s.agent.(readerHand := Some(|data|))), id)
  {
    hide Ordered, HighWater, BytesOf, EndLast, Flat, Cut, LateOnly, AllLate, Content, StreamOk, ConnOk, SavedOk, ShapeOk, PumpEnds;
    PopOrdered(s.edge.wire, s.agent.maxSeen);
    if id in s.edge.pumps && PumpEnds(s.edge.pumps[id]) && s.edge.pumps[id].endSent {
      PopCut(s.edge.wire, id, LateChunk(s.edge.pumps[id]));
      assert [] + Cut(s.edge.wire[1..], id) == Cut(s.edge.wire[1..], id);
    }
  }

  lemma EnqueueEnds(s: State, from: nat, data: Bytes, id: nat)
    requires Inv(s) && EndOk(s, id) && Next(s, ReqBody(from, data)) && Accepts(s.agent, from)
    ensures EndOk(Taken(s, Enqueued(s.agent, from, data)), id)
  {
    hide EndOk, Inv;
    if from == id {
      OwnEnqueue(s, id, data);
    } else {
      TailEnds(s, id);
      OtherEnds(Taken(s, s.agent), Enqueued(s.agent, from, data), id);
    }
  }

  lemma OwnEnqueue(s: State, id: nat, data: Bytes)
    requires Inv(s) && EndOk(s, id) && Next(s, ReqBody(id, data)) && Accepts(s.agent, id)
    ensures EndOk(Taken(s, Enqueued(s.agent, id, data)), id)
  {
    hide Ordered, HighWater, BytesOf, EndLast, Flat, Cut, LateOnly, AllLate, Content, ConnOk, SavedOk, ShapeOk, PumpEnds, CreditOk, StreamOk;
    PopOrdered(s.edge.wire, s.agent.maxSeen);
    EnqueueContent(s.agent.feeders[id], data);
    if id in s.edge.pumps && PumpEnds(s.edge.pumps[id]) && s.edge.pumps[id].endSent && s.edge.pumps[id].http {
      if s.agent.feeders[id].reqEnded {
        PopCut(s.edge.wire, id, LateChunk(s.edge.pumps[id]));
        LateArrives(s, id, data);
      } else {
        EarlyArrives(s, id, data);
      }
    }
  }

  /** Ahead of REQ_END a chunk only moves from the socket to the queue. */
  lemma EarlyArrives(s: State, id: nat, data: Bytes)
    requires Inv(s) && EndOk(s, id) && Next(s, ReqBody(id, data)) && Accepts(s.agent, id) && !s.agent.feeders[id].reqEnded
    requires id in s.edge.pumps && s.edge.pumps[id].http && s.edge.pumps[id].endSent
    ensures var p, rest := s.edge.pumps[id], s.edge.wire[1..];
      ReqEnd(id) in rest && Content(s.agent.feeders[id]) + data + Cut(rest, id) == p.body[..p.endAt] && LateOnly(rest, id, LateChunk(p))
  {
    hide Inv, Cut, LateOnly, AllLate, Content, PumpEnds, Ended, FrameBytes;
    PopCut(s.edge.wire, id, LateChunk(s.edge.pumps[id]));
    ChunkMoves(Content(s.agent.feeders[id]), data, Cut(s.edge.wire[1..], id), id);
  }

  lemma ChunkMoves(content: Bytes, data: Bytes, rest: Bytes, id: nat)
    ensures content + (FrameBytes(ReqBody(id, data), id) + rest) == content + data + rest
  {
  }

  /** Only the late chunk follows REQ_END, and only once. */
  lemma LateArrives(s: State, id: nat, data: Bytes)
    requires Inv(s) && EndOk(s, id) && Next(s, ReqBody(id, data)) && Accepts(s.agent, id) && s.agent.feeders[id].reqEnded
    requires id in s.edge.pumps && s.edge.pumps[id].http
    ensures Ended(s.edge.pumps[id], Content(s.agent.feeders[id]) + data)
  {
    hide Ordered, HighWater, EndLast, Flat, Cut, LateOnly, Content, ConnOk, SavedOk, ShapeOk, CreditOk, BytesOf;
    assert StreamOk(s, id);
    var p, content := s.edge.pumps[id], Content(s.agent.feeders[id]);
    PopFrame(s.edge.wire, id);
    assert s.edge.wire[0] in s.edge.wire;
    if data == [] {
      assert content + data == content;
    } else {
      assert data == LateChunk(p) == p.body[p.endAt..p.taken];
      assert |content| + |data| <= p.taken;
      assert p.body[..p.endAt] + p.body[p.endAt..p.taken] == p.body[..p.taken];
    }
  }

  // ---------------------------------------------------------------- the edge

  lemma AppendCut(w: seq<Frame>, f: Frame, id: nat)
    ensures ReqEnd(id) in w ==> Cut(w + [f], id) == Cut(w, id)
    ensures ReqEnd(id) !in w ==> Cut(w, id) == BytesOf(w, id) && Cut(w + [f], id) == BytesOf(w, id) + (if f == ReqEnd(id) then [] else FrameBytes(f, id))
  {
    if w == [] {
      assert w + [f] == [f];
      assert Cut([f], id) == if f == ReqEnd(id) then [] else FrameBytes(f, id) + Cut([], id);
    } else {
      assert (w + [f])[1..] == w[1..] + [f];
      AppendCut(w[1..], f, id);
    }
  }

  lemma AppendLate(w: seq<Frame>, f: Frame, id: nat, late: Bytes)
    requires FrameBytes(f, id) == [] || FrameBytes(f, id) == late
    ensures AllLate(w, id, late) ==> AllLate(w + [f], id, late)
    ensures LateOnly(w, id, late) ==> LateOnly(w + [f], id, late)
  {
    if w == [] {
      assert w + [f] == [f];
      assert LateOnly([f], id, late);
    } else {
      assert (w + [f])[1..] == w[1..] + [f];
      AppendLate(w[1..], f, id, late);
    }
  }

  /** Ahead of any REQ_END there is nothing to be late. */
  lemma NoneLate(w: seq<Frame>, id: nat, late: Bytes)
    requires ReqEnd(id) !in w
    ensures LateOnly(w + [ReqEnd(id)], id, late)
  {
    if w == [] {
      assert w + [ReqEnd(id)] == [ReqEnd(id)];
    } else {
      assert (w + [ReqEnd(id)])[1..] == w[1..] + [ReqEnd(id)];
      assert w[0] in w;
      NoneLate(w[1..], id, late);
    }
  }

  lemma EdgeStepEnds(s: State, step: Step, id: nat)
    requires Inv(s) && EndOk(s, id) && !OfFeeder(step) && !OfSession(step)
    ensures EndOk(Do(s, step), id)
  {
    hide EndOk, Inv, StepOpen, StepTake, StepSend, StepEndBody, StepResEnd, StepFinish, StepReceive;
    match step
    case DoOpen(http, body) => OpenEnds(s, http, body, id);
    case DoRefuse => QuietEnds(s, StepRefuse(s), id);
    case DoTake(t, want) => TakeEnds(s, t, want, id);
    case DoSend(t) => SendEnds(s, t, id);
    case DoEndBody(t) => EndBodyEnds(s, t, id);
    case DoResEnd(t) => ResEndEnds(s, t, id);
    case DoFinish(t, notify) => FinishEnds(s, t, notify, id);
    case DoReceive => ReceiveEnds(s, id);
    case DoHibernate => QuietEnds(s, StepHibernate(s), id);
  }

  /** Neither the socket nor the feeders nor the stream's body moved. */
  ghost predicate Quiet(s: State, r: State, id: nat) {
    && r.edge.wire == s.edge.wire && r.agent.feeders == s.agent.feeders && r.agent.registered == s.agent.registered
    && r.agent.maxSeen == s.agent.maxSeen && (id in r.edge.pumps <==> id in s.edge.pumps)
    && (id in r.edge.pumps ==> r.edge.pumps[id] == s.edge.pumps[id].(credit := r.edge.pumps[id].credit, live := r.edge.pumps[id].live))
  }

  lemma QuietEnds(s: State, r: State, id: nat)
    requires EndOk(s, id) && Quiet(s, r, id)
    ensures EndOk(r, id)
  {
    hide Cut, LateOnly, AllLate, Content;
  }

  lemma ReceiveEnds(s: State, id: nat)
    requires EndOk(s, id)
    ensures EndOk(StepReceive(s), id)
  {
    hide EndOk;
    QuietEnds(s, StepReceive(s), id);
  }

  /** A frame that is neither the stream's body nor its end goes out. */
  lemma OtherFrame(s: State, f: Frame, id: nat)
    requires EndOk(s, id) && FrameBytes(f, id) == [] && f != ReqEnd(id)
    ensures EndOk(s.(edge := s.edge.(wire := s.edge.wire + [f])), id)
  {
    hide Cut, LateOnly, AllLate, Content, PumpEnds, FrameBytes;
    AppendCut(s.edge.wire, f, id);
    if id in s.edge.pumps && PumpEnds(s.edge.pumps[id]) && s.edge.pumps[id].endSent {
      AppendLate(s.edge.wire, f, id, LateChunk(s.edge.pumps[id]));
    }
  }

  lemma FinishEnds(s: State, done: nat, notify: bool, id: nat)
    requires EndOk(s, id)
    ensures EndOk(StepFinish(s, done, notify), id)
  {
    hide EndOk;
    OtherFrame(s, Reset(done), id);
    if CanFinish(s.edge, done) {
      QuietEnds(if notify then s.(edge := s.edge.(wire := s.edge.wire + [Reset(done)])) else s, StepFinish(s, done, notify), id);
    }
  }

  lemma OpenEnds(s: State, http: bool, body: Bytes, id: nat)
    requires Inv(s) && EndOk(s, id)
    ensures EndOk(StepOpen(s, http, body), id)
  {
    hide EndOk, Ordered, HighWater, StreamOk, ShapeOk, ConnOk, SavedOk;
    NextUnused(s);
    if id == s.edge.nextId {
      NewEnds(s, http, body);
    } else {
      OtherFrame(s, ReqHead(s.edge.nextId, http), id);
      QuietEnds(s.(edge := s.edge.(wire := s.edge.wire + [ReqHead(s.edge.nextId, http)])), StepOpen(s, http, body), id);
    }
  }

  lemma NewEnds(s: State, http: bool, body: Bytes)
    requires s.edge.nextId !in s.agent.feeders
    ensures EndOk(StepOpen(s, http, body), s.edge.nextId)
  {
  }

  lemma TakeEnds(s: State, take: nat, want: nat, id: nat)
    requires Inv(s) && EndOk(s, id)
    ensures EndOk(StepTake(s, take, want), id)
  {
    hide EndOk, Inv;
    if take != id {
      QuietEnds(s, StepTake(s, take, want), id);
    } else if CanTake(s.edge, id, want) {
      OwnTake(s, want, id);
    }
  }

  lemma OwnTake(s: State, want: nat, id: nat)
    requires Inv(s) && EndOk(s, id) && CanTake(s.edge, id, want)
    ensures EndOk(StepTake(s, id, want), id)
  {
    hide Cut, LateOnly, AllLate, Content, IdsOk, ConnOk, SavedOk, CreditOk, BytesOk, Allowed;
    assert PumpOk(s.edge.pumps[id]);
    AllowedFits(s.edge, s.edge.pumps[id], want);
  }

  lemma SendEnds(s: State, send: nat, id: nat)
    requires Inv(s) && EndOk(s, id)
    ensures EndOk(StepSend(s, send), id)
  {
    hide EndOk, Inv;
    if CanSend(s.edge, send) {
      if send != id {
        var f := ReqBody(send, s.edge.pumps[send].hand);
        OtherFrame(s, f, id);
        QuietEnds(s.(edge := s.edge.(wire := s.edge.wire + [f])), StepSend(s, send), id);
      } else {
        OwnSend(s, id);
      }
    }
  }

  lemma OwnSend(s: State, id: nat)
    requires Inv(s) && EndOk(s, id) && CanSend(s.edge, id)
    ensures EndOk(StepSend(s, id), id)
  {
    hide Cut, LateOnly, AllLate, Content, Global, CreditOk, BytesOk, BytesOf;
    var f := ReqBody(id, s.edge.pumps[id].hand);
    AppendCut(s.edge.wire, f, id);
    if s.edge.pumps[id].http && s.edge.pumps[id].endSent {
      AppendLate(s.edge.wire, f, id, LateChunk(s.edge.pumps[id]));
    }
  }

  /** While the agent awaits the end, what it has and what is on the socket is what was sent. */
  lemma SentSoFar(s: State, id: nat)
    requires Inv(s) && EndOk(s, id) && id in s.edge.pumps && s.edge.pumps[id].http && AwaitsEnd(s.agent, id)
    ensures var p := s.edge.pumps[id];
      |p.hand| <= p.taken <= |p.body| && ContentOf(s.agent, id) + BytesOf(s.edge.wire, id) == p.body[..p.taken - |p.hand|]
  {
    hide Cut, LateOnly, AllLate, Content, CreditOk, BytesOf, ConnOk, SavedOk, Ordered, HighWater;
    assert StreamOk(s, id);
    var p := s.edge.pumps[id];
    var sent := ContentOf(s.agent, id) + BytesOf(s.edge.wire, id);
    assert [] + BytesOf(s.edge.wire, id) == BytesOf(s.edge.wire, id);
    assert sent + p.hand == p.body[..p.taken];
    assert sent == (sent + p.hand)[..p.taken - |p.hand|] == p.body[..p.taken - |p.hand|];
  }

  /** REQ_END goes out behind what was sent, with `hand` still to follow. */
  lemma EndGoesOut(s: State, id: nat, resEnded: bool)
    requires Inv(s) && EndOk(s, id) && id in s.edge.pumps && s.edge.pumps[id].http && !s.edge.pumps[id].endSent
    requires resEnded || (s.edge.pumps[id].hand == [] && s.edge.pumps[id].taken == |s.edge.pumps[id].body|)
    ensures var p := s.edge.pumps[id];
      EndOk(s.(edge := WithPump(s.edge, id, p.(endSent := true, endAt := p.taken - |p.hand|, resEnded := resEnded)).(
                 wire := s.edge.wire + [ReqEnd(id)])), id)
  {
    hide Cut, LateOnly, AllLate, Content, CreditOk, BytesOf, ConnOk, SavedOk, IdsOk, ShapeOk;
    assert StreamOk(s, id);
    AppendCut(s.edge.wire, ReqEnd(id), id);
    NoneLate(s.edge.wire, id, s.edge.pumps[id].hand);
    assert BytesOf(s.edge.wire, id) + [] == BytesOf(s.edge.wire, id);
    if AwaitsEnd(s.agent, id) {
      SentSoFar(s, id);
    }
  }

  lemma EndBodyEnds(s: State, end: nat, id: nat)
    requires Inv(s) && EndOk(s, id)
    ensures EndOk(StepEndBody(s, end), id)
  {
    hide EndOk, Inv;
    if CanEndBody(s.edge, end) {
      if end != id {
        OtherFrame(s, ReqEnd(end), id);
        QuietEnds(s.(edge := s.edge.(wire := s.edge.wire + [ReqEnd(end)])), StepEndBody(s, end), id);
      } else if s.edge.pumps[id].http {
        EndGoesOut(s, id, s.edge.pumps[id].resEnded);
      } else {
        NotHttp(StepEndBody(s, id), id);
      }
    }
  }

  lemma NotHttp(s: State, id: nat)
    requires id in s.edge.pumps ==> !s.edge.pumps[id].http
    ensures EndOk(s, id)
  {
  }

  lemma ResEndEnds(s: State, end: nat, id: nat)
    requires Inv(s) && EndOk(s, id)
    ensures EndOk(StepResEnd(s, end), id)
  {
    hide EndOk, Inv;
    if CanResEnd(s.edge, end) {
      var p := s.edge.pumps[end];
      if end != id {
        OtherFrame(s, ReqEnd(end), id);
        QuietEnds(if p.endSent then s else s.(edge := s.edge.(wire := s.edge.wire + [ReqEnd(end)])), StepResEnd(s, end), id);
      } else if !p.http {
        NotHttp(StepResEnd(s, id), id);
      } else if p.endSent {
        AnsweredEnds(s, id);
      } else {
        EndGoesOut(s, id, true);
      }
    }
  }

  lemma AnsweredEnds(s: State, id: nat)
    requires EndOk(s, id) && CanResEnd(s.edge, id) && s.edge.pumps[id].endSent
    ensures EndOk(StepResEnd(s, id), id)
  {
    hide Cut, LateOnly, AllLate, Content;
  }

  // ---------------------------------------------------------------- every run

  lemma DispatchEnds(s: State, headOk: bool, id: nat)
    requires Inv(s) && EndOk(s, id)
    ensures EndOk(StepDispatch(s, headOk), id)
  {
    hide Inv, EndOk;
    if s.edge.wire != [] && s.agent.readerHand.None? {
      match s.edge.wire[0]
      case ReqHead(head, http) => HeadEnds(s, head, http, headOk, id);
      case ReqBody(from, data) =>
        if Accepts(s.agent, from) {
          BodyRoom(s, from, data);
          EnqueueEnds(s, from, data, id);
        } else {
          DiscardEnds(s, from, data, id);
        }
      case ReqEnd(tail) => EndEnds(s, tail, id);
      case Reset(tail) => ResetEnds(s, tail, id);
    }
  }

  lemma StepEnds(s: State, step: Step, id: nat)
    requires Inv(s) && EndOk(s, id)
    ensures EndOk(Do(s, step), id)
  {
    hide EndOk, Global, CreditOk, BytesOk, StepDispatch, FeedersKept;
    assert StreamOk(s, id) && Global(s);
    if step.DoDispatch? {
      DispatchEnds(s, step.headOk, id);
    } else if OfFeeder(step) {
      hide Do;
      FeederStepKept(s, step);
      KeptRun(s, step, id);
    } else if OfSession(step) {
      hide Do;
      SessionStepKept(s, step);
      KeptRun(s, step, id);
    } else {
      EdgeStepEnds(s, step, id);
    }
  }

  lemma KeptRun(s: State, step: Step, id: nat)
    requires Inv(s) && EndOk(s, id) && Do(s, step).edge == s.edge && FeedersKept(s.agent, Do(s, step).agent)
    ensures EndOk(Do(s, step), id)
  {
    hide EndOk, Do, ShapeOk, IdsOk, SavedOk, ConnOk, CreditOk, BytesOk, FeedersKept;
    assert StreamOk(s, id);
    KeptEnds(s, Do(s, step).agent, id);
    SameLoss(s, step, id);
  }

  lemma SameLoss(s: State, step: Step, id: nat)
    requires Do(s, step).edge == s.edge
    ensures EndOk(s.(agent := Do(s, step).agent), id) == EndOk(Do(s, step), id)
  {
    hide Do;
  }

  lemma {:induction false} RunEnds(steps: seq<Step>, id: nat)
    ensures EndOk(Run(steps), id)
  {
    hide Do, Inv;
    if steps != [] {
      RunEnds(steps[..|steps| - 1], id);
      RunKeeps(steps[..|steps| - 1]);
      StepEnds(Run(steps[..|steps| - 1]), steps[|steps| - 1], id);
    }
  }
}
