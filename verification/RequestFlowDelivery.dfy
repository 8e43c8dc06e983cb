/**
 * Requests that get through: what each side does with a chunk, an end and a RESET, and that a request
 * nothing cuts short reaches the local app whole.
 */
module RequestFlowDelivery {
  import opened Limits
  import opened Sums
  import opened RequestFlow
  import opened Windows
  import opened RequestFlowSafety
  import opened RequestFlowEnds
  import opened RequestFlowTheorems

  // ---------------------------------------------------------------- what each side does

  /** A chunk is as much as asked for, a frame, the body and both credits allow, and is paid for on both. */
  lemma PumpTakes(steps: seq<Step>, id: nat, want: nat)
    requires id in Run(steps).edge.pumps
    requires var e, p := Run(steps).edge, Run(steps).edge.pumps[id];
      p.live && p.http && !p.resEnded && !p.endSent && p.hand == [] && want > 0 && p.taken < |p.body| && p.credit > 0 && e.conn > 0
    ensures var e, f := Run(steps).edge, Do(Run(steps), DoTake(id, want)).edge; var p, q := e.pumps[id], f.pumps[id];
      && p.taken < q.taken <= |p.body| && q.hand == p.body[p.taken..q.taken]
      && q.taken - p.taken == Least([want, 65536, |p.body| - p.taken, p.credit, e.conn])
      && q.credit == p.credit - |q.hand| && f.conn == e.conn - |q.hand|
  {
    hide Run, Inv, StreamOk, Least;
    RunKeeps(steps);
    PumpIsOk(Run(steps), id);
    var p := Run(steps).edge.pumps[id];
    LeastOfFive(want, |p.body| - p.taken, p.credit, Run(steps).edge.conn);
  }

  /**
   * What a stream puts on the socket, and when: the chunk in hand; REQ_END once the body is out or the
   * response has ended; RESET when it must tell.
   */
  lemma PumpSpeaks(steps: seq<Step>, id: nat)
    requires id in Run(steps).edge.pumps && Run(steps).edge.pumps[id].live
    ensures var s := Run(steps); var e, p := s.edge, s.edge.pumps[id];
      && (p.hand != [] ==> Do(s, DoSend(id)).edge.wire == e.wire + [ReqBody(id, p.hand)])
      && (p.hand == [] && p.taken == |p.body| && !p.endSent ==> Do(s, DoEndBody(id)).edge.wire == e.wire + [ReqEnd(id)])
      && (!p.resEnded ==> Do(s, DoResEnd(id)).edge.wire == e.wire + (if p.endSent then [] else [ReqEnd(id)]))
      && (forall notify :: var f := Do(s, DoFinish(id, notify)).edge;
            f.wire == e.wire + (if notify then [Reset(id)] else []) && id in f.pumps && !f.pumps[id].live)
  {
    hide Run, Idle;
    var e := Run(steps).edge;
    assert e.wire + [] == e.wire;
  }

  lemma PumpIsOk(s: State, id: nat)
    requires Inv(s) && id in s.edge.pumps
    ensures PumpOk(s.edge.pumps[id])
  {
  }

  function Least(s: seq<int>): (m: int)
    requires s != []
    ensures m in s && forall x :: x in s ==> m <= x
  {
    if |s| == 1 then s[0] else
      var m := Least(s[1..]);
      assert s == [s[0]] + s[1..];
      if s[0] <= m then s[0] else m
  }

  lemma LeastOfFive(want: int, left: int, credit: int, conn: int)
    ensures Least([want, 65536, left, credit, conn]) == Min(Min(want, Min(MAX_BODY_CHUNK, left)), Min(credit, conn))
  {
    var m := Least([want, 65536, left, credit, conn]);
    assert m in [want, 65536, left, credit, conn];
    assert forall x :: x in [want, 65536, left, credit, conn] ==> m <= x;
    assert want in [want, 65536, left, credit, conn] && left in [want, 65536, left, credit, conn]
      && credit in [want, 65536, left, credit, conn] && conn in [want, 65536, left, credit, conn];
  }

  /**
   * A RESET from the edge stops the stream at the agent: whatever follows, it stays cancelled, and its
   * feeder may leave between any two chunks without waiting for the rest.
   */
  lemma ResetStopsTheStream(steps: seq<Step>, headOk: bool, more: seq<Step>, id: nat)
    requires var s := Run(steps);
      && s.edge.wire != [] && s.edge.wire[0] == Reset(id) && s.agent.readerHand.None?
      && id in s.agent.registered && id in s.agent.feeders
    ensures var t := Run(steps + [DoDispatch(headOk)] + more);
      && id in t.agent.feeders && t.agent.feeders[id].cancelled
      && (t.agent.feeders[id].phase.Feeding? && t.agent.feeders[id].cur.None? && t.agent.feeders[id].hand.None? ==>
            var u := Do(t, DoLeave(id, false)).agent.feeders[id]; u.phase == Leaving && !u.eof)
  {
    hide Run;
    RunSnoc(steps, DoDispatch(headOk));
    CancelIsFinal(steps + [DoDispatch(headOk)], more, id);
  }

  lemma {:induction false} CancelIsFinal(steps: seq<Step>, more: seq<Step>, id: nat)
    requires id in Run(steps).agent.feeders && Run(steps).agent.feeders[id].cancelled
    ensures id in Run(steps + more).agent.feeders && Run(steps + more).agent.feeders[id].cancelled
  {
    hide Do, Inv;
    if more == [] {
      assert steps + more == steps;
    } else {
      var init := more[..|more| - 1];
      assert (steps + more)[..|steps + more| - 1] == steps + init;
      CancelIsFinal(steps, init, id);
      RunKeeps(steps + init);
      CancelLasts(Run(steps + init), more[|more| - 1], id);
    }
  }

  lemma CancelLasts(s: State, step: Step, id: nat)
    requires Inv(s) && id in s.agent.feeders && s.agent.feeders[id].cancelled
    ensures id in Do(s, step).agent.feeders && Do(s, step).agent.feeders[id].cancelled
  {
    hide Do, Inv;
    if step.DoDispatch? {
      FeederSeen(s, id);
      DispatchCancels(s, step, id);
    } else {
      FeederCancels(s, step, id);
    }
  }

  lemma DispatchCancels(s: State, step: Step, id: nat)
    requires step.DoDispatch? && id in s.agent.feeders && s.agent.feeders[id].cancelled && id <= s.agent.maxSeen
    ensures id in Do(s, step).agent.feeders && Do(s, step).agent.feeders[id].cancelled
  {
    hide Open, Take, ResEnd, Finish, OnWindow, GrantConn;
  }

  lemma FeederCancels(s: State, step: Step, id: nat)
    requires !step.DoDispatch? && id in s.agent.feeders && s.agent.feeders[id].cancelled
    ensures id in Do(s, step).agent.feeders && Do(s, step).agent.feeders[id].cancelled
  {
    hide Open, Refuse, Take, Send, EndBody, ResEnd, Finish, OnWindow, Dispatch, GrantConn, FlushConn, CanTake, CanHibernate;
    KeptFeeders(s.agent);
  }

  lemma FeederSeen(s: State, id: nat)
    requires Inv(s) && id in s.agent.feeders
    ensures id <= s.agent.maxSeen
  {
  }

  /** A feeder that has left without being cancelled has seen REQ_END, and told the app if it still reads. */
  ghost predicate LeftCleanly(h: Feeder) {
    !h.phase.Feeding? && !h.cancelled ==> h.reqEnded && h.eof == !h.discard
  }

  lemma {:induction false} FeedersLeaveCleanly(steps: seq<Step>, id: nat)
    requires id in Run(steps).agent.feeders
    ensures LeftCleanly(Run(steps).agent.feeders[id])
  {
    hide Do, LeftCleanly;
    if steps != [] {
      var n := |steps| - 1;
      if id in Run(steps[..n]).agent.feeders {
        FeedersLeaveCleanly(steps[..n], id);
      }
      LeaveLasts(Run(steps[..n]), steps[n], id);
    }
  }

  lemma LeaveLasts(s: State, step: Step, id: nat)
    requires id in s.agent.feeders ==> LeftCleanly(s.agent.feeders[id])
    requires id in Do(s, step).agent.feeders
    ensures LeftCleanly(Do(s, step).agent.feeders[id])
  {
    hide Do, LeftCleanly;
    if step.DoDispatch? {
      DispatchLeaves(s, step, id);
    } else {
      FeederLeaves(s, step, id);
    }
  }

  lemma DispatchLeaves(s: State, step: Step, id: nat)
    requires step.DoDispatch? && (id in s.agent.feeders ==> LeftCleanly(s.agent.feeders[id]))
    requires id in Do(s, step).agent.feeders
    ensures LeftCleanly(Do(s, step).agent.feeders[id])
  {
    hide Open, Take, ResEnd, Finish, OnWindow, GrantConn;
  }

  lemma FeederLeaves(s: State, step: Step, id: nat)
    requires !step.DoDispatch? && (id in s.agent.feeders ==> LeftCleanly(s.agent.feeders[id]))
    requires id in Do(s, step).agent.feeders
    ensures LeftCleanly(Do(s, step).agent.feeders[id])
  {
    hide Open, Refuse, Take, Send, EndBody, ResEnd, Finish, OnWindow, Dispatch, GrantConn, FlushConn, CanTake, CanHibernate;
    KeptFeeders(s.agent);
  }

  lemma KeptFeeders(a: Agent)
    ensures FlushConn(a).feeders == a.feeders && forall n :: GrantConn(a, n).feeders == a.feeders
  {
  }

  // ---------------------------------------------------------------- spared requests

  /**
   * The steps that cut a request short: an answer, a finish or a RESET before the body's end was sent,
   * a refused head, an app that stops reading, a stream cancelled or removed at the agent.
   */
  predicate Spoils(s: State, step: Step, id: nat) {
    match step
    case DoResEnd(k) => k == id && id in s.edge.pumps && !s.edge.pumps[id].endSent
    case DoFinish(k, notify) => k == id && (notify || (id in s.edge.pumps && !s.edge.pumps[id].endSent))
    case DoDispatch(headOk) => !headOk && s.edge.wire != [] && s.edge.wire[0] == ReqHead(id, true)
    case DoWrite(k, n) => k == id && id in s.agent.feeders && s.agent.feeders[id].cur.Some? && n < |s.agent.feeders[id].cur.value|
    case DoCancel(k) => k == id
    case DoRemove(k) => k == id
    case _ => false
  }

  ghost predicate Spared(steps: seq<Step>, id: nat) {
    forall i :: 0 <= i < |steps| ==> !Spoils(Run(steps[..i]), steps[i], id)
  }

  ghost predicate PumpUnspoiled(e: Edge, id: nat)
    requires id in e.pumps
  {
    var p := e.pumps[id];
    Reset(id) !in e.wire && (p.resEnded ==> p.endSent) && (p.endSent ==> p.endAt == |p.body|)
  }

  predicate FeederUnspoiled(a: Agent, id: nat) {
    id in a.registered && id in a.feeders && !a.feeders[id].cancelled && !a.feeders[id].discard
  }

  ghost predicate Unspoiled(s: State, id: nat) {
    id in s.edge.pumps && s.edge.pumps[id].http ==>
      PumpUnspoiled(s.edge, id) && (id <= s.agent.maxSeen ==> FeederUnspoiled(s.agent, id))
  }

  lemma OpenUnspoiled(s: State, http: bool, body: Bytes, id: nat)
    requires Inv(s) && Unspoiled(s, id)
    ensures Unspoiled(StepOpen(s, http, body), id)
  {
    hide Ordered, HighWater, StreamOk, ShapeOk, ConnOk;
    HighWaterAbove(s.edge.wire, s.agent.maxSeen);
  }

  lemma PumpStepUnspoiled(s: State, step: Step, id: nat)
    requires Inv(s) && Unspoiled(s, id) && !Spoils(s, step, id)
    requires step.DoRefuse? || step.DoTake? || step.DoSend? || step.DoEndBody? || step.DoResEnd? || step.DoFinish?
          || step.DoReceive? || step.DoHibernate?
    ensures Unspoiled(Do(s, step), id)
  {
    hide Ordered, HighWater, StreamOk, ShapeOk, ConnOk, IdsOk, Idle;
  }

  lemma HeadsAbove(w: seq<Frame>, seen: nat)
    requires Ordered(w, seen)
    ensures forall f :: f in w && f.ReqHead? ==> f.id > seen
  {
    if w != [] {
      HeadsAbove(w[1..], if w[0].ReqHead? then w[0].id else seen);
    }
  }

  /** A head that is accepted opens its feeder, and passes over none that is still to come. */
  lemma HeadUnspoiled(s: State, headOk: bool, id: nat)
    requires Inv(s) && Unspoiled(s, id) && !Spoils(s, DoDispatch(headOk), id)
    requires s.edge.wire != [] && s.edge.wire[0].ReqHead? && s.agent.readerHand.None?
    ensures Unspoiled(StepDispatch(s, headOk), id)
  {
    hide HighWater, StreamOk, ShapeOk, ConnOk;
    var k := s.edge.wire[0].id;
    assert s.edge.wire[0] in s.edge.wire;
    PopOrdered(s.edge.wire, s.agent.maxSeen);
    HeadsAbove(s.edge.wire[1..], k);
    if id in s.edge.pumps && s.edge.pumps[id].http && s.agent.maxSeen < id && id != k {
      assert ReqHead(id, true) in s.edge.wire[1..];
    }
  }

  lemma FrameUnspoiled(s: State, headOk: bool, id: nat)
    requires Inv(s) && Unspoiled(s, id)
    requires s.edge.wire != [] && !s.edge.wire[0].ReqHead? && s.agent.readerHand.None?
    ensures Unspoiled(StepDispatch(s, headOk), id)
  {
    hide Ordered, HighWater, ShapeOk, ConnOk, BodySum, BytesOf;
    var f := s.edge.wire[0];
    assert f in s.edge.wire;
    if f.ReqBody? && f.id in s.agent.feeders {
      BodyRoom(s, f.id, f.data);
    }
  }

  lemma FeederUnmoved(s: State, step: Step, id: nat)
    requires Unspoiled(s, id) && !Spoils(s, step, id)
    requires OfFeeder(step) || step.DoReaderGrant? || step.DoCancel? || step.DoRemove? || step.DoRemoveFlush? || step.DoWriteCtrl?
    ensures Unspoiled(Do(s, step), id)
  {
    hide GrantConn, FlushConn, PumpUnspoiled;
    KeptFeeders(s.agent);
    KeptRegistered(s.agent);
  }

  lemma KeptRegistered(a: Agent)
    ensures FlushConn(a).registered == a.registered && FlushConn(a).maxSeen == a.maxSeen
    ensures forall n :: GrantConn(a, n).registered == a.registered && GrantConn(a, n).maxSeen == a.maxSeen
  {
  }

  lemma StepUnspoiled(s: State, step: Step, id: nat)
    requires Inv(s) && Unspoiled(s, id) && !Spoils(s, step, id)
    ensures Unspoiled(Do(s, step), id)
  {
    hide Inv, Unspoiled, Spoils, StepDispatch, StepOpen;
    if step.DoOpen? {
      OpenUnspoiled(s, step.http, step.body, id);
    } else if step.DoDispatch? {
      if s.edge.wire != [] && s.agent.readerHand.None? {
        if s.edge.wire[0].ReqHead? {
          HeadUnspoiled(s, step.headOk, id);
        } else {
          FrameUnspoiled(s, step.headOk, id);
        }
      } else {
        NothingToRead(s, step.headOk);
      }
    } else if OfFeeder(step) || step.DoReaderGrant? || step.DoCancel? || step.DoRemove? || step.DoRemoveFlush? || step.DoWriteCtrl? {
      FeederUnmoved(s, step, id);
    } else {
      PumpStepUnspoiled(s, step, id);
    }
  }

  lemma NothingToRead(s: State, headOk: bool)
    requires s.edge.wire == [] || s.agent.readerHand.Some?
    ensures StepDispatch(s, headOk) == s
  {
  }

  lemma {:induction false} RunUnspoiled(steps: seq<Step>, id: nat)
    requires Spared(steps, id)
    ensures Unspoiled(Run(steps), id)
  {
    hide Do, Spoils, PumpUnspoiled, FeederUnspoiled;
    if steps != [] {
      var init := steps[..|steps| - 1];
      assert Spared(init, id) by { SparedPrefix(steps, id); }
      RunUnspoiled(init, id);
      RunKeeps(init);
      StepUnspoiled(Run(init), steps[|steps| - 1], id);
    }
  }

  lemma SparedPrefix(steps: seq<Step>, id: nat)
    requires Spared(steps, id) && steps != []
    ensures Spared(steps[..|steps| - 1], id)
  {
    hide Spoils, Run;
    var init := steps[..|steps| - 1];
    forall i | 0 <= i < |init|
      ensures !Spoils(Run(init[..i]), init[i], id)
    {
      assert init[..i] == steps[..i];
    }
  }

  /**
   * A request that nothing cuts short reaches the app. Once its REQ_END was sent and read, the agent
   * knows the body is over; the feeder can end its loop as soon as its queue is empty, and whenever it
   * has ended it, the app has read the whole body and then end of file.
   */
  lemma WholeRequestIsDelivered(steps: seq<Step>, id: nat)
    requires Spared(steps, id) && id in Run(steps).edge.pumps && Run(steps).edge.pumps[id].http
    requires Run(steps).edge.pumps[id].endSent && ReqEnd(id) !in Run(steps).edge.wire
    ensures id in Run(steps).agent.feeders && Run(steps).agent.feeders[id].reqEnded
    ensures var s := Run(steps); var h, p := s.agent.feeders[id], s.edge.pumps[id];
      && (!h.phase.Feeding? ==> h.eof && h.got == p.body)
      && (h.phase.Feeding? && h.queue == [] && h.cur.None? && h.hand.None? ==>
            var g := Run(steps + [DoLeave(id, true)]).agent.feeders; id in g && g[id].eof && g[id].got == p.body)
  {
    hide Run, Spared, Cut, LateOnly, AllLate, Ended, BytesOf, EndLast, Content, Inv;
    RunUnspoiled(steps, id);
    RunEnds(steps, id);
    var s := Run(steps);
    assert id <= s.agent.maxSeen;
    FeedersLeaveCleanly(steps, id);
    AppReadsVisitorBody(steps, id);
    RunSnoc(steps, DoLeave(id, true));
    if CanLeave(s.agent, id, true) {
      AppReadsVisitorBody(steps + [DoLeave(id, true)], id);
    }
  }

  /**
   * How a stream's agent side ends: whatever is queued is dropped and owed under the lock, then granted,
   * then flushed; removal owes a flush when the session is idle, and the flush empties what is coalesced.
   */
  lemma ExitVerdict(s: State, id: nat)
    requires Inv(s) && id in s.agent.feeders
    ensures var a, h := s.agent, s.agent.feeders[id];
      && (h.phase.Leaving? ==>
            Do(s, DoLock(id)).agent == a.(feeders := a.feeders[id := h.(queue := [], queued := 0, hand := Some(h.queued), phase := LastGrant)]))
      && (h.phase.LastGrant? && h.hand.Some? ==>
            var b := Do(s, DoLastGrant(id)).agent;
            b.feeders == a.feeders[id := h.(hand := None, phase := LastFlush)]
            && GrantSum(b.ctrl, 0) + b.connUngranted == GrantSum(a.ctrl, 0) + a.connUngranted + h.hand.value)
      && (h.phase.LastFlush? ==>
            var b := Do(s, DoLastFlush(id)).agent;
            b.feeders == a.feeders[id := h.(phase := Gone)] && b.connUngranted == 0
            && GrantSum(b.ctrl, 0) == GrantSum(a.ctrl, 0) + a.connUngranted)
      && Do(s, DoCancel(id)).agent == a.(feeders := a.feeders[id := h.(cancelled := true)])
  {
    hide Inv, GrantSum, GrantConn, FlushConn;
    HandFits(s, id);
    ConnGrants(s.agent, Or0(s.agent.feeders[id].hand));
    KeptFeeders(s.agent);
  }

  lemma HandFits(s: State, id: nat)
    requires Inv(s) && id in s.agent.feeders
    ensures s.agent.connUngranted + Or0(s.agent.feeders[id].hand) < 0x1_0000_0000 && s.agent.feeders[id].queued >= 0
  {
    hide IdsOk, StreamOk, SumOver, GrantSum, Flat;
    FeederIsOk(s, id);
    Bounds(s);
  }

  /** Granting moves bytes to what is coalesced or on the queue of WINDOWs, none elsewhere. */
  lemma ConnGrants(a: Agent, n: nat)
    requires a.connUngranted + n < 0x1_0000_0000
    ensures var b := GrantConn(a, n); GrantSum(b.ctrl, 0) + b.connUngranted == GrantSum(a.ctrl, 0) + a.connUngranted + n
    ensures var b := FlushConn(a); b.connUngranted == 0 && GrantSum(b.ctrl, 0) == GrantSum(a.ctrl, 0) + a.connUngranted
  {
    hide GrantSum;
    AppendGrantAll(a.ctrl, Grant(0, a.connUngranted + n));
    AppendGrantAll(a.ctrl, Grant(0, a.connUngranted));
  }

  /** What the session does on its own: streams leave the map, an idle session flushes, WINDOWs go out in any order, ids are skipped. */
  lemma SessionVerdict(s: State, id: nat, i: nat)
    ensures id in s.agent.registered ==>
      var rest := s.agent.registered - {id};
      Do(s, DoRemove(id)).agent == s.agent.(registered := rest, flushes := s.agent.flushes + if rest == {} then 1 else 0)
    ensures s.agent.flushes > 0 ==>
      var b := Do(s, DoRemoveFlush).agent;
      b.flushes == s.agent.flushes - 1 && b.connUngranted == 0
      && (0 < s.agent.connUngranted < 0x1_0000_0000 ==> b.ctrl == s.agent.ctrl + [Grant(0, s.agent.connUngranted)])
    ensures i < |s.agent.ctrl| ==>
      var b := Do(s, DoWriteCtrl(i)).agent;
      b.wire == s.agent.wire + [s.agent.ctrl[i]] && b.ctrl == s.agent.ctrl[..i] + s.agent.ctrl[i + 1..]
    ensures Do(s, DoRefuse).edge == s.edge.(nextId := s.edge.nextId + 1)
  {
  }

  /** A WINDOW at the edge: none and too much are connection errors, the connection's counts at once, a stream's while it lives. */
  lemma WindowVerdict(s: State)
    requires s.agent.wire != []
    ensures var g, e := s.agent.wire[0], s.edge;
      Do(s, DoReceive).edge ==
        if g.n == 0 then e.(fault := true)
        else if g.id == 0 then
          if e.conn + g.n > 2147483647 then e.(fault := true) else e.(conn := e.conn + g.n, heard := true)
        else if g.id !in e.pumps || !e.pumps[g.id].live then e
        else if e.pumps[g.id].credit + g.n > 2147483647 then e.(fault := true)
        else e.(pumps := e.pumps[g.id := e.pumps[g.id].(credit := e.pumps[g.id].credit + g.n)])
  {
  }

  /** The send credit is saved when the last stream finishes, and is what an object that has nothing in memory wakes up with. */
  lemma SleepVerdict(s: State, id: nat, notify: bool)
    requires id in s.edge.pumps && s.edge.pumps[id].live
    ensures var e, f := s.edge, Do(s, DoFinish(id, notify)).edge;
      if forall k :: k in e.pumps && k != id ==> !e.pumps[k].live then f.saved == Some(e.conn) && !f.heard
      else f.saved == e.saved && f.heard == e.heard
    ensures forall t: State :: (forall k :: k in t.edge.pumps ==> !t.edge.pumps[k].live && t.edge.pumps[k].hand == []) ==>
      Do(t, DoHibernate).edge.conn == if t.edge.saved.Some? then t.edge.saved.value else 8388608
    ensures Do(s, DoHibernate) == s
  {
    forall t: State | forall k :: k in t.edge.pumps ==> !t.edge.pumps[k].live && t.edge.pumps[k].hand == []
      ensures Do(t, DoHibernate).edge.conn == if t.edge.saved.Some? then t.edge.saved.value else 8388608
    {
      assert CanHibernate(t.edge);
    }
    var pumps := s.edge.pumps[id := s.edge.pumps[id].(live := false)];
    if forall k :: k in s.edge.pumps && k != id ==> !s.edge.pumps[k].live {
      assert Idle(pumps);
    } else {
      var k :| k in s.edge.pumps && k != id && s.edge.pumps[k].live;
      assert k in pumps && pumps[k].live;
    }
  }
}
