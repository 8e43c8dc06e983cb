/** The promises of request-body flow control, for every run. */
module RequestFlowTheorems {
  import opened Limits
  import opened Sums
  import opened RequestFlow
  import opened Windows
  import opened RequestFlowSafety
  import opened RequestFlowEnds

  // ---------------------------------------------------------------- hibernation

  /** An object that hibernates although a connection WINDOW has arrived since its attachment was written. */
  ghost predicate Forgets(s: State, step: Step) { step.DoHibernate? && CanHibernate(s.edge) && s.edge.heard }

  ghost predicate NeverForgets(steps: seq<Step>) {
    forall i :: 0 <= i < |steps| ==> !Forgets(Run(steps[..i]), steps[i])
  }

  /** Credit is lost by exactly the hibernations that forget a WINDOW, and never found again. */
  lemma OnlyForgettingLoses(s: State, step: Step)
    requires Inv(s)
    ensures Do(s, step).lost >= s.lost
    ensures Do(s, step).lost == s.lost <==> !Forgets(s, step)
  {
    hide Open, Refuse, Take, Send, EndBody, ResEnd, Finish, OnWindow, Dispatch, GrantConn, Pop, Write, GrantChunk, Leave, Lock,
      GrantLeft, FlushLeft, Remove, FlushConn, ShapeOk, IdsOk, ConnOk, StreamOk;
  }

  lemma NeverForgetsSnoc(steps: seq<Step>)
    requires steps != []
    ensures var n := |steps| - 1; NeverForgets(steps) <==> NeverForgets(steps[..n]) && !Forgets(Run(steps[..n]), steps[n])
  {
    hide Run, Forgets;
    var n := |steps| - 1;
    forall i | 0 <= i < n
      ensures steps[..n][..i] == steps[..i] && steps[..n][i] == steps[i]
    {
    }
    if NeverForgets(steps[..n]) && !Forgets(Run(steps[..n]), steps[n]) {
      forall i | 0 <= i < |steps|
        ensures !Forgets(Run(steps[..i]), steps[i])
      {
        if i < n {
          assert !Forgets(Run(steps[..n][..i]), steps[..n][i]);
        }
      }
    }
  }

  lemma {:induction false} LossIsForgetting(steps: seq<Step>)
    ensures Run(steps).lost >= 0
    ensures Run(steps).lost == 0 <==> NeverForgets(steps)
  {
    hide Do, Inv, Forgets, NeverForgets;
    if steps == [] {
      NothingForgotten();
    } else {
      var n := |steps| - 1;
      LossIsForgetting(steps[..n]);
      RunKeeps(steps[..n]);
      OnlyForgettingLoses(Run(steps[..n]), steps[n]);
      NeverForgetsSnoc(steps);
    }
  }

  lemma NothingForgotten()
    ensures NeverForgets([]) && Run([]) == Start
  {
  }

  /**
   * Connection credit is conserved to the byte. Only hibernation can lose any, and it does exactly
   * when a connection WINDOW has arrived since the last stream's end was persisted.
   */
  lemma ConnectionCreditConserved(steps: seq<Step>)
    ensures ConnTotal(Run(steps)) + Run(steps).lost == CONN_WINDOW
    ensures ConnTotal(Run(steps)) <= CONN_WINDOW
    ensures ConnTotal(Run(steps)) == CONN_WINDOW <==> NeverForgets(steps)
  {
    hide Run, Do, ConnTotal, StreamOk, IdsOk, SavedOk, FeederOk, PumpOk, NeverForgets;
    RunKeeps(steps);
    LossIsForgetting(steps);
  }

  lemma RunSnoc(steps: seq<Step>, step: Step)
    ensures Run(steps + [step]) == Do(Run(steps), step)
  {
    assert (steps + [step])[..|steps|] == steps;
  }

  /** One byte sent and its stream ended. */
  lemma ByteSent(r: seq<Step>)
    requires r == [] + [DoOpen(true, [0])] + [DoTake(1, 1)] + [DoSend(1)] + [DoFinish(1, true)]
    ensures var e := Run(r).edge;
      && e.conn == CONN_WINDOW - 1 && e.saved == Some(e.conn) && !e.heard
      && e.pumps.Keys == {1} && !e.pumps[1].live && e.pumps[1].hand == []
      && e.wire == [ReqHead(1, true), ReqBody(1, [0]), Reset(1)]
    ensures Run(r).agent == Start.agent && Run(r).lost == 0
  {
    hide Run;
    var r1 := [] + [DoOpen(true, [0])];
    var r2 := r1 + [DoTake(1, 1)];
    var r3 := r2 + [DoSend(1)];
    NothingForgotten();
    RunSnoc([], DoOpen(true, [0]));
    RunSnoc(r1, DoTake(1, 1));
    assert Run(r2).edge.pumps[1].hand == [0] && Run(r2).edge.wire == [ReqHead(1, true)];
    RunSnoc(r2, DoSend(1));
    assert Run(r3).edge.pumps[1].hand == [] && Run(r3).edge.wire == [ReqHead(1, true), ReqBody(1, [0])];
    RunSnoc(r3, DoFinish(1, true));
    assert Run(r).edge.wire == Run(r3).edge.wire + [Reset(1)];
  }

  /** Nobody wants the byte, so its credit goes straight back. */
  lemma ByteDiscarded(r: seq<Step>)
    requires Run(r).agent == Start.agent && Run(r).edge.wire == [ReqHead(1, true), ReqBody(1, [0]), Reset(1)]
    ensures var s := Run(r + [DoDispatch(false)] + [DoDispatch(true)]);
      && s.edge == Run(r).edge.(wire := [Reset(1)]) && s.lost == Run(r).lost
      && s.agent == Start.agent.(maxSeen := 1, readerHand := Some(1), resets := [1])
  {
    hide Run;
    RunSnoc(r, DoDispatch(false));
    RunSnoc(r + [DoDispatch(false)], DoDispatch(true));
  }

  lemma ByteGranted(r: seq<Step>)
    requires Run(r).agent == Start.agent.(maxSeen := 1, readerHand := Some(1), resets := [1])
    ensures var s := Run(r + [DoReaderGrant] + [DoWriteCtrl(0)]);
      s.edge == Run(r).edge && s.lost == Run(r).lost && s.agent.wire == [Grant(0, 1)]
  {
    hide Run;
    RunSnoc(r, DoReaderGrant);
    RunSnoc(r + [DoReaderGrant], DoWriteCtrl(0));
  }

  /** A stream that ended before its byte's credit came back: hibernation then forgets the byte. */
  lemma HibernationLosesCredit()
    ensures exists steps :: Run(steps).lost == 1 && ConnTotal(Run(steps)) == CONN_WINDOW - 1
  {
    hide Run, ConnTotal, Inv, GrantSum, SumOver, NeverForgets;
    var r := [] + [DoOpen(true, [0])] + [DoTake(1, 1)] + [DoSend(1)] + [DoFinish(1, true)];
    var d := r + [DoDispatch(false)] + [DoDispatch(true)];
    var q := d + [DoReaderGrant] + [DoWriteCtrl(0)];
    ByteSent(r);
    ByteDiscarded(r);
    ByteGranted(d);
    RunSnoc(q, DoReceive);
    RunSnoc(q + [DoReceive], DoHibernate);
    ConnectionCreditConserved(q + [DoReceive] + [DoHibernate]);
    assert Run(q + [DoReceive] + [DoHibernate]).lost == 1;
  }

  /** Stream credit never exceeds its window, and none of it is missing while both ends are joined. */
  lemma StreamCreditConserved(steps: seq<Step>, id: nat)
    requires id > 0
    ensures StreamTotal(Run(steps), id) <= STREAM_WINDOW
    ensures var s := Run(steps);
      id in s.edge.pumps && s.edge.pumps[id].live && s.edge.pumps[id].http && Linked(s.agent, id)
      ==> StreamTotal(s, id) == STREAM_WINDOW
  {
    RunKeeps(steps);
    assert StreamOk(Run(steps), id);
  }

  /**
   * Between conforming peers no protocol check ever fires: no queue overflow, no window above
   * MAX_WINDOW, no REQ_HEAD id at or below the high-water mark; and every queue stays in its window.
   */
  lemma NoCheckFires(steps: seq<Step>)
    ensures !Run(steps).edge.fault && !Run(steps).agent.fault
    ensures forall id :: id in Run(steps).agent.feeders ==> 0 <= Run(steps).agent.feeders[id].queued <= STREAM_WINDOW
  {
    RunKeeps(steps);
    var s := Run(steps);
    forall id | id in s.agent.feeders
      ensures 0 <= s.agent.feeders[id].queued <= STREAM_WINDOW
    {
      assert FeederOk(s.agent.feeders[id]) && StreamOk(s, id);
    }
  }

  /** The reader resets each stream at most once, and only streams whose head it refused. */
  ghost predicate ResetsOk(a: Agent) {
    && (forall i, j :: 0 <= i < j < |a.resets| ==> a.resets[i] < a.resets[j])
    && (forall id :: id in a.resets ==> id <= a.maxSeen && id !in a.feeders && id !in a.registered)
    && (forall id :: id in a.registered || id in a.feeders ==> id <= a.maxSeen)
  }

  lemma {:induction false} ResetsOnlyRefusedHeads(steps: seq<Step>)
    ensures ResetsOk(Run(steps).agent)
  {
    hide Do, Inv, ResetsOk;
    if steps == [] {
      NoResets();
    } else {
      var n := |steps| - 1;
      ResetsOnlyRefusedHeads(steps[..n]);
      RunKeeps(steps[..n]);
      NoCheckFires(steps);
      StepResets(Run(steps[..n]), steps[n]);
    }
  }

  lemma NoResets()
    ensures ResetsOk(Start.agent)
  {
  }

  lemma StepResets(s: State, step: Step)
    requires ResetsOk(s.agent) && !Do(s, step).agent.fault
    ensures ResetsOk(Do(s, step).agent)
  {
    hide ResetsOk, Do;
    if step.DoDispatch? {
      DispatchResets(s, step.headOk);
    } else {
      OnlyDispatchResets(s, step);
      FewerStreams(s.agent, Do(s, step).agent);
    }
  }

  lemma DispatchResets(s: State, headOk: bool)
    requires ResetsOk(s.agent) && !Do(s, DoDispatch(headOk)).agent.fault
    ensures ResetsOk(Do(s, DoDispatch(headOk)).agent)
  {
    hide ResetsOk;
    if s.edge.wire != [] && s.agent.readerHand.None? {
      var f := s.edge.wire[0];
      if f.ReqHead? {
        HeadResets(s.agent, f.id, f.http, headOk);
      } else {
        FewerStreams(s.agent, Dispatch(s.agent, f, headOk));
      }
    }
  }

  lemma HeadResets(a: Agent, id: nat, http: bool, headOk: bool)
    requires ResetsOk(a) && id > a.maxSeen
    ensures ResetsOk(OnReqHead(a, id, http, headOk))
  {
    assert forall i :: 0 <= i < |a.resets| ==> a.resets[i] in a.resets;
  }

  lemma OnlyDispatchResets(s: State, step: Step)
    requires !step.DoDispatch?
    ensures var a, b := s.agent, Do(s, step).agent;
      b.resets == a.resets && b.maxSeen == a.maxSeen && b.feeders.Keys == a.feeders.Keys && b.registered <= a.registered
  {
    hide Finish, OnWindow, Open, Take, ResEnd, StepPop, StepWrite, StepGrant, StepLeave, StepLock, StepLastGrant, StepLastFlush;
    if OfFeeder(step) {
      FeederResets(s, step);
    }
  }

  lemma FeederResets(s: State, step: Step)
    requires OfFeeder(step)
    ensures var a, b := s.agent, Do(s, step).agent;
      b.resets == a.resets && b.maxSeen == a.maxSeen && b.feeders.Keys == a.feeders.Keys && b.registered == a.registered
  {
    hide StepGrant, StepLastGrant, StepLastFlush;
    if step.DoGrant? || step.DoLastGrant? || step.DoLastFlush? {
      GrantResets(s, step.id);
    }
  }

  lemma GrantResets(s: State, id: nat)
    ensures forall step :: step in {DoGrant(id), DoLastGrant(id), DoLastFlush(id)} ==>
              var a, b := s.agent, Do(s, step).agent;
              b.resets == a.resets && b.maxSeen == a.maxSeen && b.feeders.Keys == a.feeders.Keys && b.registered == a.registered
  {
  }

  lemma FewerStreams(a: Agent, b: Agent)
    requires ResetsOk(a)
    requires b.resets == a.resets && b.maxSeen == a.maxSeen && b.feeders.Keys == a.feeders.Keys && b.registered <= a.registered
    ensures ResetsOk(b)
  {
    assert forall id :: id in b.feeders <==> id in a.feeders.Keys;
  }

  ghost predicate ChannelsEmpty(s: State) {
    && s.edge.wire == [] && s.agent.ctrl == [] && s.agent.wire == []
    && s.agent.readerHand.None?
    && (forall id :: id in s.edge.pumps ==> s.edge.pumps[id].hand == [])
  }

  /** No stream registered, no feeder left, nothing on the way and every flush done. */
  ghost predicate AtRest(s: State) {
    ChannelsEmpty(s) && s.agent.registered == {} && s.agent.flushes == 0
    && forall id :: id in s.agent.feeders ==> s.agent.feeders[id].phase.Gone?
  }

  /**
   * Exactly-once return: at rest, all the credit the edge ever had (less what it forgot itself) is
   * back, which is the whole window exactly if it never forgot any.
   */
  lemma FullWindowAtRest(steps: seq<Step>)
    requires AtRest(Run(steps))
    ensures Run(steps).edge.conn + Run(steps).lost == CONN_WINDOW
    ensures Run(steps).edge.conn == CONN_WINDOW <==> NeverForgets(steps)
  {
    hide Run, Inv, AtRest, NeverForgets;
    RunKeeps(steps);
    LossIsForgetting(steps);
    RestIsWhole(Run(steps));
  }

  lemma RestIsWhole(s: State)
    requires Inv(s) && AtRest(s)
    ensures s.edge.conn + s.lost == CONN_WINDOW
  {
    hide SumOver, StreamOk, PumpOk, IdsOk, SavedOk;
    forall id | id in s.agent.feeders
      ensures Owed(s.agent.feeders[id]) == 0
    {
      GoneOwesNothing(s.agent.feeders[id]);
    }
    SumZero(s.agent.feeders, Owed);
    SumZero(s.edge.pumps, HandLen);
    assert BodySum([]) == 0 && GrantSum([], 0) == 0;
  }

  lemma GoneOwesNothing(h: Feeder)
    requires FeederOk(h) && h.phase.Gone?
    ensures Owed(h) == 0
  {
    assert h.Fed();
    assert |Flat([])| == 0;
  }

  ghost predicate Consumed(h: Feeder) { h.queued == 0 && h.hand.None? }

  /**
   * No credit deadlock unless hibernation forgot some: when only the `stalled` streams still hold data, the
   * connection keeps more than (6 - |stalled|) MiB and every other joined stream more than 3/4 MiB.
   */
  lemma StalledStreamsStarveNobody(steps: seq<Step>, stalled: set<nat>)
    requires NeverForgets(steps)
    requires var s := Run(steps);
      ChannelsEmpty(s) && forall id :: id in s.agent.feeders && id !in stalled ==> Consumed(s.agent.feeders[id])
    ensures Run(steps).edge.conn > (6 - |stalled|) * 1048576
    ensures forall id :: id in Run(steps).edge.pumps && id !in stalled && Run(steps).edge.pumps[id].live
              && Run(steps).edge.pumps[id].http && Linked(Run(steps).agent, id)
              ==> Run(steps).edge.pumps[id].credit > STREAM_WINDOW / 4 * 3
  {
    hide Run, SumOver, StreamOk, IdsOk, SavedOk, FeederOk, PumpOk, NeverForgets;
    RunKeeps(steps);
    LossIsForgetting(steps);
    var s := Run(steps);
    forall id | id in s.agent.feeders
      ensures Owed(s.agent.feeders[id]) <= STREAM_WINDOW
    {
      OwedWithinWindow(s, id);
    }
    SumBounded(s.agent.feeders, Owed, stalled);
    SumZero(s.edge.pumps, HandLen);
    assert BodySum([]) == 0 && GrantSum([], 0) == 0;
    forall id | id in s.edge.pumps && id !in stalled && s.edge.pumps[id].live && s.edge.pumps[id].http && Linked(s.agent, id)
      ensures s.edge.pumps[id].credit > STREAM_WINDOW / 4 * 3
    {
      JoinedStreamKeepsCredit(s, id);
    }
  }

  lemma OwedWithinWindow(s: State, id: nat)
    requires Inv(s) && id in s.agent.feeders
    ensures Owed(s.agent.feeders[id]) <= STREAM_WINDOW
  {
    assert FeederOk(s.agent.feeders[id]);
    assert StreamOk(s, id);
  }

  lemma JoinedStreamKeepsCredit(s: State, id: nat)
    requires Inv(s) && ChannelsEmpty(s)
    requires id in s.edge.pumps && s.edge.pumps[id].live && s.edge.pumps[id].http && Linked(s.agent, id)
    requires id in s.agent.feeders ==> Consumed(s.agent.feeders[id])
    ensures s.edge.pumps[id].credit > STREAM_WINDOW / 4 * 3
  {
    assert StreamOk(s, id);
    if id in s.agent.feeders {
      assert FeederOk(s.agent.feeders[id]);
    }
  }

  /**
   * What is restored after hibernation never exceeds the true credit, and is all of it exactly when
   * no connection WINDOW has arrived since the attachment was written.
   */
  lemma RestoredCreditIsSafe(steps: seq<Step>)
    requires CanHibernate(Run(steps).edge)
    ensures Restored(Run(steps).edge) <= Run(steps).edge.conn
    ensures Restored(Run(steps).edge) == Run(steps).edge.conn <==> !Run(steps).edge.heard
  {
    RunKeeps(steps);
  }

  /**
   * The local app reads a prefix of the visitor's body. At a clean end it has read everything sent
   * ahead of REQ_END, and perhaps the one chunk that was in hand then.
   */
  lemma AppReadsVisitorBody(steps: seq<Step>, id: nat)
    requires id in Run(steps).agent.feeders
    ensures id in Run(steps).edge.pumps
    ensures var h, p := Run(steps).agent.feeders[id], Run(steps).edge.pumps[id];
      && h.got <= p.body
      && (h.eof ==> p.endSent && 0 <= p.endAt <= p.taken <= |p.body| && (h.got == p.body[..p.endAt] || h.got == p.body[..p.taken]))
      && (h.eof && !p.resEnded ==> h.got == p.body)
  {
    hide Run, Cut, AllLate, LateOnly, BytesOf, EndLast, Ordered, HighWater, SumOver, CreditOk;
    RunKeeps(steps);
    RunEnds(steps, id);
    var s := Run(steps);
    assert StreamOk(s, id);
    var h := s.agent.feeders[id];
    assert h.drained <= Content(h);
  }

  /** How much of the body was sent ahead of REQ_END, and taken for it, is settled once it has gone out. */
  lemma {:induction false} EndIsSettled(steps: seq<Step>, more: seq<Step>, id: nat)
    requires id in Run(steps).edge.pumps && Run(steps).edge.pumps[id].endSent
    ensures id in Run(steps + more).edge.pumps && Run(steps + more).edge.pumps[id].endSent
    ensures var p, q := Run(steps).edge.pumps[id], Run(steps + more).edge.pumps[id];
      q.endAt == p.endAt && q.taken == p.taken && q.body == p.body && q.http == p.http
  {
    hide Do;
    if more == [] {
      assert steps + more == steps;
    } else {
      var init := more[..|more| - 1];
      assert (steps + more)[..|steps + more| - 1] == steps + init;
      EndIsSettled(steps, init, id);
      RunKeeps(steps + init);
      StepSettles(Run(steps + init), more[|more| - 1], id);
    }
  }

  lemma StepSettles(s: State, step: Step, id: nat)
    requires IdsOk(s) && id in s.edge.pumps && s.edge.pumps[id].endSent
    ensures id in Do(s, step).edge.pumps
    ensures var p, q := s.edge.pumps[id], Do(s, step).edge.pumps[id];
      q.endSent && q.endAt == p.endAt && q.taken == p.taken && q.body == p.body && q.http == p.http
  {
    hide Dispatch, GrantConn, Pop, Write, GrantChunk, Leave, Lock, GrantLeft, FlushLeft, Remove, FlushConn, Ordered, HighWater;
    NextUnused(s);
  }

  /** REQ_END from the pump's own end: end of file means the whole body, whatever follows. */
  lemma WholeBodyAfterOwnEnd(steps: seq<Step>, more: seq<Step>, id: nat)
    requires CanEndBody(Run(steps).edge, id) && Run(steps).edge.pumps[id].http
    requires var t := Run(steps + [DoEndBody(id)] + more); id in t.agent.feeders && t.agent.feeders[id].eof
    ensures Run(steps + [DoEndBody(id)] + more).agent.feeders[id].got == Run(steps).edge.pumps[id].body
  {
    hide Run, Inv;
    RunSnoc(steps, DoEndBody(id));
    EndIsSettled(steps + [DoEndBody(id)], more, id);
    AppReadsVisitorBody(steps + [DoEndBody(id)] + more, id);
  }

  /**
   * REQ_END because the response ended. With `p` the pump at that moment: end of file means the whole
   * body if all of it had been sent, never if some had not been taken, and in between it depends on
   * whether the chunk in hand overtakes the feeder.
   */
  lemma EndOfFileAfterAnswer(steps: seq<Step>, more: seq<Step>, id: nat)
    requires CanResEnd(Run(steps).edge, id) && Run(steps).edge.pumps[id].http && !Run(steps).edge.pumps[id].endSent
    requires var t := Run(steps + [DoResEnd(id)] + more); id in t.agent.feeders && t.agent.feeders[id].eof
    ensures var p, got := Run(steps).edge.pumps[id], Run(steps + [DoResEnd(id)] + more).agent.feeders[id].got;
      && |p.hand| <= p.taken <= |p.body|
      && (got == p.body[..p.taken - |p.hand|] || got == p.body[..p.taken])
      && (p.taken == |p.body| && p.hand == [] ==> got == p.body)
      && (p.taken < |p.body| ==> got != p.body)
  {
    hide Run, Inv, Cut, AllLate, LateOnly;
    RunEnds(steps, id);
    RunSnoc(steps, DoResEnd(id));
    EndIsSettled(steps + [DoResEnd(id)], more, id);
    AppReadsVisitorBody(steps + [DoResEnd(id)] + more, id);
  }

  /** The response ends before the visitor's only byte is read: the app sees an end of file all the same. */
  lemma AnswerCutsBody()
    ensures exists steps :: var s := Run(steps);
      1 in s.agent.feeders && 1 in s.edge.pumps && s.agent.feeders[1].eof && s.agent.feeders[1].got == [] && s.edge.pumps[1].body == [0]
  {
    hide Run;
    var r0 := [] + [DoOpen(true, [0])];
    var r1 := r0 + [DoResEnd(1)];
    NothingForgotten();
    RunSnoc([], DoOpen(true, [0]));
    RunSnoc(r0, DoResEnd(1));
    assert Run(r1).edge.wire == [ReqHead(1, true), ReqEnd(1)];
    AppSeesEnd(r1);
  }

  /** Head and REQ_END arrive at an idle agent, whose feeder sees the end at once. */
  lemma AppSeesEnd(r: seq<Step>)
    requires Run(r).agent == Start.agent && |Run(r).edge.wire| >= 2 && Run(r).edge.wire[..2] == [ReqHead(1, true), ReqEnd(1)]
    ensures var s := Run(r + [DoDispatch(true)] + [DoDispatch(true)] + [DoLeave(1, true)]);
      s.edge.pumps == Run(r).edge.pumps && 1 in s.agent.feeders && s.agent.feeders[1].eof && s.agent.feeders[1].got == []
  {
    hide Run;
    var r1 := r + [DoDispatch(true)];
    var r2 := r1 + [DoDispatch(true)];
    RunSnoc(r, DoDispatch(true));
    assert Run(r).edge.wire[0] == ReqHead(1, true) && Run(r).edge.wire[1..][0] == ReqEnd(1);
    RunSnoc(r1, DoDispatch(true));
    RunSnoc(r2, DoLeave(1, true));
  }

  /** The last byte is in hand when the response ends, and REQ_END goes out ahead of it. */
  lemma ByteInHand(r: seq<Step>)
    requires r == [] + [DoOpen(true, [0])] + [DoTake(1, 1)] + [DoResEnd(1)]
    ensures var e := Run(r).edge;
      && e.wire == [ReqHead(1, true), ReqEnd(1)] && e.pumps.Keys == {1}
      && e.pumps[1].body == e.pumps[1].hand == [0] && e.pumps[1].taken == 1 && e.pumps[1].resEnded
    ensures Run(r).agent == Start.agent
  {
    hide Run;
    var r1 := [] + [DoOpen(true, [0])];
    var r2 := r1 + [DoTake(1, 1)];
    NothingForgotten();
    RunSnoc([], DoOpen(true, [0]));
    RunSnoc(r1, DoTake(1, 1));
    assert Run(r2).edge.pumps[1].hand == [0] && Run(r2).edge.wire == [ReqHead(1, true)];
    RunSnoc(r2, DoResEnd(1));
  }

  /** From that moment the app may see the end without the byte, or read the whole body first. */
  lemma LateChunkMayGoEitherWay()
    ensures exists steps, missed, read :: var p, s, t := Run(steps).edge.pumps, Run(steps + missed), Run(steps + read);
      && 1 in p && p[1].resEnded && p[1].hand != [] && p[1].taken == |p[1].body|
      && 1 in s.agent.feeders && s.agent.feeders[1].eof && s.agent.feeders[1].got == []
      && 1 in t.agent.feeders && t.agent.feeders[1].eof && t.agent.feeders[1].got == p[1].body
  {
    hide Run;
    var r := [] + [DoOpen(true, [0])] + [DoTake(1, 1)] + [DoResEnd(1)];
    ByteInHand(r);
    AppSeesEnd(r);
    var missed := [DoDispatch(true), DoDispatch(true), DoLeave(1, true)];
    assert r + missed == r + [DoDispatch(true)] + [DoDispatch(true)] + [DoLeave(1, true)];
    var read := [DoSend(1), DoDispatch(true), DoDispatch(true), DoDispatch(true), DoPop(1), DoWrite(1, 1), DoGrant(1), DoLeave(1, true)];
    LateChunkRead(r);
    assert r + read == r + [DoSend(1)] + [DoDispatch(true)] + [DoDispatch(true)] + [DoDispatch(true)] + [DoPop(1)] + [DoWrite(1, 1)]
      + [DoGrant(1)] + [DoLeave(1, true)];
    assert Run(r + missed).agent.feeders[1].got == [] && Run(r + read).agent.feeders[1].got == [0];
  }

  lemma LateChunkRead(r: seq<Step>)
    requires Run(r).agent == Start.agent && Run(r).edge.wire == [ReqHead(1, true), ReqEnd(1)]
    requires 1 in Run(r).edge.pumps && Run(r).edge.pumps[1].hand == [0]
    ensures var s := Run(r + [DoSend(1)] + [DoDispatch(true)] + [DoDispatch(true)] + [DoDispatch(true)] + [DoPop(1)] + [DoWrite(1, 1)]
                         + [DoGrant(1)] + [DoLeave(1, true)]);
      1 in s.agent.feeders && s.agent.feeders[1].eof && s.agent.feeders[1].got == [0]
  {
    hide Run;
    var r1 := r + [DoSend(1)];
    var r2 := r1 + [DoDispatch(true)];
    var r3 := r2 + [DoDispatch(true)];
    var r4 := r3 + [DoDispatch(true)];
    RunSnoc(r, DoSend(1));
    RunSnoc(r1, DoDispatch(true));
    RunSnoc(r2, DoDispatch(true));
    RunSnoc(r3, DoDispatch(true));
    assert Run(r4).agent.feeders[1] == NewFeeder().(queue := [[0]], queued := 1, reqEnded := true);
    QueuedByteRead(r4);
  }

  lemma QueuedByteRead(r: seq<Step>)
    requires 1 in Run(r).agent.feeders && Run(r).agent.feeders[1] == NewFeeder().(queue := [[0]], queued := 1, reqEnded := true)
    ensures var s := Run(r + [DoPop(1)] + [DoWrite(1, 1)] + [DoGrant(1)] + [DoLeave(1, true)]);
      1 in s.agent.feeders && s.agent.feeders[1].eof && s.agent.feeders[1].got == [0]
  {
    hide Run, GrantConn;
    var r1 := r + [DoPop(1)];
    var r2 := r1 + [DoWrite(1, 1)];
    var r3 := r2 + [DoGrant(1)];
    RunSnoc(r, DoPop(1));
    RunSnoc(r1, DoWrite(1, 1));
    assert [0 as bv8][..1] == [0] && [] + [0 as bv8] == [0];
    RunSnoc(r2, DoGrant(1));
    RunSnoc(r3, DoLeave(1, true));
  }

  /** REQ_END before RES_END means the whole body has been sent. */
  lemma EarlyReqEndMeansWholeBody(steps: seq<Step>, id: nat)
    requires id in Run(steps).edge.pumps && Run(steps).edge.pumps[id].http
    requires Run(steps).edge.pumps[id].endSent && !Run(steps).edge.pumps[id].resEnded
    ensures Run(steps).edge.pumps[id].taken == |Run(steps).edge.pumps[id].body| && Run(steps).edge.pumps[id].hand == []
  {
    RunKeeps(steps);
    assert PumpOk(Run(steps).edge.pumps[id]);
  }
}
