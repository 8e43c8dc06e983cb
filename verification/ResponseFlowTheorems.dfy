/** The promises of response-body flow control and of a stream's life, for every run. */
module ResponseFlowTheorems {
  import opened Limits
  import opened Sums
  import opened Windows
  import opened ResponseFlow
  import opened ResponseFlowSafety
  import opened ResponseFlowInvariant
  import opened ResponseFlowLife

  // ---------------------------------------------------------------- credit

  /** A cancelled send whose sender holds acquired bytes at that moment. */
  predicate Drops(s: State, step: Step) { step.DoCancelBody? && Holding(s.agent, step.id) }

  function DroppedBytes(s: State, step: Step): nat {
    if Drops(s, step) then |s.agent.senders[step.id].hand| else 0
  }

  ghost predicate NeverDrops(steps: seq<Step>) {
    forall i :: 0 <= i < |steps| ==> !Drops(Run(steps[..i]), steps[i])
  }

  lemma OnlyDroppingLoses(s: State, step: Step)
    ensures Do(s, step).agent.lost == s.agent.lost + DroppedBytes(s, step)
    ensures DroppedBytes(s, step) == 0 <==> !Drops(s, step)
  {
  }

  lemma NeverDropsSnoc(steps: seq<Step>)
    requires steps != []
    ensures var n := |steps| - 1; NeverDrops(steps) <==> NeverDrops(steps[..n]) && !Drops(Run(steps[..n]), steps[n])
  {
    hide Run, Drops;
    var n := |steps| - 1;
    forall i | 0 <= i < n
      ensures steps[..n][..i] == steps[..i] && steps[..n][i] == steps[i]
    {
    }
    if NeverDrops(steps[..n]) && !Drops(Run(steps[..n]), steps[n]) {
      forall i | 0 <= i < |steps|
        ensures !Drops(Run(steps[..i]), steps[i])
      {
        if i < n {
          assert !Drops(Run(steps[..n][..i]), steps[..n][i]);
        }
      }
    }
  }

  lemma {:induction false} LossIsDropping(steps: seq<Step>)
    ensures Run(steps).agent.lost == 0 <==> NeverDrops(steps)
  {
    hide Do, Drops, DroppedBytes, NeverDrops;
    if steps == [] {
      RunEmpty();
    } else {
      var n := |steps| - 1;
      LossIsDropping(steps[..n]);
      OnlyDroppingLoses(Run(steps[..n]), steps[n]);
      NeverDropsSnoc(steps);
    }
  }

  /**
   * Connection credit is conserved to the byte. It falls short exactly in the runs where a send was
   * cancelled with acquired bytes in hand.
   */
  lemma ConnectionCreditConserved(steps: seq<Step>)
    ensures ConnTotal(Run(steps)) + Run(steps).agent.lost == CONN_WINDOW
    ensures ConnTotal(Run(steps)) == CONN_WINDOW <==> NeverDrops(steps)
  {
    hide Run, Do, ConnTotal, StreamOk, IdsOk, Booked, Coalesced, HttpOk, SenderOk, NeverDrops;
    RunKeeps(steps);
    LossIsDropping(steps);
  }

  lemma RunSnoc(steps: seq<Step>, step: Step)
    ensures Run(steps + [step]) == Do(Run(steps), step)
  {
    assert (steps + [step])[..|steps|] == steps;
  }

  /** One byte acquired and one cancelled send: the window never comes back whole. */
  lemma CancellationLosesCredit()
    ensures exists steps :: Run(steps).agent.lost == 1 && ConnTotal(Run(steps)) == CONN_WINDOW - 1
  {
    hide Run, ConnTotal, Inv, GrantSum, SumOver, NeverDrops;
    var steps := [] + [DoStart(1, false, false, Sent)] + [DoOpen(1, [0])] + [DoSendHead(1, Head(true, 200, None))]
      + [DoAcquire(1, 1)] + [DoCancelBody(1)];
    assert Run([]) == Start by { RunEmpty(); }
    RunSnoc([], DoStart(1, false, false, Sent));
    RunSnoc([] + [DoStart(1, false, false, Sent)], DoOpen(1, [0]));
    RunSnoc([] + [DoStart(1, false, false, Sent)] + [DoOpen(1, [0])], DoSendHead(1, Head(true, 200, None)));
    RunSnoc([] + [DoStart(1, false, false, Sent)] + [DoOpen(1, [0])] + [DoSendHead(1, Head(true, 200, None))], DoAcquire(1, 1));
    RunSnoc([] + [DoStart(1, false, false, Sent)] + [DoOpen(1, [0])] + [DoSendHead(1, Head(true, 200, None))] + [DoAcquire(1, 1)],
      DoCancelBody(1));
    ConnectionCreditConserved(steps);
    assert Run(steps).agent.lost == 1;
  }

  lemma RunEmpty()
    ensures Run([]) == Start && NeverDrops([])
  {
  }

  /** Stream credit never exceeds its window, and none of it is missing while both ends work. */
  lemma StreamCreditConserved(steps: seq<Step>, id: nat)
    requires id > 0
    ensures StreamTotal(Run(steps), id) <= STREAM_WINDOW
    ensures Open(Run(steps), id) ==> StreamTotal(Run(steps), id) == STREAM_WINDOW
  {
    hide Run, Global;
    RunKeeps(steps);
    assert StreamOk(Run(steps), id);
  }

  /**
   * Between conforming peers neither the connection receive window nor the stream's flow_control
   * check nor MAX_WINDOW ever fires, and what a stream buffers stays within its window.
   */
  lemma NoCheckFires(steps: seq<Step>)
    ensures !Run(steps).edge.fault && !Run(steps).agent.fault
    ensures Run(steps).edge.held <= CONN_WINDOW
    ensures forall id :: id in Run(steps).edge.streams ==>
              var h := Run(steps).edge.streams[id]; |JobBytes(h.chain.jobs)| + h.ungranted <= STREAM_WINDOW
  {
    hide Run, JobBytes, SumOver, StreamOk, HttpOk;
    RunKeeps(steps);
    var s := Run(steps);
    forall id | id in s.edge.streams
      ensures |JobBytes(s.edge.streams[id].chain.jobs)| + s.edge.streams[id].ungranted <= STREAM_WINDOW
    {
      StreamInWindow(s, id);
    }
  }

  lemma StreamInWindow(s: State, id: nat)
    requires Inv(s) && id in s.edge.streams
    ensures HttpOk(s.edge.streams[id])
    ensures 0 <= s.edge.streams[id].held == |JobBytes(s.edge.streams[id].chain.jobs)|
    ensures s.edge.streams[id].held + s.edge.streams[id].ungranted <= STREAM_WINDOW
  {
    hide SumOver, BodySum, JobBytes, LogOk;
    PartsNonNegative(s, id);
    assert StreamOk(s, id);
  }

  ghost predicate ChannelsEmpty(s: State) {
    && Channel(s.agent) == [] && s.edge.wire == []
    && (forall id :: id in s.agent.senders ==> s.agent.senders[id].hand == [])
  }

  /** Nothing open, nothing pending, nothing on the way. */
  ghost predicate AtRest(s: State) {
    ChannelsEmpty(s) && AllDone(s.edge.streams) && forall id :: id in s.edge.streams ==> s.edge.streams[id].chain.jobs == []
  }

  /**
   * Exactly-once return: with no stream open, no write pending and nothing on the way, all of it (less
   * what the agent dropped itself) is back, which is the whole window exactly if it never dropped any.
   */
  lemma FullWindowAtRest(steps: seq<Step>)
    requires AtRest(Run(steps))
    ensures Run(steps).agent.conn + Run(steps).agent.lost == CONN_WINDOW
    ensures Run(steps).agent.conn == CONN_WINDOW <==> NeverDrops(steps)
  {
    hide Run, Inv, AtRest, NeverDrops;
    RunKeeps(steps);
    LossIsDropping(steps);
    RestIsWhole(Run(steps));
  }

  lemma RestIsWhole(s: State)
    requires Inv(s) && AtRest(s)
    ensures s.agent.conn + s.agent.lost == CONN_WINDOW
  {
    hide SumOver, StreamOk, HttpOk, SenderOk, IdsOk, JobBytes;
    forall id | id in s.edge.streams
      ensures HeldOf(s.edge.streams[id]) == 0
    {
      StreamInWindow(s, id);
      NoJobs();
    }
    SumZero(s.edge.streams, HeldOf);
    SumZero(s.agent.senders, HandLen);
    assert BodySum([]) == 0 && GrantSum([], 0) == 0;
  }

  /** The object wakes with a fresh AgentConn for the socket: its books start at nothing. */
  function Woken(e: Edge): Edge { e.(held := 0, connUngranted := 0) }

  /** Hibernation takes place with no stream open and no write pending, and then forgets no credit of the agent. */
  lemma HibernationForgetsNothing(steps: seq<Step>)
    requires var e := Run(steps).edge; AllDone(e.streams) && forall id :: id in e.streams ==> e.streams[id].chain.jobs == []
    ensures Woken(Run(steps).edge) == Run(steps).edge
  {
    hide Run, SumOver, StreamOk, HttpOk, SenderOk, IdsOk, JobBytes;
    RunKeeps(steps);
    var s := Run(steps);
    forall id | id in s.edge.streams
      ensures HeldOf(s.edge.streams[id]) == 0
    {
      StreamInWindow(s, id);
      NoJobs();
    }
    SumZero(s.edge.streams, HeldOf);
  }

  /** Only the stalled visitors still owe writes. */
  ghost predicate OnlyStalled(s: State, stalled: set<nat>) {
    ChannelsEmpty(s) && forall id :: id in s.edge.streams && id !in stalled ==> s.edge.streams[id].chain.jobs == []
  }

  /**
   * No credit deadlock: when only the `stalled` visitors still owe writes, the agent keeps more than
   * (6 - |stalled|) MiB of connection credit, less what it dropped itself (nothing, exactly in the
   * runs that never drop), and every other open stream more than 3/4 MiB.
   */
  lemma StalledVisitorsStarveNobody(steps: seq<Step>, stalled: set<nat>)
    requires OnlyStalled(Run(steps), stalled)
    ensures Run(steps).agent.conn + Run(steps).agent.lost > (6 - |stalled|) * 1048576
    ensures NeverDrops(steps) ==> Run(steps).agent.conn > (6 - |stalled|) * 1048576
    ensures forall id :: id !in stalled && Open(Run(steps), id)
              ==> Run(steps).agent.senders[id].credit > STREAM_WINDOW / 4 * 3
  {
    hide Run, Inv, OnlyStalled, NeverDrops;
    RunKeeps(steps);
    LossIsDropping(steps);
    var s := Run(steps);
    ConnectionKeepsCredit(s, stalled);
    forall id | id !in stalled && Open(s, id)
      ensures s.agent.senders[id].credit > STREAM_WINDOW / 4 * 3
    {
      OpenStreamKeepsCredit(s, stalled, id);
    }
  }

  lemma ConnectionKeepsCredit(s: State, stalled: set<nat>)
    requires Inv(s) && OnlyStalled(s, stalled)
    ensures s.agent.conn + s.agent.lost > (6 - |stalled|) * 1048576
  {
    hide SumOver, StreamOk, HttpOk, JobBytes;
    forall id | id in s.edge.streams
      ensures HeldOf(s.edge.streams[id]) <= STREAM_WINDOW && (id !in stalled ==> HeldOf(s.edge.streams[id]) == 0)
    {
      StreamInWindow(s, id);
      NoJobs();
    }
    SumBounded(s.edge.streams, HeldOf, stalled);
    SumZero(s.agent.senders, HandLen);
    assert BodySum([]) == 0 && GrantSum([], 0) == 0;
  }

  lemma OpenStreamKeepsCredit(s: State, stalled: set<nat>, id: nat)
    requires Inv(s) && OnlyStalled(s, stalled) && id !in stalled && Open(s, id)
    ensures s.agent.senders[id].credit > STREAM_WINDOW / 4 * 3
  {
    hide SumOver, LogOk, JobBytes, BytesOk, Booked, Coalesced;
    StreamInWindow(s, id);
    NoJobs();
    assert StreamOk(s, id);
  }

  // ---------------------------------------------------------------- bytes

  /**
   * The visitor reads a prefix of the local app's body; a clean end means all of it, at the declared
   * length if the head declared one.
   */
  lemma VisitorReadsLocalBody(steps: seq<Step>, id: nat)
    requires id in Run(steps).edge.streams
    ensures var s := Run(steps); var c := s.edge.streams[id].chain;
      if id in s.agent.senders then
        && c.got <= s.agent.senders[id].body
        && (c.closed ==> c.got == s.agent.senders[id].body && (c.expected.Some? ==> |c.got| == c.expected.value))
      else c.got == [] && !c.closed
  {
    hide Run, JobBytes, BytesOf, EndLast, CreditOk, LogOk, SumOver, Booked;
    RunKeeps(steps);
    var s := Run(steps);
    assert StreamOk(s, id);
    assert HttpOk(s.edge.streams[id]);
  }

  // ---------------------------------------------------------------- life

  /** What one step of the whole system is to the edge. */
  function Turned(s: State, step: Step): seq<Turn> {
    match step
    case DoStart(id, ws, headMethod, how) => [Begin(id, ws, headMethod, how)]
    case DoEdgeReceive => if s.agent.wire != [] then [Arrive(s.agent.wire[0])] else []
    case DoAgentReceive => [WindowLeaves]
    case DoStartJob(id) => [JobStarts(id)]
    case DoEndJob(id, ok) => [JobEnds(id, ok)]
    case DoReset(id, notify) => [Cut(id, notify)]
    case DoPumpEnd(id) => [PumpEnds(id)]
    case _ => []
  }

  function Turns(steps: seq<Step>): seq<Turn> {
    if steps == [] then [] else var n := |steps| - 1; Turns(steps[..n]) + Turned(Run(steps[..n]), steps[n])
  }

  lemma TurnedEdge(s: State, step: Step)
    requires Inv(s)
    ensures |Turned(s, step)| <= 1
    ensures Do(s, step).edge == if Turned(s, step) == [] then s.edge else After(s.edge, Turned(s, step)[0])
  {
    hide Inv, OnStart, OnFrame, StartJob, EndJob, Reset, SendReqEnd, OnWindow, SendHead, Acquire, SendBody, CancelBody, SendEnd;
    if step.DoEdgeReceive? && s.agent.wire != [] {
      FrameFits(s);
    }
  }

  /** A run with a conforming agent is, to the edge, one of the runs with any agent. */
  lemma {:induction false} ConformingRunsAreLived(steps: seq<Step>)
    ensures Lived(Turns(steps)) == Run(steps).edge
  {
    hide Do, After;
    if steps != [] {
      var n := |steps| - 1;
      ConformingRunsAreLived(steps[..n]);
      RunKeeps(steps[..n]);
      TurnedEdge(Run(steps[..n]), steps[n]);
      var now := Turned(Run(steps[..n]), steps[n]);
      if now == [] {
        assert Turns(steps) == Turns(steps[..n]);
      } else {
        assert Turns(steps) == Turns(steps[..n]) + [now[0]];
        LivedSnoc(Turns(steps[..n]), now[0]);
      }
    }
  }

  lemma OneHeadOneEnd(steps: seq<Step>, id: nat)
    requires id in Run(steps).edge.streams
    ensures OneOfEach(Run(steps).edge.streams[id].life)
  {
    hide Run, Turns, Lived;
    ConformingRunsAreLived(steps);
    ResponseFlowLife.OneHeadOneEnd(Turns(steps), id);
  }

  lemma {:induction false} TurnsGrow(steps: seq<Step>, more: seq<Step>)
    ensures Turns(steps) <= Turns(steps + more)
  {
    hide Run, Turned;
    if more == [] {
      assert steps + more == steps;
    } else {
      var init := more[..|more| - 1];
      assert (steps + more)[..|steps + more| - 1] == steps + init;
      TurnsGrow(steps, init);
    }
  }

  lemma DoneIsFinal(steps: seq<Step>, more: seq<Step>, id: nat)
    requires id in Run(steps).edge.streams
    ensures id in Run(steps + more).edge.streams
    ensures Grows(Run(steps).edge.streams[id], Run(steps + more).edge.streams[id])
  {
    hide Run, Turns, Lived;
    ConformingRunsAreLived(steps);
    ConformingRunsAreLived(steps + more);
    TurnsGrow(steps, more);
    var rest := Turns(steps + more)[|Turns(steps)|..];
    assert Turns(steps) + rest == Turns(steps + more);
    ResponseFlowLife.DoneIsFinal(Turns(steps), rest, id);
  }
}
