/** Cancelled sends cost connection credit for good: enough of them and no response body is ever sent again. */
module ResponseFlowStarvation {
  import opened Limits
  import opened Sums
  import opened Windows
  import opened ResponseFlow
  import opened ResponseFlowSafety
  import opened ResponseFlowInvariant
  import opened ResponseFlowTheorems

  /** Lost credit never comes back. */
  lemma {:induction false} LossIsFinal(steps: seq<Step>, more: seq<Step>)
    ensures Run(steps + more).agent.lost >= Run(steps).agent.lost
  {
    hide Do, Drops, DroppedBytes;
    if more == [] {
      assert steps + more == steps;
    } else {
      var init := more[..|more| - 1];
      assert (steps + more)[..|steps + more| - 1] == steps + init;
      LossIsFinal(steps, init);
      OnlyDroppingLoses(Run(steps + init), more[|more| - 1]);
    }
  }

  /** With the whole window lost, no acquire succeeds in any continuation. */
  lemma StarvedForGood(steps: seq<Step>, more: seq<Step>, id: nat, want: nat)
    requires Run(steps).agent.lost >= CONN_WINDOW
    ensures Run(steps + more).agent.conn == 0
    ensures Do(Run(steps + more), DoAcquire(id, want)) == Run(steps + more)
  {
    hide Run, Inv, ShapeOk, IdsOk;
    LossIsFinal(steps, more);
    RunKeeps(steps + more);
    LostIsGone(Run(steps + more));
  }

  lemma LostIsGone(s: State)
    requires Inv(s) && s.agent.lost >= CONN_WINDOW
    ensures s.agent.conn == 0
  {
    hide StreamOk, SumOver, BodySum, GrantSum, HttpOk, SenderOk, IdsOk;
    Bounds(s);
  }

  // ---------------------------------------------------------------- a run that loses it all

  function Chunk(): (c: Bytes)
    ensures |c| == MAX_BODY_CHUNK
  {
    seq(MAX_BODY_CHUNK, _ => 0)
  }

  const GOOD_HEAD := Head(true, 200, None)

  /** One response whose only chunk is acquired; then the stream is reset, which cancels the send. */
  function Opening(k: nat): seq<Step> { [DoStart(k, false, false, Sent), DoOpen(k, Chunk()), DoSendHead(k, GOOD_HEAD)] }

  function Relay(k: nat): seq<Step> { [DoWriteData, DoEdgeReceive, DoAcquire(k, MAX_BODY_CHUNK)] }

  function Closing(k: nat): seq<Step> { [DoReset(k, true), DoCancelBody(k)] }

  function Rounds(n: nat): seq<Step> { if n == 0 then [] else Rounds(n - 1) + Opening(n) + Relay(n) + Closing(n) }

  /** `n` rounds in: streams 1 to `n` are over, and each took a chunk of credit with it. */
  ghost predicate After(s: State, n: nat) {
    && s.agent.conn + n * MAX_BODY_CHUNK == CONN_WINDOW && s.agent.lost == n * MAX_BODY_CHUNK
    && s.agent.data == [] && s.agent.wire == [] && s.edge.wire == [] && s.edge.connUngranted == 0
    && s.agent.senders.Keys == s.edge.streams.Keys
    && (forall id :: id in s.edge.streams ==>
          && id <= n && s.agent.senders[id].hand == []
          && s.edge.streams[id].life.done && s.edge.streams[id].chain.jobs == [])
  }

  /** One response at the agent, as its round leaves it. */
  function Fresh(): Sender { Sender(Chunk(), 0, [], STREAM_WINDOW, true, false, false, true) }

  function Headed(): HttpStream {
    NewStream(false, false).(life := Note(NewStream(false, false).life, HeadGiven).(headDone := true),
                             chain := NewStream(false, false).chain.(hasWriter := true))
  }

  lemma RunThree(steps: seq<Step>, a: Step, b: Step, c: Step)
    ensures Run(steps + [a, b, c]) == Do(Do(Do(Run(steps), a), b), c)
  {
    hide Run, Do;
    RunSnoc(steps, a);
    RunSnoc(steps + [a], b);
    RunSnoc(steps + [a] + [b], c);
    assert steps + [a] + [b] + [c] == steps + [a, b, c];
  }

  lemma RunTwo(steps: seq<Step>, a: Step, b: Step)
    ensures Run(steps + [a, b]) == Do(Do(Run(steps), a), b)
  {
    hide Run, Do;
    RunSnoc(steps, a);
    RunSnoc(steps + [a], b);
    assert steps + [a] + [b] == steps + [a, b];
  }

  lemma OpeningEffect(steps: seq<Step>, k: nat)
    requires k > 0 && After(Run(steps), k - 1)
    ensures var s := Run(steps);
      Run(steps + Opening(k)) == State(s.agent.(senders := s.agent.senders[k := Fresh()], data := [ResHead(k, GOOD_HEAD)]),
                                       s.edge.(streams := s.edge.streams[k := NewStream(false, false)]))
  {
    hide Run;
    RunThree(steps, DoStart(k, false, false, Sent), DoOpen(k, Chunk()), DoSendHead(k, GOOD_HEAD));
    var s := Run(steps);
    var s1 := Do(s, DoStart(k, false, false, Sent));
    assert s1 == s.(edge := s.edge.(streams := s.edge.streams[k := NewStream(false, false)]));
    var s2 := Do(s1, DoOpen(k, Chunk()));
    assert s2.agent.senders == s.agent.senders[k := Fresh().(headSent := false)];
    assert [] + [ResHead(k, GOOD_HEAD)] == [ResHead(k, GOOD_HEAD)];
    assert s.agent.senders[k := Fresh().(headSent := false)][k := Fresh()] == s.agent.senders[k := Fresh()];
  }

  lemma HeadArrives(steps: seq<Step>, s: State, k: nat)
    requires k > 0 && After(s, k - 1)
    requires Run(steps) == State(s.agent.(senders := s.agent.senders[k := Fresh()], data := [ResHead(k, GOOD_HEAD)]),
                                 s.edge.(streams := s.edge.streams[k := NewStream(false, false)]))
    ensures Run(steps + [DoWriteData, DoEdgeReceive])
         == State(s.agent.(senders := s.agent.senders[k := Fresh()]), s.edge.(streams := s.edge.streams[k := Headed()]))
  {
    hide Run;
    RunTwo(steps, DoWriteData, DoEdgeReceive);
    var s1 := Do(Run(steps), DoWriteData);
    assert s1.agent.wire == [ResHead(k, GOOD_HEAD)] && s1.agent.data == [];
    var s2 := Do(s1, DoEdgeReceive);
    assert s2.edge.streams == s.edge.streams[k := Headed()] && s2.agent.wire == [];
  }

  lemma RelayEffect(steps: seq<Step>, s: State, k: nat)
    requires k > 0 && After(s, k - 1) && s.agent.conn >= MAX_BODY_CHUNK
    requires Run(steps) == State(s.agent.(senders := s.agent.senders[k := Fresh()], data := [ResHead(k, GOOD_HEAD)]),
                                 s.edge.(streams := s.edge.streams[k := NewStream(false, false)]))
    ensures Run(steps + Relay(k))
         == State(s.agent.(conn := s.agent.conn - MAX_BODY_CHUNK,
                           senders := s.agent.senders[k := Fresh().(taken := MAX_BODY_CHUNK, hand := Chunk(), credit := STREAM_WINDOW - MAX_BODY_CHUNK)]),
                  s.edge.(streams := s.edge.streams[k := Headed()]))
  {
    hide Run, After, Headed, Chunk;
    HeadArrives(steps, s, k);
    RunSnoc(steps + [DoWriteData, DoEdgeReceive], DoAcquire(k, MAX_BODY_CHUNK));
    assert steps + [DoWriteData, DoEdgeReceive] + [DoAcquire(k, MAX_BODY_CHUNK)] == steps + Relay(k);
    assert Chunk()[0..MAX_BODY_CHUNK] == Chunk();
    assert s.agent.senders[k := Fresh()][k := Fresh().(taken := MAX_BODY_CHUNK, hand := Chunk(), credit := STREAM_WINDOW - MAX_BODY_CHUNK)]
        == s.agent.senders[k := Fresh().(taken := MAX_BODY_CHUNK, hand := Chunk(), credit := STREAM_WINDOW - MAX_BODY_CHUNK)];
  }

  lemma StreamReset(s: State, k: nat)
    requires k > 0 && After(s, k - 1)
    ensures var e := s.edge.(streams := s.edge.streams[k := Headed()]); var r := Reset(e, k, true);
      && r == e.(streams := r.streams) && r.streams.Keys == s.edge.streams.Keys + {k}
      && r.streams[k].life.done && r.streams[k].chain.jobs == []
      && forall id :: id in s.edge.streams && id != k ==> r.streams[id] == s.edge.streams[id]
  {
  }

  lemma ClosingEffect(steps: seq<Step>, s: State, k: nat)
    requires k > 0 && After(s, k - 1) && s.agent.conn >= MAX_BODY_CHUNK
    requires Run(steps)
          == State(s.agent.(conn := s.agent.conn - MAX_BODY_CHUNK,
                            senders := s.agent.senders[k := Fresh().(taken := MAX_BODY_CHUNK, hand := Chunk(), credit := STREAM_WINDOW - MAX_BODY_CHUNK)]),
                   s.edge.(streams := s.edge.streams[k := Headed()]))
    ensures After(Run(steps + Closing(k)), k)
  {
    hide Run, Reset, Headed, After, Chunk;
    RunTwo(steps, DoReset(k, true), DoCancelBody(k));
    var a := Run(steps).agent;
    assert Run(steps + Closing(k)) == State(CancelBody(a, k), Reset(Run(steps).edge, k, true));
    ChunkLost(s, a, k);
  }

  lemma ChunkLost(s: State, a: Agent, k: nat)
    requires k > 0 && After(s, k - 1) && s.agent.conn >= MAX_BODY_CHUNK
    requires a == s.agent.(conn := s.agent.conn - MAX_BODY_CHUNK, senders := a.senders)
    requires k in a.senders && a.senders == s.agent.senders[k := a.senders[k]] && a.senders[k].hand == Chunk()
    ensures After(State(CancelBody(a, k), Reset(s.edge.(streams := s.edge.streams[k := Headed()]), k, true)), k)
  {
    hide Reset, Headed;
    StreamReset(s, k);
  }

  lemma {:induction false} RoundsLose(n: nat)
    requires n * MAX_BODY_CHUNK <= CONN_WINDOW
    ensures After(Run(Rounds(n)), n)
  {
    hide Run, Opening, Relay, Closing;
    if n == 0 {
      RunEmpty();
    } else {
      RoundsLose(n - 1);
      var r := Rounds(n - 1);
      OpeningEffect(r, n);
      RelayEffect(r + Opening(n), Run(r), n);
      ClosingEffect(r + Opening(n) + Relay(n), Run(r), n);
    }
  }

  lemma AfterRests(s: State, n: nat)
    requires After(s, n)
    ensures AtRest(s) && s.agent.conn == CONN_WINDOW - n * MAX_BODY_CHUNK && s.agent.lost == n * MAX_BODY_CHUNK
  {
  }

  /**
   * There is a run after which nothing is open, pending or on its way, and yet the agent's connection
   * credit is zero and stays so: no response body can be sent over this connection any more.
   */
  lemma CancelledSendsStarveTheConnection()
    ensures exists steps :: AtRest(Run(steps)) && Run(steps).agent.conn == 0
              && forall more, id, want :: Do(Run(steps + more), DoAcquire(id, want)) == Run(steps + more)
  {
    hide Run, Do, AtRest, After, Rounds;
    var steps := Rounds(128);
    RoundsLose(128);
    AfterRests(Run(steps), 128);
    forall more, id, want
      ensures Do(Run(steps + more), DoAcquire(id, want)) == Run(steps + more)
    {
      StarvedForGood(steps, more, id, want);
    }
  }
}
