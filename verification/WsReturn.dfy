/**
 * Relay of the local app's WebSocket messages to the visitor: pumpLocal's message credit, the ordered
 * channel to the edge, delivery, and the ACK that comes back with each delivery.
 *
 * The edge keeps nothing of this direction in memory, so hibernation takes no part in it. Closes by
 * either side, a failed delivery and the end of the stream are free events.
 */
module WsReturn {
  import opened Limits
  import opened Relay = WsRelay
  import opened RelaySafety = WsRelaySafety

  /**
   * pumpLocal: `hand` is the message read and not yet sent, `paid` whether it has its credit;
   * `dropped` says the stream ended with a message in hand.
   */
  datatype Source = Source(read: seq<Bytes>, hand: Option<Bytes>, paid: bool, outstanding: nat, over: bool, dropped: bool)

  /** The visitor's socket; once gone nothing is delivered any more. */
  datatype Sink = Sink(gone: bool, got: seq<Bytes>)

  datatype State = State(sources: map<nat, Source>, sinks: map<nat, Sink>, channel: seq<Frame>, acks: seq<Ack>)

  const Start := State.State(map[], map[], [], [])

  function WithSource(s: State, id: nat, p: Source): State { s.(sources := s.sources[id := p]) }

  function StepOpen(s: State, id: nat): State {
    if id in s.sources || id in s.sinks then s
    else WithSource(s, id, Source([], None, false, 0, false, false)).(sinks := s.sinks[id := Sink(false, [])])
  }

  function StepRead(s: State, id: nat, m: Bytes): State {
    if id in s.sources && !s.sources[id].over && s.sources[id].hand.None?
    then WithSource(s, id, s.sources[id].(read := s.sources[id].read + [m], hand := Some(m), paid := false)) else s
  }

  /** take: one more unacknowledged message, while there are fewer than WS_MSG_CREDIT. */
  function StepTake(s: State, id: nat): State {
    if id in s.sources && s.sources[id].hand.Some? && !s.sources[id].paid && s.sources[id].outstanding < WS_MSG_CREDIT
    then WithSource(s, id, s.sources[id].(paid := true, outstanding := s.sources[id].outstanding + 1)) else s
  }

  function StepSend(s: State, id: nat): State {
    if id in s.sources && s.sources[id].hand.Some? && s.sources[id].paid
    then WithSource(s, id, s.sources[id].(hand := None, paid := false)).(channel := s.channel + [WsMessage(id, s.sources[id].hand.value)])
    else s
  }

  /** The stream's context ends: a message in hand is dropped, with its credit if it had any. */
  function StepOver(s: State, id: nat): State {
    if id in s.sources
    then
      var p := s.sources[id];
      WithSource(s, id, p.(hand := None, paid := false, over := true, dropped := p.dropped || p.hand.Some?))
    else s
  }

  function StepClose(s: State, id: nat): State {
    if id in s.sources then s.(channel := s.channel + [WsClose(id)]) else s
  }

  function StepGone(s: State, id: nat): State {
    if id in s.sinks then s.(sinks := s.sinks[id := s.sinks[id].(gone := true)]) else s
  }

  /** agentWsMessage: the ACK goes out with the delivery, and only with it. */
  function StepEdgeReceive(s: State): State {
    if s.channel == [] then s
    else
      var f, r := s.channel[0], s.(channel := s.channel[1..]);
      if f.id !in s.sinks || s.sinks[f.id].gone then r
      else match f
        case WsMessage(id, data) =>
          r.(sinks := s.sinks[id := s.sinks[id].(got := s.sinks[id].got + [data])], acks := s.acks + [Ack(id, 1)])
        case WsClose(id) => r.(sinks := s.sinks[id := s.sinks[id].(gone := true)])
  }

  /** ack: excess acknowledgements are ignored; one for a stream that is over finds nobody. */
  function StepAgentReceive(s: State): State {
    if s.acks == [] then s
    else
      var a, r := s.acks[0], s.(acks := s.acks[1..]);
      if a.id !in s.sources || s.sources[a.id].over then r
      else
        var p := s.sources[a.id];
        WithSource(r, a.id, p.(outstanding := if p.outstanding < a.n then 0 else p.outstanding - a.n))
  }

  datatype Step =
    | DoOpen(id: nat)
    | DoRead(id: nat, m: Bytes)
    | DoTake(id: nat)
    | DoSend(id: nat)
    | DoOver(id: nat)
    | DoClose(id: nat)
    | DoGone(id: nat)
    | DoEdgeReceive
    | DoAgentReceive

  function Do(s: State, step: Step): State {
    match step
    case DoOpen(id) => StepOpen(s, id)
    case DoRead(id, m) => StepRead(s, id, m)
    case DoTake(id) => StepTake(s, id)
    case DoSend(id) => StepSend(s, id)
    case DoOver(id) => StepOver(s, id)
    case DoClose(id) => StepClose(s, id)
    case DoGone(id) => StepGone(s, id)
    case DoEdgeReceive => StepEdgeReceive(s)
    case DoAgentReceive => StepAgentReceive(s)
  }

  /** The state after a run; a step that is not enabled changes nothing. */
  function Run(steps: seq<Step>): State {
    if steps == [] then Start else Do(Run(steps[..|steps| - 1]), steps[|steps| - 1])
  }

  // ---------------------------------------------------------------- what every run keeps

  function Hand(p: Source): seq<Bytes> { if p.hand.Some? then [p.hand.value] else [] }

  /** Credit in use covers what is paid for, on its way, and acknowledged but not yet heard of. */
  ghost predicate CreditOk(p: Source, v: Sink, flight: nat, acks: nat) {
    && p.outstanding <= WS_MSG_CREDIT
    && (p.paid ==> p.hand.Some?)
    && (p.over ==> p.hand.None?)
    && (if p.paid then 1 else 0) + flight + acks <= p.outstanding
    && (!v.gone && !p.over ==> p.outstanding == (if p.paid then 1 else 0) + flight + acks)
  }

  ghost predicate OrderOk(p: Source, v: Sink, flight: seq<Bytes>) {
    && v.got <= p.read
    && (!v.gone ==> v.got + flight + Hand(p) <= p.read)
    && (!v.gone && !p.dropped ==> v.got + flight + Hand(p) == p.read)
    && (p.dropped ==> p.over && p.hand.None?)
  }

  ghost predicate StreamOk(s: State, id: nat) {
    id in s.sources && id in s.sinks ==>
      && CreditOk(s.sources[id], s.sinks[id], |MsgsOf(s.channel, id)|, AckSum(s.acks, id))
      && OrderOk(s.sources[id], s.sinks[id], MsgsOf(s.channel, id))
  }

  ghost predicate IdsOk(s: State) {
    && s.sources.Keys == s.sinks.Keys
    && (forall f :: f in s.channel ==> f.id in s.sources)
    && (forall a :: a in s.acks ==> a.id in s.sources && a.n == 1)
  }

  ghost predicate Inv(s: State) { IdsOk(s) && forall id: nat :: StreamOk(s, id) }

  lemma StepIds(s: State, step: Step)
    requires IdsOk(s)
    ensures IdsOk(Do(s, step))
  {
  }

  lemma OpenKeeps(s: State, open: nat, id: nat)
    requires Inv(s)
    ensures StreamOk(StepOpen(s, open), id)
  {
    hide MsgsOf, AckSum;
    assert StreamOk(s, id);
    if id !in s.sources {
      NoMsgs(s.channel, id);
      NoAcks(s.acks, id);
    }
  }

  lemma SourceKeeps(s: State, step: Step, id: nat)
    requires Inv(s) && (step.DoRead? || step.DoTake? || step.DoOver? || step.DoGone?)
    ensures StreamOk(Do(s, step), id)
  {
    hide MsgsOf, AckSum;
    assert StreamOk(s, id);
    if id in s.sources && id in s.sinks {
      var p, sent := s.sources[id], s.sinks[id].got + MsgsOf(s.channel, id);
      assert sent + [] == sent;
      if step.DoRead? {
        assert p.hand.None? && !s.sinks[id].gone && !p.dropped ==> sent + [step.m] == p.read + [step.m];
        assert p.read <= p.read + [step.m];
      }
    }
  }

  lemma SendKeeps(s: State, step: Step, id: nat)
    requires Inv(s) && (step.DoSend? || step.DoClose?)
    ensures StreamOk(Do(s, step), id)
  {
    hide MsgsOf, AckSum;
    assert StreamOk(s, id);
    if step.id in s.sources {
      var p := s.sources[step.id];
      OneFrame(s.channel, WsClose(step.id));
      assert MsgsOf(s.channel, id) + [] == MsgsOf(s.channel, id);
      if p.hand.Some? {
        OneFrame(s.channel, WsMessage(step.id, p.hand.value));
      }
      if id in s.sinks {
        var got, flight := s.sinks[id].got, MsgsOf(s.channel, id);
        assert got + flight + Hand(s.sources[id]) == got + (flight + Hand(s.sources[id])) + [];
      }
    }
  }

  lemma PopMsgs(w: seq<Frame>, id: nat)
    requires w != []
    ensures MsgsOf(w, id) == DataOf(w[0], id) + MsgsOf(w[1..], id)
  {
  }

  lemma EdgeReceiveKeeps(s: State, id: nat)
    requires Inv(s)
    ensures StreamOk(StepEdgeReceive(s), id)
  {
    hide MsgsOf, AckSum;
    assert StreamOk(s, id);
    if s.channel != [] {
      PopMsgs(s.channel, id);
      var f, rest := s.channel[0], MsgsOf(s.channel[1..], id);
      assert [] + rest == rest;
      AppendAck(s.acks, Ack(f.id, 1), id);
      if f.WsMessage? && id in s.sinks && id in s.sources {
        var got, hand := s.sinks[id].got, Hand(s.sources[id]);
        assert got + ([f.data] + rest) + hand == (got + [f.data]) + rest + hand;
      }
    }
  }

  lemma AgentReceiveKeeps(s: State, id: nat)
    requires Inv(s)
    ensures StreamOk(StepAgentReceive(s), id)
  {
    hide MsgsOf;
    assert StreamOk(s, id);
    assert s.acks != [] ==> s.acks[0] in s.acks;
  }

  lemma StepKeeps(s: State, step: Step)
    requires Inv(s)
    ensures Inv(Do(s, step))
  {
    hide StreamOk, StepOpen, StepEdgeReceive, StepAgentReceive;
    StepIds(s, step);
    forall id: nat
      ensures StreamOk(Do(s, step), id)
    {
      match step
      case DoOpen(open) => OpenKeeps(s, open, id);
      case DoEdgeReceive => EdgeReceiveKeeps(s, id);
      case DoAgentReceive => AgentReceiveKeeps(s, id);
      case _ =>
        if step.DoSend? || step.DoClose? {
          SendKeeps(s, step, id);
        } else {
          SourceKeeps(s, step, id);
        }
    }
  }

  lemma {:induction false} RunKeeps(steps: seq<Step>)
    ensures Inv(Run(steps))
  {
    hide Do;
    if steps != [] {
      RunKeeps(steps[..|steps| - 1]);
      StepKeeps(Run(steps[..|steps| - 1]), steps[|steps| - 1]);
    }
  }

  // ---------------------------------------------------------------- theorems

  /**
   * Never more than WS_MSG_CREDIT messages of a stream are out: on their way, or delivered with their
   * ACK still on its way back. No ACK is ever in excess, and none of the credit leaks while both ends live.
   */
  lemma ReturnStaysInCredit(steps: seq<Step>, id: nat)
    requires id in Run(steps).sources
    ensures var s := Run(steps); var p, out := s.sources[id], |MsgsOf(s.channel, id)| + AckSum(s.acks, id);
      && id in s.sinks
      && out <= p.outstanding <= WS_MSG_CREDIT
      && (s.acks != [] && s.acks[0].id == id ==> s.acks[0].n <= p.outstanding)
      && (!s.sinks[id].gone && !p.over && !p.paid ==> p.outstanding == out)
  {
    hide Run, MsgsOf;
    RunKeeps(steps);
    assert StreamOk(Run(steps), id);
  }

  /** The visitor reads a prefix of what the app wrote, and nothing is missing between the two while both live. */
  lemma VisitorReadsInOrder(steps: seq<Step>, id: nat)
    requires id in Run(steps).sources
    ensures var s := Run(steps); var p := s.sources[id];
      && id in s.sinks
      && s.sinks[id].got <= p.read
      && (!s.sinks[id].gone && !p.dropped ==> s.sinks[id].got + MsgsOf(s.channel, id) + Hand(p) == p.read)
  {
    hide Run, MsgsOf, AckSum;
    RunKeeps(steps);
    assert StreamOk(Run(steps), id);
  }

  /** No credit deadlock: a message waits only while another is on its way or an ACK is coming back. */
  lemma ReturnNeverStalls(steps: seq<Step>, id: nat)
    requires id in Run(steps).sources && id in Run(steps).sinks && !Run(steps).sinks[id].gone
    requires Run(steps).sources[id].hand.Some? && !Run(steps).sources[id].paid
    requires MsgsOf(Run(steps).channel, id) == [] && AckSum(Run(steps).acks, id) == 0
    ensures StepTake(Run(steps), id).sources[id].paid
  {
    hide Run, MsgsOf, AckSum;
    RunKeeps(steps);
    assert StreamOk(Run(steps), id);
  }

  /** A stream ends only when it is ended: a visitor's socket by its own close or the agent's, a source by its context. */
  lemma OnlyClosesEnd(s: State, step: Step, id: nat)
    requires id in s.sources && id in s.sinks
    ensures id in Do(s, step).sources && id in Do(s, step).sinks
    ensures Do(s, step).sinks[id].gone && !s.sinks[id].gone ==>
      step == DoGone(id) || (step.DoEdgeReceive? && s.channel != [] && s.channel[0] == WsClose(id))
    ensures Do(s, step).sources[id].over && !s.sources[id].over ==> step == DoOver(id)
    ensures Do(s, step).sources[id].dropped && !s.sources[id].dropped ==> step == DoOver(id) && s.sources[id].hand.Some?
    ensures step == Step.DoTake(id) && s.sources[id].hand.Some? && !s.sources[id].paid ==>
      (Do(s, step).sources[id].paid <==> s.sources[id].outstanding < 8)
  {
  }

  /** The relay keeps moving: a message is read, sent once paid for, delivered with its ACK, and the ACK frees its credit. */
  lemma ReturnMoves(s: State, id: nat, m: Bytes)
    requires id in s.sources && id in s.sinks
    ensures var p, v := s.sources[id], s.sinks[id];
      && (!p.over && p.hand.None? ==>
            Do(s, Step.DoRead(id, m)).sources == s.sources[id := p.(read := p.read + [m], hand := Some(m), paid := false)])
      && (p.hand.Some? && p.paid ==>
            Do(s, Step.DoSend(id)).channel == s.channel + [WsMessage(id, p.hand.value)]
            && Do(s, Step.DoSend(id)).sources == s.sources[id := p.(hand := None, paid := false)])
      && Do(s, Step.DoClose(id)).channel == s.channel + [WsClose(id)]
      && (s.channel != [] && s.channel[0].id == id && !v.gone ==>
            var r := Do(s, Step.DoEdgeReceive);
            && r.channel == s.channel[1..]
            && match s.channel[0]
               case WsMessage(_, data) => r.sinks == s.sinks[id := v.(got := v.got + [data])] && r.acks == s.acks + [Ack(id, 1)]
               case WsClose(_) => r.sinks == s.sinks[id := v.(gone := true)] && r.acks == s.acks)
      && (s.acks != [] && s.acks[0].id == id && !p.over ==>
            var r, n := Do(s, Step.DoAgentReceive), s.acks[0].n;
            r.acks == s.acks[1..] && r.sources == s.sources[id := p.(outstanding := if p.outstanding < n then 0 else p.outstanding - n)])
  {
  }
}
