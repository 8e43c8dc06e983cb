/**
 * Admission of visitor requests on one agent socket: stream ids and the MAX_STREAMS limit.
 *
 * The next id lives in the socket's attachment and survives hibernation; the HTTP streams are in
 * memory, accepted visitor sockets are attached to the object. A step is one event handler.
 */
module VisitorAdmission {
  import opened Sets

  const MAX_STREAMS: int := 128
  const MAX_STREAM_ID: int := 0xFFFF_FFFF

  /** The edge's view of the agent socket; `heads` are the REQ_HEAD ids on the wire, `sent` every one ever sent. */
  datatype Edge = Edge(open: bool, hello: bool, draining: bool, nextStreamId: nat, streams: set<nat>, visitors: set<nat>,
                       heads: seq<nat>, sent: seq<nat>)

  /** `accepted` is every id the agent opened a stream for; `rejected` a head at or below `maxSeen`. */
  datatype Agent = Agent(maxSeen: nat, accepted: seq<nat>, rejected: bool)

  datatype State = State(edge: Edge, agent: Agent)

  const Start := State(Edge(true, false, false, 1, {}, {}, [], []), Agent(0, [], false))

  datatype Answer = Offline | DrainingPage | Busy | TooLarge | Forwarded(id: nat)

  /** What becomes of a head once its id is allocated. */
  datatype Fate = Oversized | Undeliverable | Delivered

  /** forwardVisitor. */
  function Forward(e: Edge, fate: Fate): (r: (Edge, Answer)) {
    if !e.open || !e.hello then (e, Offline)
    else if e.draining then (e, DrainingPage)
    else if |e.streams| + |e.visitors| >= MAX_STREAMS then (e, Busy)
    else if e.nextStreamId > MAX_STREAM_ID then (e.(open := false, streams := {}, visitors := {}), Offline)
    else
      var id := e.nextStreamId;
      var f := e.(nextStreamId := id + 1);
      match fate
      case Oversized => (f, TooLarge)
      case Undeliverable => (f, Forwarded(id))
      case Delivered => (f.(streams := e.streams + {id}, heads := e.heads + [id], sent := e.sent + [id]), Forwarded(id))
  }

  function StreamDone(e: Edge, id: nat): Edge { e.(streams := e.streams - {id}) }

  /** RES_HEAD 101: the visitor's socket joins, and its HTTP stream ends in the same event. */
  function Upgraded(e: Edge, id: nat): Edge {
    if id !in e.streams then e else e.(visitors := e.visitors + {id}, streams := e.streams - {id})
  }

  function VisitorGone(e: Edge, id: nat): Edge { e.(visitors := e.visitors - {id}) }

  /** openStream's check of the id against the high-water mark. */
  function OnHead(a: Agent, id: nat): Agent {
    if id <= a.maxSeen then a.(rejected := true) else a.(maxSeen := id, accepted := a.accepted + [id])
  }

  datatype Step =
    | DoHello
    | DoDrain
    | DoForward(fate: Fate)
    | DoStreamDone(id: nat)
    | DoUpgrade(id: nat)
    | DoVisitorGone(id: nat)
    | DoHibernate
    | DoAgentReads

  function Do(s: State, step: Step): State {
    match step
    case DoHello => s.(edge := s.edge.(hello := true))
    case DoDrain => s.(edge := s.edge.(draining := true))
    case DoForward(fate) => s.(edge := Forward(s.edge, fate).0)
    case DoStreamDone(id) => s.(edge := StreamDone(s.edge, id))
    case DoUpgrade(id) => s.(edge := Upgraded(s.edge, id))
    case DoVisitorGone(id) => s.(edge := VisitorGone(s.edge, id))
    // What is in memory is gone; the attachment and the sockets stay.
    case DoHibernate => s.(edge := s.edge.(streams := {}))
    case DoAgentReads =>
      if s.edge.heads == [] then s
      else State(s.edge.(heads := s.edge.heads[1..]), OnHead(s.agent, s.edge.heads[0]))
  }

  function Run(steps: seq<Step>): State {
    if steps == [] then Start else Do(Run(steps[..|steps| - 1]), steps[|steps| - 1])
  }

  // ---------------------------------------------------------------- what every run keeps

  ghost predicate Increasing(ids: seq<nat>) { forall i, j :: 0 <= i < j < |ids| ==> ids[i] < ids[j] }

  /** Heads go out, and arrive, in increasing order below the next id. */
  ghost predicate HeadsOk(s: State) {
    && s.agent.accepted + s.edge.heads == s.edge.sent
    && Increasing(s.agent.accepted + s.edge.heads)
    && (forall id :: id in s.agent.accepted + s.edge.heads ==> 0 < id < s.edge.nextStreamId)
    && s.agent.maxSeen == (if s.agent.accepted == [] then 0 else s.agent.accepted[|s.agent.accepted| - 1])
    && !s.agent.rejected && 0 < s.edge.nextStreamId <= MAX_STREAM_ID + 1
  }

  ghost predicate RoomOk(e: Edge) {
    && |e.streams| + |e.visitors| <= MAX_STREAMS
    && (forall id :: id in e.streams ==> id < e.nextStreamId && id !in e.visitors)
    && (forall id :: id in e.visitors ==> id < e.nextStreamId)
  }

  ghost predicate Inv(s: State) { HeadsOk(s) && RoomOk(s.edge) }

  lemma ForwardHeads(s: State, fate: Fate)
    requires HeadsOk(s)
    ensures HeadsOk(s.(edge := Forward(s.edge, fate).0))
  {
    var r := Forward(s.edge, fate).0;
    var id, all := s.edge.nextStreamId, s.agent.accepted + s.edge.heads;
    if r.heads != s.edge.heads {
      assert s.agent.accepted + r.heads == all + [id];
      assert forall i :: 0 <= i < |all| ==> all[i] in all;
    }
  }

  lemma ForwardRoom(e: Edge, fate: Fate)
    requires RoomOk(e)
    ensures RoomOk(Forward(e, fate).0)
  {
    assert e.nextStreamId !in e.streams;
  }

  lemma ReadHeads(s: State)
    requires HeadsOk(s) && s.edge.heads != []
    ensures HeadsOk(Do(s, DoAgentReads))
  {
    var all, n := s.agent.accepted + s.edge.heads, |s.agent.accepted|;
    assert all[n] == s.edge.heads[0] && all[n] in all;
    assert n > 0 ==> all[n - 1] == s.agent.maxSeen;
    assert s.agent.accepted + [s.edge.heads[0]] + s.edge.heads[1..] == all;
  }

  lemma UpgradeRoom(e: Edge, id: nat)
    requires RoomOk(e)
    ensures RoomOk(Upgraded(e, id))
  {
    if id in e.streams {
      assert |e.streams - {id}| == |e.streams| - 1 && |e.visitors + {id}| == |e.visitors| + 1;
    }
  }

  lemma FewerRoom(e: Edge, id: nat)
    requires RoomOk(e)
    ensures RoomOk(StreamDone(e, id)) && RoomOk(VisitorGone(e, id)) && RoomOk(e.(streams := {}))
  {
    SubsetCount(e.streams - {id}, e.streams);
    SubsetCount(e.visitors - {id}, e.visitors);
  }

  lemma StepKeeps(s: State, step: Step)
    requires Inv(s)
    ensures Inv(Do(s, step))
  {
    hide RoomOk, Increasing, Forward;
    FlagsRoom(s.edge);
    match step
    case DoForward(fate) =>
      ForwardHeads(s, fate);
      ForwardRoom(s.edge, fate);
    case DoAgentReads =>
      if s.edge.heads != [] {
        ReadHeads(s);
      }
    case DoUpgrade(id) => UpgradeRoom(s.edge, id);
    case DoStreamDone(id) => FewerRoom(s.edge, id);
    case DoVisitorGone(id) => FewerRoom(s.edge, id);
    case DoHibernate => FewerRoom(s.edge, 0);
    case _ =>
  }

  lemma FlagsRoom(e: Edge)
    requires RoomOk(e)
    ensures forall hello, draining, heads :: RoomOk(e.(hello := hello, draining := draining, heads := heads))
  {
  }

  lemma {:induction false} RunKeeps(steps: seq<Step>)
    ensures Inv(Run(steps))
  {
    hide Do;
    if steps != [] {
      RunKeeps(steps[..|steps| - 1]);
      StepKeeps(Run(steps[..|steps| - 1]), steps[|steps| - 1]);
    }
  }

  /**
   * Stream ids only grow on an agent socket, whatever was refused or slept through: the agent never
   * sees one at or below its high-water mark, and accepts every head sent, in order, as it arrives.
   */
  lemma HeadsNeverRejected(steps: seq<Step>)
    ensures var s := Run(steps);
      && !s.agent.rejected
      && s.agent.accepted + s.edge.heads == s.edge.sent
      && forall i, j :: 0 <= i < j < |s.edge.sent| ==> s.edge.sent[i] < s.edge.sent[j] <= MAX_STREAM_ID
  {
    hide Run;
    RunKeeps(steps);
    var s := Run(steps);
    assert forall i :: 0 <= i < |s.edge.sent| ==> s.edge.sent[i] in s.agent.accepted + s.edge.heads;
  }

  /** HTTP streams and visitor sockets of an epoch never exceed MAX_STREAMS, and share no id. */
  lemma StreamsWithinLimit(steps: seq<Step>)
    ensures |Run(steps).edge.streams| + |Run(steps).edge.visitors| <= MAX_STREAMS
    ensures forall id :: id in Run(steps).edge.streams ==> id !in Run(steps).edge.visitors
  {
    hide Run;
    RunKeeps(steps);
  }

  /** What makes and unmakes room: an upgrade moves a stream to the visitors, an end frees its place, sleep forgets the HTTP streams only. */
  lemma EventVerdict(s: State, id: nat)
    ensures Do(s, DoHello).edge == s.edge.(hello := true) && Do(s, DoDrain).edge == s.edge.(draining := true)
    ensures Do(s, DoHibernate).edge == s.edge.(streams := {})
    ensures id in s.edge.streams ==>
      Do(s, DoUpgrade(id)).edge == s.edge.(visitors := s.edge.visitors + {id}, streams := s.edge.streams - {id})
    ensures Do(s, DoStreamDone(id)).edge == s.edge.(streams := s.edge.streams - {id})
    ensures Do(s, DoVisitorGone(id)).edge == s.edge.(visitors := s.edge.visitors - {id})
    ensures s.edge.heads != [] && s.edge.heads[0] > s.agent.maxSeen ==>
      Do(s, DoAgentReads).agent == s.agent.(maxSeen := s.edge.heads[0], accepted := s.agent.accepted + [s.edge.heads[0]])
    ensures s.edge.heads != [] && s.edge.heads[0] <= s.agent.maxSeen ==> Do(s, DoAgentReads).agent == s.agent.(rejected := true)
  {
  }

  /** The agent socket's attachment and its connection, as the object mutates them. */
  class AgentSocket {
    var open: bool
    var hello: bool
    var draining: bool
    var nextStreamId: nat
    var streams: set<nat>
    var visitors: set<nat>
    var heads: seq<nat>
    ghost var sent: seq<nat>

    ghost function View(): Edge
      reads this
    {
      Edge(open, hello, draining, nextStreamId, streams, visitors, heads, sent)
    }

    constructor ()
      ensures View() == Start.edge
    {
      open, hello, draining, nextStreamId, streams, visitors, heads := true, false, false, 1, {}, {}, [];
      sent := [];
    }

    /** The id is persisted before anything else can fail. */
    method ForwardVisitor(fate: Fate) returns (answer: Answer)
      requires forall id :: id in streams ==> id < nextStreamId
      modifies this
      ensures (View(), answer) == Forward(old(View()), fate)
      ensures answer ==
        if !old(open) || !old(hello) then Offline
        else if old(draining) then DrainingPage
        else if |old(streams)| + |old(visitors)| >= 128 then Busy
        else if old(nextStreamId) > 4294967295 then Offline
        else if fate.Oversized? then TooLarge
        else Forwarded(old(nextStreamId))
      ensures nextStreamId == old(nextStreamId) + if answer.TooLarge? || answer.Forwarded? then 1 else 0
      ensures if answer.Forwarded? && fate.Delivered? then
                streams == old(streams) + {answer.id} && heads == old(heads) + [answer.id]
              else heads == old(heads) && (streams == old(streams) || (!open && old(nextStreamId) > 4294967295))
    {
      if !open || !hello {
        return Offline;
      }
      if draining {
        return DrainingPage;
      }
      if |streams| + |visitors| >= MAX_STREAMS {
        return Busy;
      }
      var id := nextStreamId;
      if id > MAX_STREAM_ID {
        open, streams, visitors := false, {}, {};
        return Offline;
      }
      nextStreamId := id + 1;
      if fate.Oversized? {
        return TooLarge;
      }
      streams := streams + {id};
      if fate.Undeliverable? {
        streams := streams - {id};
        return Forwarded(id);
      }
      heads := heads + [id];
      sent := sent + [id];
      return Forwarded(id);
    }
  }
}
