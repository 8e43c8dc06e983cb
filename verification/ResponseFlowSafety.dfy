/** What every run of ResponseFlow keeps: window accounting at the edge, stream lives, byte order. */
module ResponseFlowSafety {
  import opened Limits
  import opened Sums
  import opened Windows
  import opened ResponseFlow

  // ---------------------------------------------------------------- counting

  function FrameLen(f: Frame): nat { if f.ResBody? then |f.data| else 0 }

  function BodySum(w: seq<Frame>): nat { if w == [] then 0 else FrameLen(w[0]) + BodySum(w[1..]) }

  function FrameBytes(f: Frame, id: nat): Bytes { if f.ResBody? && f.id == id then f.data else [] }

  function BytesOf(w: seq<Frame>, id: nat): Bytes { if w == [] then [] else FrameBytes(w[0], id) + BytesOf(w[1..], id) }

  function JobData(j: Job): Bytes { if j.WriteJob? then j.data else [] }

  function JobBytes(jobs: seq<Job>): Bytes { if jobs == [] then [] else JobData(jobs[0]) + JobBytes(jobs[1..]) }

  /** The frames of the agent not yet read by the edge, in order: the socket, then the queue. */
  function Channel(a: Agent): seq<Frame> { a.wire + a.data }

  function HandLen(p: Sender): int { |p.hand| }

  function HeldOf(h: HttpStream): int { h.held }

  /** What the edge holds of the connection window, and what is on its way back. */
  function EdgeSide(e: Edge): int { e.held + GrantSum(e.wire, 0) }

  ghost function ConnTotal(s: State): int {
    s.agent.conn + SumOver(s.agent.senders, HandLen) + BodySum(Channel(s.agent)) + EdgeSide(s.edge)
  }

  function SenderPart(a: Agent, id: nat): int {
    if id in a.senders then (if a.senders[id].registered then a.senders[id].credit else 0) + |a.senders[id].hand| else 0
  }

  function StreamPart(e: Edge, id: nat): int {
    if id in e.streams then e.streams[id].held + e.streams[id].ungranted else 0
  }

  function StreamTotal(s: State, id: nat): int {
    SenderPart(s.agent, id) + |BytesOf(Channel(s.agent), id)| + StreamPart(s.edge, id) + GrantSum(s.edge.wire, id)
  }

  lemma {:induction false} AppendJob(jobs: seq<Job>, j: Job)
    ensures JobBytes(jobs + [j]) == JobBytes(jobs) + JobData(j)
  {
    if jobs == [] {
      assert jobs + [j] == [j];
      assert JobBytes([j]) == JobData(j) + JobBytes([]);
    } else {
      assert (jobs + [j])[1..] == jobs[1..] + [j];
      AppendJob(jobs[1..], j);
    }
  }

  /** No RES_BODY of a stream follows its RES_END. */
  predicate EndLast(w: seq<Frame>, id: nat) {
    w == [] || ((w[0] == ResEnd(id) ==> BytesOf(w[1..], id) == []) && EndLast(w[1..], id))
  }

  // ---------------------------------------------------------------- the edge's books

  /** `owed` bytes are counted by the connection window but booked nowhere yet. */
  ghost predicate Booked(e: Edge, owed: int) {
    && (forall id :: id in e.streams ==> e.streams[id].held >= 0)
    && e.held == SumOver(e.streams, HeldOf) + e.connUngranted + owed
    && owed >= 0
    && e.held <= CONN_WINDOW
  }

  /** Coalesced credit stays below a quarter window and is never kept while no stream is open. */
  ghost predicate Coalesced(e: Edge) {
    e.connUngranted < CONN_WINDOW / 4 && (AllDone(e.streams) ==> e.connUngranted == 0)
  }

  /** Same window position and flags, whatever was moved between the books and the socket. */
  ghost predicate SameSide(e: Edge, f: Edge) { EdgeSide(f) == EdgeSide(e) && f.fault == e.fault }

  lemma FlushLaw(e: Edge, owed: int)
    requires Booked(e, owed)
    ensures var f := FlushConn(e);
      f == e.(held := f.held, connUngranted := 0, wire := f.wire) && Booked(f, owed) && SameSide(e, f)
    ensures forall k :: k > 0 ==> GrantSum(FlushConn(e).wire, k) == GrantSum(e.wire, k)
    ensures forall g :: g in FlushConn(e).wire ==> g in e.wire || g.id == 0
  {
    hide SumOver, GrantSum;
    SumNonNegative(e.streams, HeldOf);
    AppendGrantAll(e.wire, Grant(0, e.connUngranted));
    if e.connUngranted > 0 {
      assert U32(e.connUngranted) == e.connUngranted;
    }
  }

  lemma GrantLaw(e: Edge, n: nat, owed: int)
    requires Booked(e, owed + n) && owed >= 0
    ensures var f := GrantConn(e, n);
      f == e.(held := f.held, connUngranted := f.connUngranted, wire := f.wire)
      && Booked(f, owed) && Coalesced(f) && SameSide(e, f)
    ensures forall k :: k > 0 ==> GrantSum(GrantConn(e, n).wire, k) == GrantSum(e.wire, k)
    ensures forall g :: g in GrantConn(e, n).wire ==> g in e.wire || g.id == 0
  {
    hide FlushConn, GrantSum, SumOver;
    FlushLaw(e.(connUngranted := e.connUngranted + n), owed);
  }

  function ResetLife(l: Life, notify: bool): Life { if l.done then l else Finished(Broken(l, notify)) }

  /** Changing a stream without touching what it holds leaves the books alone. */
  lemma SwapBooked(e: Edge, id: nat, h: HttpStream, owed: int)
    requires Booked(e, owed) && id in e.streams && h.held == e.streams[id].held
    ensures Booked(With(e, id, h), owed)
  {
    SumUpdate(e.streams, HeldOf, id, h);
  }

  lemma SwapCoalesced(e: Edge, id: nat, h: HttpStream)
    requires Coalesced(e) && id in e.streams && (h.life.done ==> e.streams[id].life.done)
    ensures Coalesced(With(e, id, h))
  {
    if AllDone(With(e, id, h).streams) {
      forall k | k in e.streams
        ensures e.streams[k].life.done
      {
        assert k in With(e, id, h).streams && With(e, id, h).streams[k].life.done;
      }
    }
  }

  lemma FinishLaw(e: Edge, id: nat, owed: int)
    requires id in e.streams && Booked(e, owed) && Coalesced(e)
    ensures var f, h := Finish(e, id), e.streams[id];
      f == e.(held := f.held, connUngranted := f.connUngranted, wire := f.wire, streams := e.streams[id := h.(life := Finished(h.life))])
      && Booked(f, owed) && Coalesced(f) && SameSide(e, f)
    ensures forall k :: k > 0 ==> GrantSum(Finish(e, id).wire, k) == GrantSum(e.wire, k)
    ensures forall g :: g in Finish(e, id).wire ==> g in e.wire || g.id == 0
  {
    hide FlushConn, GrantSum, SumOver;
    var h := e.streams[id];
    if h.life.done {
      assert e.streams[id := h] == e.streams;
    } else {
      SwapBooked(e, id, h.(life := Finished(h.life)), owed);
      FlushLaw(With(e, id, h.(life := Finished(h.life))), owed);
    }
  }

  lemma ResetLaw(e: Edge, id: nat, notify: bool, owed: int)
    requires id in e.streams && Booked(e, owed) && Coalesced(e)
    ensures var f, h := Reset(e, id, notify), e.streams[id];
      f == e.(held := f.held, connUngranted := f.connUngranted, wire := f.wire,
              streams := e.streams[id := h.(life := ResetLife(h.life, notify))])
      && Booked(f, owed) && Coalesced(f) && SameSide(e, f)
    ensures forall k :: k > 0 ==> GrantSum(Reset(e, id, notify).wire, k) == GrantSum(e.wire, k)
    ensures forall g :: g in Reset(e, id, notify).wire ==> g in e.wire || g.id == 0
  {
    hide Finish, FlushConn, GrantSum, SumOver;
    var h := e.streams[id];
    if h.life.done {
      assert e.streams[id := h] == e.streams;
    } else {
      var h1 := h.(life := Broken(h.life, notify));
      SwapBooked(e, id, h1, owed);
      SwapCoalesced(e, id, h1);
      FinishLaw(With(e, id, h1), id, owed);
      assert e.streams[id := h1][id := h1.(life := Finished(h1.life))] == e.streams[id := h1.(life := Finished(h1.life))];
    }
  }

  /** A stream's coalesced credit, or the WINDOW it becomes. */
  lemma BookingLaw(e: Edge, id: nat, u: nat)
    requires id in e.streams && id > 0 && Booked(e, 0) && Coalesced(e) && u <= 2 * CONN_WINDOW
    ensures var f := Booking(e, id, u);
      Booked(f, 0) && Coalesced(f) && SameSide(e, f) && Rest(u) + GrantSum(f.wire, id) == u + GrantSum(e.wire, id)
    ensures forall k :: k > 0 && k != id ==> GrantSum(Booking(e, id, u).wire, k) == GrantSum(e.wire, k)
    ensures forall g :: g in Booking(e, id, u).wire ==> g in e.wire || g.id == id
  {
    hide SumOver, GrantSum;
    var h := e.streams[id].(ungranted := Rest(u));
    SwapBooked(e, id, h, 0);
    SwapCoalesced(e, id, h);
    AppendGrantAll(e.wire, Grant(id, u));
    assert U32(u) == u;
  }

  /** What a stream holds after `n` consumed bytes, its coalesced credit included. */
  function Eaten(h: HttpStream, n: nat): HttpStream {
    h.(held := h.held - n, ungranted := if h.life.done || h.life.resEnded then h.ungranted else Rest(h.ungranted + n))
  }

  /** The connection's half of consumed bytes: they leave the stream and are coalesced. */
  lemma EatenConn(e: Edge, id: nat, n: nat)
    requires id in e.streams && Booked(e, 0) && n <= e.streams[id].held
    ensures var h := e.streams[id]; var e1 := With(e, id, h.(held := h.held - n)); var f := GrantConn(e1, n);
      f == e1.(held := f.held, connUngranted := f.connUngranted, wire := f.wire)
      && Booked(f, 0) && Coalesced(f) && SameSide(e, f)
    ensures var h := e.streams[id]; var f := GrantConn(With(e, id, h.(held := h.held - n)), n);
      (forall k :: k > 0 ==> GrantSum(f.wire, k) == GrantSum(e.wire, k))
      && (forall g :: g in f.wire ==> g in e.wire || g.id == 0)
  {
    hide GrantConn, GrantSum, SumOver;
    var h := e.streams[id];
    SumUpdate(e.streams, HeldOf, id, h.(held := h.held - n));
    GrantLaw(With(e, id, h.(held := h.held - n)), n, 0);
  }

  /** Consumed credit goes back once: to the connection always, to the stream while it is open. */
  lemma ConsumedLaw(e: Edge, id: nat, n: nat)
    requires id in e.streams && id > 0 && Booked(e, 0)
    requires n <= e.streams[id].held && n <= CONN_WINDOW && e.streams[id].ungranted < STREAM_WINDOW / 4
    ensures var f, h := Consumed(e, id, n), e.streams[id];
      f == e.(held := f.held, connUngranted := f.connUngranted, wire := f.wire, streams := e.streams[id := Eaten(h, n)])
      && Booked(f, 0) && Coalesced(f) && SameSide(e, f)
      && Eaten(h, n).ungranted + GrantSum(f.wire, id)
         == h.ungranted + GrantSum(e.wire, id) + (if h.life.done || h.life.resEnded then 0 else n)
    ensures forall k :: k > 0 && k != id ==> GrantSum(Consumed(e, id, n).wire, k) == GrantSum(e.wire, k)
    ensures forall g :: g in Consumed(e, id, n).wire ==> g in e.wire || g.id == 0 || g.id == id
  {
    hide GrantConn, GrantSum, SumOver, Booking, Booked, Coalesced;
    var h := e.streams[id];
    var h1 := h.(held := h.held - n);
    EatenConn(e, id, n);
    if !h.life.done && !h.life.resEnded {
      var e2 := GrantConn(With(e, id, h1), n);
      BookingLaw(e2, id, h.ungranted + n);
      BookingStreams(e2, id, h.ungranted + n);
      assert e.streams[id := h1][id := Eaten(h, n)] == e.streams[id := Eaten(h, n)];
    }
  }

  lemma BookingStreams(e: Edge, id: nat, u: nat)
    requires id in e.streams
    ensures var f := Booking(e, id, u);
      f == e.(wire := f.wire, streams := e.streams[id := e.streams[id].(ungranted := Rest(u))])
  {
  }

  // ---------------------------------------------------------------- what an edge operation may do

  /**
   * An operation on stream `id` that took `n` body bytes off the socket: the connection side grew by
   * exactly `n`, the stream's by `n` too while the stream is open, and no other stream was touched.
   */
  ghost predicate Effect(e: Edge, f: Edge, id: nat, g: HttpStream, n: nat)
    requires id in e.streams
  {
    var h := e.streams[id];
    && f == e.(held := f.held, connUngranted := f.connUngranted, wire := f.wire, streams := e.streams[id := g])
    && Booked(f, 0) && Coalesced(f)
    && EdgeSide(f) == EdgeSide(e) + n
    && g.held + g.ungranted + GrantSum(f.wire, id) <= h.held + h.ungranted + GrantSum(e.wire, id) + n
    && (!g.life.done && !g.life.resEnded ==>
          g.held + g.ungranted + GrantSum(f.wire, id) == h.held + h.ungranted + GrantSum(e.wire, id) + n)
    && (forall k :: k > 0 && k != id ==> GrantSum(f.wire, k) == GrantSum(e.wire, k))
    && (forall w :: w in f.wire ==> w in e.wire || w.id == 0 || w.id == id)
  }

  ghost predicate EdgeOk(e: Edge, id: nat) {
    id in e.streams && id > 0 && Booked(e, 0) && Coalesced(e) && e.streams[id].ungranted < STREAM_WINDOW / 4
  }

  lemma QuietEffect(e: Edge, id: nat, g: HttpStream)
    requires EdgeOk(e, id) && g.held == e.streams[id].held && g.ungranted == e.streams[id].ungranted
    requires g.life.done ==> e.streams[id].life.done
    ensures Effect(e, With(e, id, g), id, g, 0)
  {
    hide GrantSum, SumOver;
    SwapBooked(e, id, g, 0);
    SwapCoalesced(e, id, g);
  }

  lemma ResetEffect(e: Edge, id: nat, notify: bool)
    requires EdgeOk(e, id)
    ensures Effect(e, Reset(e, id, notify), id, e.streams[id].(life := ResetLife(e.streams[id].life, notify)), 0)
  {
    hide GrantSum, SumOver, Reset, Finished, Broken;
    ResetLaw(e, id, notify, 0);
  }

  function HeadTaken(h: HttpStream, head: Head): HttpStream {
    if h.life.headDone || !AcceptableHead(h.life, head) then h.(life := ResetLife(h.life, true))
    else
      var l := Note(h.life, HeadGiven).(headDone := true);
      if head.status == 101 then h.(life := Finished(l.(resEnded := true)))
      else if NullBody(l, head.status) then h.(life := l)
      else h.(life := l, chain := h.chain.(hasWriter := true, expected := head.length))
  }

  lemma HeadEffect(e: Edge, id: nat, head: Head)
    requires EdgeOk(e, id) && !e.streams[id].life.done
    ensures Effect(e, OnResHead(e, id, head), id, HeadTaken(e.streams[id], head), 0)
  {
    hide GrantSum, SumOver, Reset, Finish, Finished, Broken, Booked, Coalesced, AcceptableHead, NullBody;
    var h := e.streams[id];
    var l := Note(h.life, HeadGiven).(headDone := true);
    if h.life.headDone || !AcceptableHead(h.life, head) {
      ResetEffect(e, id, true);
    } else if head.status == 101 {
      var h1 := h.(life := l.(resEnded := true));
      QuietEffect(e, id, h1);
      FinishLaw(With(e, id, h1), id, 0);
      assert e.streams[id := h1][id := h1.(life := Finished(h1.life))] == e.streams[id := h1.(life := Finished(h1.life))];
      FinishedDone(h1.life);
    } else {
      QuietEffect(e, id, HeadTaken(h, head));
    }
  }

  lemma FinishedDone(l: Life)
    ensures Finished(l).done
  {
  }

  function BodyCount(h: HttpStream, data: Bytes): int {
    if h.chain.expected.Some? then h.chain.bodyBytes + |data| else h.chain.bodyBytes
  }

  predicate TooLong(h: HttpStream, data: Bytes) {
    h.chain.expected.Some? && h.chain.bodyBytes + |data| > h.chain.expected.value
  }

  /** The stream after a RES_BODY inside its window. */
  function BodyTaken(h: HttpStream, data: Bytes): HttpStream {
    if !h.life.headDone then h.(life := ResetLife(h.life, true))
    else if h.life.resEnded then h
    else if !h.chain.hasWriter then Eaten(h.(held := h.held + |data|), |data|)
    else if TooLong(h, data) then
      h.(life := ResetLife(h.life, true), chain := h.chain.(bodyBytes := BodyCount(h, data)))
    else
      h.(held := h.held + |data|,
         chain := h.chain.(jobs := h.chain.jobs + [WriteJob(data)], bodyBytes := BodyCount(h, data)))
  }

  /** What OnResBody does with a stream that still takes data, once the bytes are booked to it. */
  lemma BodyEffect(e: Edge, id: nat, data: Bytes)
    requires EdgeOk(e, id) && !e.streams[id].life.done
    requires e.held + |data| <= CONN_WINDOW
    requires e.streams[id].held + |data| + e.streams[id].ungranted <= STREAM_WINDOW
    ensures Effect(e, OnResBody(Received(e, |data|), id, data), id, BodyTaken(e.streams[id], data), |data|)
  {
    var h := e.streams[id];
    if !h.life.headDone || h.life.resEnded {
      UnreadEffect(e, id, data);
    } else if !h.chain.hasWriter {
      DroppedEffect(e, id, data);
    } else if TooLong(h, data) {
      TooLongEffect(e, id, data);
    } else {
      QueuedEffect(e, id, data);
    }
  }

  lemma UnreadEffect(e: Edge, id: nat, data: Bytes)
    requires EdgeOk(e, id) && !e.streams[id].life.done && e.held + |data| <= CONN_WINDOW
    requires !e.streams[id].life.headDone || e.streams[id].life.resEnded
    ensures Effect(e, OnResBody(Received(e, |data|), id, data), id, BodyTaken(e.streams[id], data), |data|)
  {
    hide GrantSum, SumOver, GrantConn, Reset, Finished, Broken, Consumed, TooLong, BodyCount;
    var h, r := e.streams[id], Received(e, |data|);
    GrantLaw(r, |data|, 0);
    if !h.life.headDone {
      ResetLaw(GrantConn(r, |data|), id, true, 0);
      ResetDone(h.life, true);
    } else {
      assert e.streams[id := h] == e.streams;
    }
  }

  lemma ResetDone(l: Life, notify: bool)
    ensures ResetLife(l, notify).done
  {
  }

  /** Receiving and booking to a stream. */
  lemma BookedTo(e: Edge, id: nat, g: HttpStream, n: nat)
    requires EdgeOk(e, id) && e.held + n <= CONN_WINDOW
    requires g.held == e.streams[id].held + n && g.life.done == e.streams[id].life.done
    ensures var f := With(Received(e, n), id, g); Booked(f, 0) && Coalesced(f) && !(e.fault != f.fault)
  {
    SumUpdate(e.streams, HeldOf, id, g);
    SwapCoalesced(e, id, g);
  }

  lemma QueuedEffect(e: Edge, id: nat, data: Bytes)
    requires EdgeOk(e, id) && !e.streams[id].life.done && e.held + |data| <= CONN_WINDOW
    requires e.streams[id].held + |data| + e.streams[id].ungranted <= STREAM_WINDOW
    requires e.streams[id].life.headDone && !e.streams[id].life.resEnded
    requires e.streams[id].chain.hasWriter && !TooLong(e.streams[id], data)
    ensures Effect(e, OnResBody(Received(e, |data|), id, data), id, BodyTaken(e.streams[id], data), |data|)
  {
    hide GrantSum, SumOver, GrantConn, Reset, Consumed, Booked, Coalesced;
    BookedTo(e, id, BodyTaken(e.streams[id], data), |data|);
  }

  lemma DroppedEffect(e: Edge, id: nat, data: Bytes)
    requires EdgeOk(e, id) && !e.streams[id].life.done && e.held + |data| <= CONN_WINDOW
    requires e.streams[id].held + |data| + e.streams[id].ungranted <= STREAM_WINDOW
    requires e.streams[id].life.headDone && !e.streams[id].life.resEnded && !e.streams[id].chain.hasWriter
    ensures Effect(e, OnResBody(Received(e, |data|), id, data), id, BodyTaken(e.streams[id], data), |data|)
  {
    hide GrantSum, SumOver, GrantConn, Reset, Consumed, Coalesced, TooLong, BodyCount;
    var h := e.streams[id];
    var h1 := h.(held := h.held + |data|);
    BookedTo(e, id, h1, |data|);
    var r := With(Received(e, |data|), id, h1);
    ConsumedLaw(r, id, |data|);
    assert e.streams[id := h1][id := Eaten(h1, |data|)] == e.streams[id := Eaten(h1, |data|)];
  }

  lemma TooLongEffect(e: Edge, id: nat, data: Bytes)
    requires EdgeOk(e, id) && !e.streams[id].life.done && e.held + |data| <= CONN_WINDOW
    requires e.streams[id].held + |data| + e.streams[id].ungranted <= STREAM_WINDOW
    requires e.streams[id].life.headDone && !e.streams[id].life.resEnded && e.streams[id].chain.hasWriter
    requires TooLong(e.streams[id], data)
    ensures Effect(e, OnResBody(Received(e, |data|), id, data), id, BodyTaken(e.streams[id], data), |data|)
  {
    hide GrantSum, SumOver, GrantConn, Reset, Consumed, Finished, Broken;
    var h := e.streams[id];
    var h1 := h.(held := h.held + |data|, chain := h.chain.(bodyBytes := BodyCount(h, data)));
    BookedTo(e, id, h1, |data|);
    var r := With(Received(e, |data|), id, h1);
    ResetLaw(r, id, true, 0);
    ResetDone(h.life, true);
    var h2 := h1.(life := ResetLife(h1.life, true));
    var q := Reset(r, id, true);
    assert q.streams == e.streams[id := h2];
    ConsumedLaw(q, id, |data|);
    assert Eaten(h2, |data|) == BodyTaken(h, data);
    assert e.streams[id := h2][id := Eaten(h2, |data|)] == e.streams[id := Eaten(h2, |data|)];
  }

  function EndTaken(h: HttpStream): HttpStream {
    if !h.life.headDone || h.life.resEnded then h.(life := ResetLife(h.life, true))
    else h.(life := SendReqEnd(h.life.(resEnded := true)), chain := h.chain.(jobs := h.chain.jobs + [CloseJob]))
  }

  lemma EndEffect(e: Edge, id: nat)
    requires EdgeOk(e, id) && !e.streams[id].life.done
    ensures Effect(e, OnResEnd(e, id), id, EndTaken(e.streams[id]), 0)
  {
    hide GrantSum, SumOver, Reset, Finished, Broken, Booked, Coalesced;
    var h := e.streams[id];
    if !h.life.headDone || h.life.resEnded {
      ResetEffect(e, id, true);
    } else {
      QuietEffect(e, id, EndTaken(h));
    }
  }

  /** The stream after its write chain moved on to the next job. */
  function Started(h: HttpStream): HttpStream
    requires h.chain.jobs != []
  {
    var rest := h.(chain := h.chain.(jobs := h.chain.jobs[1..]));
    match h.chain.jobs[0]
    case WriteJob(data) => if h.life.done then Eaten(rest, |data|) else h.(chain := h.chain.(writing := true))
    case CloseJob =>
      if h.chain.hasWriter && !h.life.done then h.(chain := h.chain.(writing := true))
      else rest.(life := Finished(h.life))
  }

  lemma StartEffect(e: Edge, id: nat)
    requires EdgeOk(e, id) && CanStartJob(e, id) && e.streams[id].held >= |JobData(e.streams[id].chain.jobs[0])|
    ensures Effect(e, StartJob(e, id), id, Started(e.streams[id]), 0)
  {
    hide GrantSum, SumOver, Finish, Finished, Consumed, Coalesced;
    var h := e.streams[id];
    var rest := h.(chain := h.chain.(jobs := h.chain.jobs[1..]));
    if Started(h) == h.(chain := h.chain.(writing := true)) {
      QuietEffect(e, id, Started(h));
    } else {
      QuietEffect(e, id, rest);
      var r := With(e, id, rest);
      assert e.streams[id := rest][id := Started(h)] == e.streams[id := Started(h)];
      if h.chain.jobs[0].WriteJob? {
        HeldInWindow(r, id);
        ConsumedLaw(r, id, |h.chain.jobs[0].data|);
      } else {
        FinishLaw(r, id, 0);
        FinishedDone(h.life);
      }
    }
  }

  lemma HeldInWindow(e: Edge, id: nat)
    requires id in e.streams && Booked(e, 0)
    ensures 0 <= e.streams[id].held <= CONN_WINDOW
  {
    SumNonNegative(e.streams, HeldOf);
    assert HeldOf(e.streams[id]) <= SumOver(e.streams, HeldOf);
  }

  /** The stream after the awaited job settled. */
  function Settled(h: HttpStream, ok: bool): HttpStream
    requires h.chain.jobs != []
  {
    var c := h.chain.(writing := false, jobs := h.chain.jobs[1..]);
    match h.chain.jobs[0]
    case WriteJob(data) =>
      if ok then Eaten(h.(chain := c.(got := c.got + data)), |data|)
      else Eaten(h.(chain := c, life := ResetLife(h.life, true)), |data|)
    case CloseJob =>
      if ok && Fits(c) then h.(chain := c.(closed := true), life := Finished(h.life))
      else h.(chain := c, life := ResetLife(h.life, true))
  }

  lemma SettleWriteEffect(e: Edge, id: nat, ok: bool)
    requires EdgeOk(e, id) && CanEndJob(e, id) && e.streams[id].chain.jobs[0].WriteJob?
    requires e.streams[id].held >= |e.streams[id].chain.jobs[0].data|
    ensures Effect(e, EndJob(e, id, ok), id, Settled(e.streams[id], ok), 0)
  {
    hide GrantSum, SumOver, Reset, Finished, Broken, Consumed, Coalesced;
    var h := e.streams[id];
    var data := h.chain.jobs[0].data;
    var c := h.chain.(writing := false, jobs := h.chain.jobs[1..]);
    var h1 := if ok then h.(chain := c.(got := c.got + data)) else h.(chain := c);
    QuietEffect(e, id, h1);
    HeldInWindow(e, id);
    var r := With(e, id, h1);
    if ok {
      ConsumedLaw(r, id, |data|);
      assert e.streams[id := h1][id := Settled(h, ok)] == e.streams[id := Settled(h, ok)];
    } else {
      ResetLaw(r, id, true, 0);
      var h2 := h1.(life := ResetLife(h1.life, true));
      assert e.streams[id := h1][id := h2] == e.streams[id := h2];
      ConsumedLaw(Reset(r, id, true), id, |data|);
      ResetDone(h.life, true);
      assert e.streams[id := h2][id := Settled(h, ok)] == e.streams[id := Settled(h, ok)];
    }
  }

  lemma SettleCloseEffect(e: Edge, id: nat, ok: bool)
    requires EdgeOk(e, id) && CanEndJob(e, id) && e.streams[id].chain.jobs[0].CloseJob?
    ensures Effect(e, EndJob(e, id, ok), id, Settled(e.streams[id], ok), 0)
  {
    hide GrantSum, SumOver, Reset, Finish, Finished, Broken, Booked, Coalesced, Fits;
    var h := e.streams[id];
    var c := h.chain.(writing := false, jobs := h.chain.jobs[1..]);
    var h1 := if ok && Fits(c) then h.(chain := c.(closed := true)) else h.(chain := c);
    QuietEffect(e, id, h1);
    var r := With(e, id, h1);
    assert e.streams[id := h1][id := Settled(h, ok)] == e.streams[id := Settled(h, ok)];
    if ok && Fits(c) {
      FinishLaw(r, id, 0);
      FinishedDone(h.life);
    } else {
      ResetLaw(r, id, true, 0);
      ResetDone(h.life, true);
    }
  }

  // ---------------------------------------------------------------- a stream by itself

  /**
   * The visitor's and the agent's view: one head, one end, REQ_END and RESET at most once and in
   * order, and no response end without the agent having been told the request is over.
   */
  ghost predicate LogOk(l: Life) {
    && (forall i, j :: 0 <= i < j < |l.log| ==> l.log[i] != l.log[j])
    && (Done in l.log <==> l.done)
    && (HeadGiven in l.log <==> l.headDone || l.done)
    && (ReqEndSent in l.log ==> l.reqEndSent)
    && (l.reqEndSent ==> l.ws || ReqEndSent in l.log)
    && (l.resEnded ==> l.reqEndSent)
    && (ResetSent in l.log ==> l.done)
    && (forall i, j :: 0 <= i < j < |l.log| && l.log[i] == ResetSent ==> l.log[j] != ReqEndSent)
  }

  /** The write chain: writes, then at most one close, all after the head; `held` is what they still hold. */
  ghost predicate ChainOk(h: HttpStream) {
    var c := h.chain;
    && h.ungranted < STREAM_WINDOW / 4
    && h.held == |JobBytes(c.jobs)|
    && (c.writing ==> c.jobs != [])
    && (c.jobs != [] || c.hasWriter || h.life.resEnded ==> h.life.headDone)
    && (forall i :: 0 <= i < |c.jobs| && c.jobs[i].CloseJob? ==> i == |c.jobs| - 1)
    && (CloseJob in c.jobs ==> h.life.resEnded)
    && (!c.hasWriter ==> JobBytes(c.jobs) == [] && c.got == [])
    && (c.closed ==> h.life.done && h.life.resEnded && Fits(c) && c.jobs == [])
  }

  /** A ws stream carries no request body, so there is no REQ_END to send. */
  ghost predicate NoRequestBody(l: Life) { l.ws && !l.done ==> l.reqEndSent }

  ghost predicate HttpOk(h: HttpStream) { LogOk(h.life) && NoRequestBody(h.life) && ChainOk(h) }

  /** Showing an event for the first time. */
  lemma Shown(l: Life, event: Event)
    requires forall i, j :: 0 <= i < j < |l.log| ==> l.log[i] != l.log[j]
    requires forall i, j :: 0 <= i < j < |l.log| && l.log[i] == ResetSent ==> l.log[j] != ReqEndSent
    requires event !in l.log && (event == ReqEndSent ==> ResetSent !in l.log)
    ensures var log := Note(l, event).log;
      && (forall i, j :: 0 <= i < j < |log| ==> log[i] != log[j])
      && (forall i, j :: 0 <= i < j < |log| && log[i] == ResetSent ==> log[j] != ReqEndSent)
      && (forall x :: x in log <==> x in l.log || x == event)
  {
  }

  lemma FinishedLog(l: Life)
    requires LogOk(l) && (l.headDone || l.done)
    ensures LogOk(Finished(l))
  {
    if !l.done {
      Shown(l, Done);
    }
  }

  lemma ResetLog(l: Life, notify: bool)
    requires LogOk(l)
    ensures LogOk(ResetLife(l, notify))
  {
    hide Broken;
    if !l.done {
      BrokenLog(l, notify);
      Shown(Broken(l, notify), Done);
    }
  }

  /** Just before it finishes, a reset stream has shown its head once and perhaps the RESET, nothing else new. */
  lemma BrokenLog(l: Life, notify: bool)
    requires LogOk(l) && !l.done
    ensures var b := Broken(l, notify);
      && (forall i, j :: 0 <= i < j < |b.log| ==> b.log[i] != b.log[j])
      && (forall i, j :: 0 <= i < j < |b.log| && b.log[i] == ResetSent ==> b.log[j] != ReqEndSent)
      && Done !in b.log && HeadGiven in b.log && (ReqEndSent in b.log <==> ReqEndSent in l.log)
      && b == l.(headDone := true, log := b.log)
  {
    var l1 := if notify then Note(l, ResetSent) else l;
    if notify {
      Shown(l, ResetSent);
    }
    if !l.headDone {
      Shown(l1, HeadGiven);
    }
  }

  lemma ReqEndLog(l: Life)
    requires LogOk(l)
    ensures LogOk(SendReqEnd(l))
  {
    if !l.reqEndSent && !l.done {
      Shown(l, ReqEndSent);
    }
  }

  lemma HeadLog(l: Life)
    requires LogOk(l) && !l.headDone && !l.done
    ensures LogOk(Note(l, HeadGiven).(headDone := true))
  {
    Shown(l, HeadGiven);
  }

  lemma HeadKeepsHttp(h: HttpStream, head: Head)
    requires HttpOk(h) && !h.life.done
    ensures HttpOk(HeadTaken(h, head))
  {
    hide LogOk, JobBytes, Fits, Finished, NullBody, AcceptableHead;
    var l := Note(h.life, HeadGiven).(headDone := true);
    if h.life.headDone || !AcceptableHead(h.life, head) {
      ResetLog(h.life, true);
      ResetFlags(h.life, true);
    } else {
      HeadLog(h.life);
      if head.status == 101 {
        assert h.life.ws by { OnlyUpgrades(h.life, head); }
        EndedLog(l);
        FinishedLog(l.(resEnded := true));
        FinishedFlags(l.(resEnded := true));
      }
      assert h.chain.jobs == [];
      NoJobs();
    }
  }

  lemma OnlyUpgrades(l: Life, head: Head)
    requires AcceptableHead(l, head) && head.status == 101
    ensures l.ws
  {
  }

  lemma NoJobs()
    ensures JobBytes([]) == []
  {
  }

  lemma EndedLog(l: Life)
    requires LogOk(l) && l.reqEndSent
    ensures LogOk(l.(resEnded := true))
  {
  }

  /** RES_END: the agent hears REQ_END if it has not yet. */
  lemma ResEndLog(l: Life)
    requires LogOk(l) && !l.done
    ensures LogOk(SendReqEnd(l.(resEnded := true)))
  {
    if !l.reqEndSent {
      Shown(l, ReqEndSent);
    }
  }

  lemma FinishedFlags(l: Life)
    ensures var f := Finished(l);
      f.done && f.headDone == l.headDone && f.resEnded == l.resEnded && f.reqEndSent == l.reqEndSent && f.ws == l.ws
  {
  }

  lemma ResetFlags(l: Life, notify: bool)
    ensures var f := ResetLife(l, notify);
      f.done && (l.headDone ==> f.headDone) && f.resEnded == l.resEnded && f.reqEndSent == l.reqEndSent && f.ws == l.ws
  {
  }

  lemma BodyKeepsHttp(h: HttpStream, data: Bytes)
    requires HttpOk(h) && !h.life.done
    ensures HttpOk(BodyTaken(h, data))
  {
    hide LogOk, JobBytes, Fits, TooLong, BodyCount, Finished, Broken, ResetLife;
    ResetLog(h.life, true);
    ResetFlags(h.life, true);
    AppendJob(h.chain.jobs, WriteJob(data));
  }

  lemma EndKeepsHttp(h: HttpStream)
    requires HttpOk(h) && !h.life.done
    ensures HttpOk(EndTaken(h))
  {
    hide LogOk, JobBytes, Fits, ResetLife;
    ResetLog(h.life, true);
    ResetFlags(h.life, true);
    ResEndLog(h.life);
    AppendJob(h.chain.jobs, CloseJob);
    assert JobBytes(h.chain.jobs) + [] == JobBytes(h.chain.jobs);
    assert forall i :: 0 <= i < |h.chain.jobs| && h.chain.jobs[i].CloseJob? ==> h.chain.jobs[i] in h.chain.jobs;
  }

  /** Taking the head off the write chain. */
  lemma TakeJob(h: HttpStream)
    requires ChainOk(h) && h.chain.jobs != []
    ensures JobBytes(h.chain.jobs) == JobData(h.chain.jobs[0]) + JobBytes(h.chain.jobs[1..])
    ensures h.held - |JobData(h.chain.jobs[0])| == |JobBytes(h.chain.jobs[1..])|
    ensures JobBytes(h.chain.jobs) == [] ==> JobData(h.chain.jobs[0]) == [] == JobBytes(h.chain.jobs[1..])
    ensures h.chain.jobs[0].CloseJob? ==> h.chain.jobs[1..] == []
    ensures CloseJob in h.chain.jobs[1..] ==> CloseJob in h.chain.jobs
    ensures forall i :: 0 <= i < |h.chain.jobs| - 1 && h.chain.jobs[1..][i].CloseJob? ==> i == |h.chain.jobs| - 2
  {
  }

  lemma StartKeepsHttp(h: HttpStream)
    requires HttpOk(h) && h.chain.jobs != [] && !h.chain.writing
    ensures HttpOk(Started(h))
  {
    hide LogOk, JobBytes, Finished;
    TakeJob(h);
    FinishedLog(h.life);
    FinishedFlags(h.life);
  }

  lemma SettleKeepsHttp(h: HttpStream, ok: bool)
    requires HttpOk(h) && h.chain.jobs != [] && h.chain.writing
    ensures HttpOk(Settled(h, ok))
  {
    hide HttpOk, Settled;
    if h.chain.jobs[0].WriteJob? {
      SettleWriteHttp(h, ok);
    } else {
      SettleCloseHttp(h, ok);
    }
  }

  lemma SettleWriteHttp(h: HttpStream, ok: bool)
    requires HttpOk(h) && h.chain.jobs != [] && h.chain.writing && h.chain.jobs[0].WriteJob?
    ensures HttpOk(Settled(h, ok))
  {
    hide LogOk, JobBytes, ResetLife;
    TakeJob(h);
    ResetLog(h.life, true);
    ResetFlags(h.life, true);
  }

  lemma SettleCloseHttp(h: HttpStream, ok: bool)
    requires HttpOk(h) && h.chain.jobs != [] && h.chain.writing && h.chain.jobs[0].CloseJob?
    ensures HttpOk(Settled(h, ok))
  {
    hide LogOk, JobBytes, Finished, ResetLife;
    TakeJob(h);
    FinishedLog(h.life);
    FinishedFlags(h.life);
    ResetLog(h.life, true);
    ResetFlags(h.life, true);
  }
}
