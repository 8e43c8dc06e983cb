/**
 * Exactly-once credit return at the agent, against any edge.
 *
 * The agent's session by itself: the reader may be handed any frames, beyond every window and for
 * streams of any kind or none, while feeders, teardown and writer interleave freely. Every REQ_BODY
 * byte it is handed takes one of six ways (queued, dropped by a feeder that leaves, late after the
 * feeder, over the window, for no stream, for a ws stream), and is owed or granted exactly once.
 * A head at or below the high-water mark ends the session in the code; here runs may go on after it.
 */
module RequestFlowBooks {
  import opened Limits
  import opened Sums
  import opened RequestFlow
  import opened Windows
  import opened RequestFlowSafety

  /** `heard` is every frame the reader has dispatched, in order. */
  datatype Ledger = Ledger(agent: Agent, heard: seq<Frame>)

  datatype Event = Hears(f: Frame, headOk: bool) | Moves(step: Step)

  /** The agent's own steps, no frame read. */
  predicate Own(step: Step) { OfFeeder(step) || (OfSession(step) && !step.DoDispatch?) }

  /** What the decoder lets through: a stream of its own and a chunk of at most MAX_BODY_CHUNK. */
  predicate Decodes(f: Frame) { f.id > 0 && FrameLen(f) <= MAX_BODY_CHUNK }

  /** The reader dispatches one frame at a time: credit it owes goes back before the next. */
  function Next(l: Ledger, e: Event): Ledger {
    match e
    case Hears(f, headOk) =>
      if Decodes(f) && l.agent.readerHand.None? then Ledger(Dispatch(l.agent, f, headOk), l.heard + [f]) else l
    case Moves(step) => if Own(step) then l.(agent := Do(State.State(Start.edge, l.agent, 0), step).agent) else l
  }

  function Played(events: seq<Event>): Ledger {
    if events == [] then Ledger(Start.agent, []) else Next(Played(events[..|events| - 1]), events[|events| - 1])
  }

  // ---------------------------------------------------------------- invariant

  /** What the agent owes and what it has granted, on the connection. */
  ghost function Accounted(a: Agent): int {
    Or0(a.readerHand) + SumOver(a.feeders, Owed) + a.connUngranted + GrantSum(a.ctrl, 0) + GrantSum(a.wire, 0)
  }

  ghost predicate FeederFits(h: Feeder) { FeederOk(h) && h.queued <= STREAM_WINDOW && Or0(h.hand) <= STREAM_WINDOW }

  ghost predicate AgentFits(a: Agent) {
    && a.connUngranted < CONN_WINDOW / 4
    && Or0(a.readerHand) <= MAX_BODY_CHUNK
    && (a.registered == {} && a.connUngranted > 0 ==> a.flushes > 0)
    && (forall id :: id in a.feeders ==> 0 < id <= a.maxSeen && FeederFits(a.feeders[id]))
  }

  ghost predicate BooksOk(a: Agent, total: int) { AgentFits(a) && Accounted(a) == total }

  // ---------------------------------------------------------------- the reader

  lemma HeadBooks(a: Agent, id: nat, http: bool, headOk: bool, total: int)
    requires BooksOk(a, total)
    ensures BooksOk(OnReqHead(a, id, http, headOk), total)
  {
    hide SumOver, GrantSum, FeederFits, Owed, NewFeeder;
    if id > a.maxSeen {
      NewFits();
      assert id !in a.feeders && id in a.registered + {id};
      SumUpdate(a.feeders, Owed, id, NewFeeder());
    }
  }

  lemma NewFits()
    ensures FeederFits(NewFeeder()) && Owed(NewFeeder()) == 0
  {
  }

  /** A feeder may change in any way that keeps what it owes. */
  lemma FeederBooks(a: Agent, id: nat, h: Feeder, total: int)
    requires BooksOk(a, total) && id in a.feeders && FeederFits(h)
    ensures BooksOk(WithFeeder(a, id, h), total + Owed(h) - Owed(a.feeders[id]))
  {
    hide SumOver, GrantSum, FeederFits;
    SumUpdate(a.feeders, Owed, id, h);
  }

  lemma CancelFits(h: Feeder)
    requires FeederFits(h)
    ensures FeederFits(h.(cancelled := true)) && FeederFits(h.(reqEnded := true))
  {
  }

  lemma QueueFits(a: Agent, id: nat, data: Bytes)
    requires Accepts(a, id) && FeederFits(a.feeders[id]) && a.feeders[id].queued + |data| <= STREAM_WINDOW
    ensures var h := a.feeders[id].(queue := a.feeders[id].queue + [data], queued := a.feeders[id].queued + |data|);
      FeederFits(h) && Owed(h) == Owed(a.feeders[id]) + |data|
  {
    EnqueuedFeeder(a, id, data);
  }

  /** Each of the six ways takes in exactly the frame's bytes. */
  lemma BodyBooks(a: Agent, id: nat, data: Bytes, total: int)
    requires BooksOk(a, total) && a.readerHand.None? && |data| <= MAX_BODY_CHUNK
    ensures BooksOk(OnReqBody(a, id, data), total + |data|)
  {
    hide SumOver, GrantSum, FeederFits, Owed;
    if Accepts(a, id) {
      var h := a.feeders[id];
      if h.queued + |data| > STREAM_WINDOW {
        CancelFits(h);
        FeederBooks(a, id, h.(cancelled := true), total);
        CancelOwes(h);
      } else {
        QueueFits(a, id, data);
        FeederBooks(a, id, h.(queue := h.queue + [data], queued := h.queued + |data|), total);
      }
    }
  }

  lemma CancelOwes(h: Feeder)
    ensures Owed(h.(cancelled := true)) == Owed(h) == Owed(h.(reqEnded := true))
  {
  }

  lemma HearBooks(a: Agent, f: Frame, headOk: bool, total: int)
    requires BooksOk(a, total) && a.readerHand.None? && Decodes(f)
    ensures BooksOk(Dispatch(a, f, headOk), total + FrameLen(f))
  {
    hide BooksOk, FeederFits, Owed, OnReqHead, OnReqBody;
    match f
    case ReqHead(id, http) => HeadBooks(a, id, http, headOk, total);
    case ReqBody(id, data) => BodyBooks(a, id, data, total);
    case ReqEnd(id) => TailBooks(a, id, total);
    case Reset(id) => TailBooks(a, id, total);
  }

  lemma TailBooks(a: Agent, id: nat, total: int)
    requires BooksOk(a, total)
    ensures BooksOk(OnReqEnd(a, id), total) && BooksOk(OnReset(a, id), total)
    ensures id in a.feeders ==> BooksOk(WithFeeder(a, id, a.feeders[id].(cancelled := true)), total)
  {
    hide Accounted, FeederFits, Owed;
    if id in a.feeders {
      CancelFits(a.feeders[id]);
      CancelOwes(a.feeders[id]);
      FeederBooks(a, id, a.feeders[id].(reqEnded := true), total);
      FeederBooks(a, id, a.feeders[id].(cancelled := true), total);
    }
  }

  // ---------------------------------------------------------------- the feeder

  lemma PopBooks(a: Agent, id: nat, total: int)
    requires BooksOk(a, total) && CanPop(a, id)
    ensures BooksOk(Pop(a, id), total)
  {
    hide Accounted, Flat;
    PopContent(a.feeders[id], Pop(a, id).feeders[id]);
    FeederBooks(a, id, Pop(a, id).feeders[id], total);
  }

  lemma WriteBooks(a: Agent, id: nat, k: nat, total: int)
    requires BooksOk(a, total) && CanWrite(a, id)
    ensures BooksOk(Write(a, id, k), total)
  {
    hide Accounted, BytesKept;
    WrittenContent(a.feeders[id], k);
    FeederBooks(a, id, Written(a.feeders[id], k), total);
  }

  lemma LeaveBooks(a: Agent, id: nat, clean: bool, total: int)
    requires BooksOk(a, total) && CanLeave(a, id, clean)
    ensures BooksOk(Leave(a, id, clean), total)
  {
    hide Accounted, Content;
    LeaveContent(a.feeders[id], Leave(a, id, clean).feeders[id]);
    FeederBooks(a, id, Leave(a, id, clean).feeders[id], total);
  }

  lemma LockBooks(a: Agent, id: nat, total: int)
    requires BooksOk(a, total) && CanLock(a, id) && a.feeders[id].queued >= 0
    ensures BooksOk(Lock(a, id), total)
  {
    hide Accounted, Content;
    LockContent(a.feeders[id], Lock(a, id).feeders[id]);
    FeederBooks(a, id, Lock(a, id).feeders[id], total);
  }

  /** The connection settles `n` more bytes without touching any feeder. */
  lemma ConnBooks(a: Agent, n: nat, total: int)
    requires BooksOk(a, total) && n <= STREAM_WINDOW
    ensures BooksOk(GrantConn(a, n), total + n)
  {
    hide SumOver, GrantSum, FeederFits, GrantConn;
    GrantConnLaw(a, n, 0);
  }

  lemma FlushBooks(a: Agent, total: int)
    requires BooksOk(a, total)
    ensures BooksOk(FlushConn(a), total) && FlushConn(a).connUngranted == 0 && FlushConn(a).flushes == a.flushes
  {
    hide SumOver, GrantSum, FeederFits;
    SendConnLaw(a, a.connUngranted, 0);
  }

  lemma GrantBooks(a: Agent, id: nat, total: int)
    requires BooksOk(a, total) && CanGrant(a, id)
    ensures BooksOk(GrantChunk(a, id), total)
  {
    hide SumOver, GrantSum, GrantChunk, Flat;
    GrantChunkLaw(a, id, 0);
    SumUpdate(a.feeders, Owed, id, GrantChunk(a, id).feeders[id]);
  }

  lemma LastGrantBooks(a: Agent, id: nat, total: int)
    requires BooksOk(a, total) && CanLastGrant(a, id)
    ensures BooksOk(GrantLeft(a, id), total)
  {
    hide Accounted, GrantConn, Flat;
    var h := a.feeders[id];
    ConnBooks(a, h.hand.value, total);
    LastGrantFeeder(h, h.(hand := None, phase := LastFlush));
    var b := if h.hand.value > 0 then GrantConn(a, h.hand.value) else a;
    ConnFeeders(a, h.hand.value);
    FeederBooks(b, id, h.(hand := None, phase := LastFlush), total + h.hand.value);
  }

  lemma ConnFeeders(a: Agent, n: nat)
    ensures GrantConn(a, n).feeders == a.feeders
  {
  }

  lemma LastFlushBooks(a: Agent, id: nat, total: int)
    requires BooksOk(a, total) && CanLastFlush(a, id)
    ensures BooksOk(FlushLeft(a, id), total)
  {
    hide Accounted, Flat;
    FlushBooks(a, total);
    GoneFeeder(a.feeders[id]);
    FeederBooks(FlushConn(a), id, a.feeders[id].(phase := Gone), total);
  }

  // ---------------------------------------------------------------- the session

  lemma ReaderBooks(a: Agent, total: int)
    requires BooksOk(a, total) && a.readerHand.Some?
    ensures BooksOk(GrantConn(a, a.readerHand.value).(readerHand := None), total)
  {
    hide SumOver, GrantSum, FeederFits, GrantConn;
    GrantConnLaw(a, a.readerHand.value, 0);
  }

  lemma RemoveBooks(a: Agent, id: nat, total: int)
    requires BooksOk(a, total)
    ensures BooksOk(Remove(a, id), total)
  {
    hide SumOver, GrantSum, FeederFits;
  }

  lemma RemoveFlushBooks(a: Agent, total: int)
    requires BooksOk(a, total) && a.flushes > 0
    ensures BooksOk(FlushConn(a).(flushes := a.flushes - 1), total)
  {
    hide SumOver, GrantSum, FeederFits;
    FlushBooks(a, total);
  }

  lemma WriteCtrlBooks(a: Agent, i: nat, total: int)
    requires BooksOk(a, total) && i < |a.ctrl|
    ensures BooksOk(a.(ctrl := a.ctrl[..i] + a.ctrl[i + 1..], wire := a.wire + [a.ctrl[i]]), total)
  {
    hide SumOver, GrantSum, FeederFits;
    MoveGrant(a.ctrl, a.wire, i, 0);
  }

  // ---------------------------------------------------------------- every run

  lemma FeederStepBooks(s: State, step: Step, total: int)
    requires BooksOk(s.agent, total) && OfFeeder(step)
    ensures BooksOk(Do(s, step).agent, total)
  {
    hide BooksOk, Pop, Write, GrantChunk, Leave, Lock, GrantLeft, FlushLeft;
    match step
    case DoPop(id) => if CanPop(s.agent, id) { PopBooks(s.agent, id, total); }
    case DoWrite(id, k) => if CanWrite(s.agent, id) { WriteBooks(s.agent, id, k, total); }
    case DoGrant(id) => if CanGrant(s.agent, id) { GrantBooks(s.agent, id, total); }
    case DoLeave(id, clean) => if CanLeave(s.agent, id, clean) { LeaveBooks(s.agent, id, clean, total); }
    case DoLock(id) => if CanLock(s.agent, id) && s.agent.feeders[id].queued >= 0 { LockBooks(s.agent, id, total); }
    case DoLastGrant(id) => if CanLastGrant(s.agent, id) { LastGrantBooks(s.agent, id, total); }
    case DoLastFlush(id) => if CanLastFlush(s.agent, id) { LastFlushBooks(s.agent, id, total); }
  }

  lemma SessionStepBooks(s: State, step: Step, total: int)
    requires BooksOk(s.agent, total) && OfSession(step) && !step.DoDispatch?
    ensures BooksOk(Do(s, step).agent, total)
  {
    hide BooksOk, GrantConn, FlushConn, Remove;
    match step
    case DoReaderGrant => if s.agent.readerHand.Some? { ReaderBooks(s.agent, total); }
    case DoCancel(id) => TailBooks(s.agent, id, total);
    case DoRemove(id) => RemoveBooks(s.agent, id, total);
    case DoRemoveFlush => if s.agent.flushes > 0 { RemoveFlushBooks(s.agent, total); }
    case DoWriteCtrl(i) => if i < |s.agent.ctrl| { WriteCtrlBooks(s.agent, i, total); }
  }

  lemma NextBooks(l: Ledger, e: Event)
    requires BooksOk(l.agent, BodySum(l.heard))
    ensures BooksOk(Next(l, e).agent, BodySum(Next(l, e).heard))
  {
    hide BooksOk, Do, Dispatch, BodySum;
    match e
    case Hears(f, headOk) =>
      if Decodes(f) && l.agent.readerHand.None? {
        HearBooks(l.agent, f, headOk, BodySum(l.heard));
        AppendSum(l.heard, f);
      }
    case Moves(step) =>
      var s := State.State(Start.edge, l.agent, 0);
      if OfFeeder(step) {
        FeederStepBooks(s, step, BodySum(l.heard));
      } else if Own(step) {
        SessionStepBooks(s, step, BodySum(l.heard));
      }
  }

  lemma {:induction false} PlayedBooks(events: seq<Event>)
    ensures BooksOk(Played(events).agent, BodySum(Played(events).heard))
  {
    hide Next;
    if events == [] {
    } else {
      PlayedBooks(events[..|events| - 1]);
      NextBooks(Played(events[..|events| - 1]), events[|events| - 1]);
    }
  }

  /**
   * Exactly once, whatever arrives and however reader, feeders and teardown interleave: the credit
   * owed by the reader, queued or held by feeders, coalesced, and ever granted on the connection adds
   * up to the body bytes dispatched.
   */
  lemma EveryByteIsOwedOnce(events: seq<Event>)
    ensures Accounted(Played(events).agent) == BodySum(Played(events).heard)
  {
    hide Played, Accounted;
    PlayedBooks(events);
  }

  /** Nothing registered, no feeder left, the reader done and every flush done. */
  ghost predicate Quiet(a: Agent) {
    a.registered == {} && a.flushes == 0 && a.readerHand.None? && forall id :: id in a.feeders ==> a.feeders[id].phase.Gone?
  }

  /** At rest all of it has been granted. */
  lemma EveryByteIsGranted(events: seq<Event>)
    requires Quiet(Played(events).agent)
    ensures GrantSum(Played(events).agent.ctrl, 0) + GrantSum(Played(events).agent.wire, 0) == BodySum(Played(events).heard)
  {
    hide Played;
    PlayedBooks(events);
    QuietOwesNothing(Played(events).agent);
  }

  lemma QuietOwesNothing(a: Agent)
    requires AgentFits(a) && Quiet(a)
    ensures Accounted(a) == GrantSum(a.ctrl, 0) + GrantSum(a.wire, 0)
  {
    hide SumOver, GrantSum;
    forall id | id in a.feeders
      ensures Owed(a.feeders[id]) == 0
    {
      GoneOwes(a.feeders[id]);
    }
    SumZero(a.feeders, Owed);
  }

  lemma GoneOwes(h: Feeder)
    requires FeederOk(h) && h.phase.Gone?
    ensures Owed(h) == 0
  {
    assert |Flat([])| == 0;
  }

  // ---------------------------------------------------------------- the rarer ways

  lemma PlayedSnoc(events: seq<Event>, e: Event)
    ensures Played(events + [e]) == Next(Played(events), e)
  {
    assert (events + [e])[..|events|] == events;
  }

  /** A body for a ws stream, which has no feeder, is owed by the reader. */
  lemma WsBodyIsOwed()
    ensures exists events :: var a := Played(events).agent;
      1 in a.registered && 1 !in a.feeders && a.readerHand == Some(1) && Played(events).heard == [ReqHead(1, false), ReqBody(1, [0])]
  {
    hide Played;
    var events := [] + [Hears(ReqHead(1, false), true)];
    NothingPlayed();
    PlayedSnoc([], Hears(ReqHead(1, false), true));
    PlayedSnoc(events, Hears(ReqBody(1, [0]), true));
    assert Played(events + [Hears(ReqBody(1, [0]), true)]).heard == [ReqHead(1, false), ReqBody(1, [0])];
  }

  lemma NothingPlayed()
    ensures Played([]) == Ledger(Start.agent, [])
  {
  }

  function Chunk(): (c: Bytes)
    ensures |c| == MAX_BODY_CHUNK
  {
    seq(MAX_BODY_CHUNK, _ => 0)
  }

  function Filling(n: nat): seq<Event> {
    if n == 0 then [Hears(ReqHead(1, true), true)] else Filling(n - 1) + [Hears(ReqBody(1, Chunk()), true)]
  }

  lemma {:induction false} Filled(n: nat)
    requires n * MAX_BODY_CHUNK <= STREAM_WINDOW
    ensures var a := Played(Filling(n)).agent;
      Accepts(a, 1) && a.feeders[1].queued == n * MAX_BODY_CHUNK && a.readerHand.None? && a.resets == []
  {
    hide Played, Chunk;
    if n == 0 {
      NothingPlayed();
      PlayedSnoc([], Hears(ReqHead(1, true), true));
      assert [] + [Hears(ReqHead(1, true), true)] == Filling(0);
    } else {
      Filled(n - 1);
      PlayedSnoc(Filling(n - 1), Hears(ReqBody(1, Chunk()), true));
    }
  }

  /** One chunk more than the window: the stream is reset and cancelled, and the chunk owed by the reader. */
  lemma OverWindowBodyIsOwed()
    ensures exists events :: var a := Played(events).agent;
      Accepts(a, 1) && a.feeders[1].queued == STREAM_WINDOW && a.feeders[1].cancelled && a.resets == [1]
      && a.readerHand == Some(MAX_BODY_CHUNK)
  {
    hide Played, Chunk, Filling;
    Filled(16);
    PlayedSnoc(Filling(16), Hears(ReqBody(1, Chunk()), true));
    var a := Played(Filling(16) + [Hears(ReqBody(1, Chunk()), true)]).agent;
    assert a.readerHand == Some(MAX_BODY_CHUNK) && a.resets == [1];
  }
}
