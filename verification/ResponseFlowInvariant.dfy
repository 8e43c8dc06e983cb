/** The invariant of ResponseFlow, kept by every step of every run. */
module ResponseFlowInvariant {
  import opened Limits
  import opened Sums
  import opened Windows
  import opened ResponseFlow
  import opened ResponseFlowSafety

  // ---------------------------------------------------------------- invariant

  ghost predicate SenderOk(p: Sender) {
    && p.taken <= |p.body|
    && (p.stopped ==> p.hand == [])
    && (p.endSent ==> p.stopped && p.taken == |p.body|)
    && (!p.registered ==> p.stopped)
  }

  ghost predicate ShapeOk(s: State) {
    && (forall id :: id in s.agent.senders ==> SenderOk(s.agent.senders[id]))
    && (forall id :: id in s.edge.streams ==> HttpOk(s.edge.streams[id]))
    && Booked(s.edge, 0) && Coalesced(s.edge)
    && s.agent.lost >= 0
    && !s.agent.fault && !s.edge.fault
  }

  ghost predicate IdsOk(s: State) {
    && 0 !in s.edge.streams
    && (forall id :: id in s.agent.senders ==> id in s.edge.streams)
    && (forall f :: f in Channel(s.agent) ==> f.id in s.agent.senders)
    && (forall g :: g in s.edge.wire ==> g.id == 0 || g.id in s.edge.streams)
  }

  ghost predicate ConnOk(s: State) { ConnTotal(s) + s.agent.lost == CONN_WINDOW }

  ghost predicate Global(s: State) { ShapeOk(s) && IdsOk(s) && ConnOk(s) }

  /** Both ends still work on the stream. */
  ghost predicate Open(s: State, id: nat) {
    && id in s.agent.senders && s.agent.senders[id].registered && !s.agent.senders[id].stopped
    && id in s.edge.streams && !s.edge.streams[id].life.done && !s.edge.streams[id].life.resEnded
  }

  ghost predicate CreditOk(s: State, id: nat) {
    id > 0 ==>
    && StreamTotal(s, id) <= STREAM_WINDOW
    && (id !in s.agent.senders ==> StreamTotal(s, id) == 0)
    && (Open(s, id) ==> StreamTotal(s, id) == STREAM_WINDOW)
  }

  /** Nothing was dropped on the agent's side of the body. */
  predicate Intact(p: Sender) { !p.stopped || p.endSent }

  /** What the visitor has, or may still get from a write already under way. */
  function Reaching(c: Chain): Bytes {
    c.got + (if c.writing && c.jobs != [] then JobData(c.jobs[0]) else [])
  }

  /** `flight` is what is in the channel: the body arrives in order, and a clean end means all of it. */
  ghost predicate Carried(p: Sender, h: HttpStream, flight: Bytes)
    requires p.taken <= |p.body|
  {
    var c, l := h.chain, h.life;
    && (!l.done && !l.resEnded && (c.hasWriter || !l.headDone) ==>
          c.got + JobBytes(c.jobs) + (flight + p.hand) <= p.body[..p.taken]
          && (Intact(p) ==> c.got + JobBytes(c.jobs) + (flight + p.hand) == p.body[..p.taken]))
    && Reaching(c) <= p.body
    && (l.resEnded && !l.done && c.hasWriter ==> c.got + JobBytes(c.jobs) == p.body)
    && (c.writing && c.jobs != [] && c.jobs[0].CloseJob? ==> c.got == p.body)
    && (c.closed ==> c.got == p.body)
  }

  /** No response was ever begun for the stream. */
  ghost predicate Untouched(h: HttpStream) {
    && h.chain.jobs == [] && h.chain.got == [] && !h.chain.writing && !h.chain.closed && !h.chain.hasWriter
    && !h.life.resEnded && (h.life.headDone ==> h.life.done)
  }

  ghost predicate EndOk(a: Agent, id: nat)
    requires id in a.senders
  {
    EndLast(Channel(a), id) && (ResEnd(id) in Channel(a) ==> a.senders[id].endSent)
  }

  ghost predicate BytesOk(s: State, id: nat) {
    && (id in s.agent.senders ==>
          && id in s.edge.streams
          && s.agent.senders[id].taken <= |s.agent.senders[id].body|
          && EndOk(s.agent, id)
          && Carried(s.agent.senders[id], s.edge.streams[id], BytesOf(Channel(s.agent), id)))
    && (id in s.edge.streams && id !in s.agent.senders ==> Untouched(s.edge.streams[id]))
  }

  ghost predicate StreamOk(s: State, id: nat) { CreditOk(s, id) && BytesOk(s, id) }

  ghost predicate Inv(s: State) { Global(s) && forall id: nat :: StreamOk(s, id) }

  /** Nothing is ever negative, so no single place holds more than a window. */
  lemma Bounds(s: State)
    requires Global(s)
    ensures SumOver(s.agent.senders, HandLen) >= 0
    ensures s.edge.held >= 0
    ensures s.agent.conn + BodySum(Channel(s.agent)) + s.edge.held + GrantSum(s.edge.wire, 0) <= CONN_WINDOW
  {
    SumNonNegative(s.agent.senders, HandLen);
    SumNonNegative(s.edge.streams, HeldOf);
  }

  lemma PartsNonNegative(s: State, id: nat)
    requires Global(s)
    ensures SenderPart(s.agent, id) >= 0 && StreamPart(s.edge, id) >= 0
    ensures id in s.edge.streams ==> EdgeOk(s.edge, id)
  {
    hide SumOver, BodySum, BytesOf, GrantSum, JobBytes;
  }

  // ---------------------------------------------------------------- edge operations

  /** An edge operation that took nothing off the socket. */
  lemma EdgeGlobal(s: State, f: Edge, id: nat, g: HttpStream)
    requires Global(s) && id in s.edge.streams && Effect(s.edge, f, id, g, 0) && HttpOk(g)
    ensures Global(s.(edge := f))
  {
    hide SumOver, BodySum, BytesOf, GrantSum, JobBytes, HttpOk, Booked, Coalesced;
  }

  /** A stream's end is never taken back. */
  ghost predicate Onward(h: HttpStream, g: HttpStream) {
    (h.life.done ==> g.life.done) && (h.life.resEnded ==> g.life.resEnded)
  }

  lemma EdgeCredit(s: State, f: Edge, id: nat, g: HttpStream, k: nat)
    requires Global(s) && CreditOk(s, k) && id in s.edge.streams && Effect(s.edge, f, id, g, 0)
    requires HttpOk(g) && Onward(s.edge.streams[id], g)
    ensures CreditOk(s.(edge := f), k)
  {
    hide SumOver, BodySum, BytesOf, GrantSum, JobBytes, LogOk, Booked, Coalesced;
    PartsNonNegative(s, k);
  }

  lemma EdgeBytes(s: State, f: Edge, id: nat, g: HttpStream, k: nat)
    requires Global(s) && BytesOk(s, k) && id in s.edge.streams && Effect(s.edge, f, id, g, 0)
    requires k == id && id in s.agent.senders ==> Carried(s.agent.senders[id], g, BytesOf(Channel(s.agent), id))
    requires k == id && id !in s.agent.senders ==> Untouched(g)
    ensures BytesOk(s.(edge := f), k)
  {
    hide SumOver, BodySum, BytesOf, GrantSum, JobBytes, LogOk, Booked, Coalesced, EndLast, Carried;
  }

  // ---------------------------------------------------------------- reset, pump end, write chain

  lemma ResetKeepsBytes(p: Sender, h: HttpStream, notify: bool, flight: Bytes)
    requires SenderOk(p)
    ensures Carried(p, h, flight) ==> Carried(p, h.(life := ResetLife(h.life, notify)), flight)
    ensures Untouched(h) ==> Untouched(h.(life := ResetLife(h.life, notify)))
  {
    hide JobBytes, ResetLife;
    ResetFlags(h.life, notify);
    assert h.life.done ==> ResetLife(h.life, notify) == h.life by { ResetTwice(h.life, notify); }
  }

  lemma ResetTwice(l: Life, notify: bool)
    ensures l.done ==> ResetLife(l, notify) == l
  {
  }

  lemma ResetGlobal(s: State, id: nat, notify: bool)
    requires Global(s)
    ensures Global(StepReset(s, id, notify))
  {
    hide SumOver, BodySum, BytesOf, GrantSum, JobBytes, Reset, ResetLife, LogOk, Booked, Coalesced, Effect;
    if id in s.edge.streams {
      var h := s.edge.streams[id];
      PartsNonNegative(s, id);
      ResetEffect(s.edge, id, notify);
      ResetLog(h.life, notify);
      ResetFlags(h.life, notify);
      EdgeGlobal(s, Reset(s.edge, id, notify), id, h.(life := ResetLife(h.life, notify)));
    }
  }

  lemma ResetStream(s: State, id: nat, notify: bool, k: nat)
    requires Global(s) && StreamOk(s, k)
    ensures StreamOk(StepReset(s, id, notify), k)
  {
    hide SumOver, BodySum, BytesOf, GrantSum, JobBytes, Reset, ResetLife, LogOk, Booked, Coalesced, Effect, Carried, EndLast;
    if id in s.edge.streams {
      var h := s.edge.streams[id];
      var g := h.(life := ResetLife(h.life, notify));
      PartsNonNegative(s, id);
      ResetEffect(s.edge, id, notify);
      ResetLog(h.life, notify);
      ResetFlags(h.life, notify);
      EdgeCredit(s, Reset(s.edge, id, notify), id, g, k);
      if id in s.agent.senders {
        ResetKeepsBytes(s.agent.senders[id], h, notify, BytesOf(Channel(s.agent), id));
      } else {
        ResetKeepsBytes(Sender([], 0, [], 0, false, false, false, true), h, notify, []);
      }
      EdgeBytes(s, Reset(s.edge, id, notify), id, g, k);
    }
  }

  lemma PumpEndKeeps(s: State, id: nat)
    requires Global(s) && id in s.edge.streams
    ensures var h, g := s.edge.streams[id], s.edge.streams[id].(life := SendReqEnd(s.edge.streams[id].life));
      Effect(s.edge, With(s.edge, id, g), id, g, 0) && HttpOk(g) && Onward(h, g)
      && g.life.done == h.life.done && g.life.resEnded == h.life.resEnded && g.life.headDone == h.life.headDone
  {
    hide SumOver, BodySum, BytesOf, GrantSum, JobBytes, LogOk, Booked, Coalesced, Effect;
    var h := s.edge.streams[id];
    PartsNonNegative(s, id);
    ReqEndLog(h.life);
    QuietEffect(s.edge, id, h.(life := SendReqEnd(h.life)));
  }

  lemma PumpEndStep(s: State, id: nat, k: nat)
    requires Global(s) && StreamOk(s, k)
    ensures Global(StepPumpEnd(s, id)) && StreamOk(StepPumpEnd(s, id), k)
  {
    hide SumOver, BodySum, BytesOf, GrantSum, JobBytes, SendReqEnd, LogOk, Booked, Coalesced, Effect, EndLast;
    if id in s.edge.streams {
      var h := s.edge.streams[id];
      var g := h.(life := SendReqEnd(h.life));
      PumpEndKeeps(s, id);
      EdgeGlobal(s, With(s.edge, id, g), id, g);
      EdgeCredit(s, With(s.edge, id, g), id, g, k);
      EdgeBytes(s, With(s.edge, id, g), id, g, k);
    }
  }

  lemma StartFlags(h: HttpStream)
    requires h.chain.jobs != []
    ensures Onward(h, Started(h))
    ensures HttpOk(h) ==> h.held >= |JobData(h.chain.jobs[0])|
  {
    FinishedFlags(h.life);
    if HttpOk(h) {
      TakeJob(h);
    }
  }

  lemma StartKeepsBytes(p: Sender, h: HttpStream, flight: Bytes)
    requires SenderOk(p) && HttpOk(h) && Carried(p, h, flight) && h.chain.jobs != [] && !h.chain.writing
    ensures Carried(p, Started(h), flight)
  {
    hide LogOk, Carried, Started, ChainOk;
    if h.chain.jobs[0].WriteJob? {
      StartWriteBytes(p, h, flight);
    } else {
      StartCloseBytes(p, h, flight);
    }
  }

  lemma StartWriteBytes(p: Sender, h: HttpStream, flight: Bytes)
    requires SenderOk(p) && ChainOk(h) && Carried(p, h, flight) && h.chain.jobs != [] && !h.chain.writing
    requires h.chain.jobs[0].WriteJob?
    ensures Carried(p, Started(h), flight)
  {
    hide JobBytes, Finished, Fits;
    TakeJob(h);
    var c := h.chain;
    var d, rest := JobData(c.jobs[0]), JobBytes(c.jobs[1..]);
    assert c.got + (d + rest) == (c.got + d) + rest;
    assert Reaching(c) == c.got + [] == c.got;
    if !h.life.done {
      assert d == [] || c.hasWriter;
      assert c.got + d <= p.body;
    }
  }

  lemma StartCloseBytes(p: Sender, h: HttpStream, flight: Bytes)
    requires SenderOk(p) && ChainOk(h) && Carried(p, h, flight) && h.chain.jobs != [] && !h.chain.writing
    requires h.chain.jobs[0].CloseJob?
    ensures Carried(p, Started(h), flight)
  {
    hide JobBytes, Finished, Fits;
    TakeJob(h);
    FinishedFlags(h.life);
    NoJobs();
    var c := h.chain;
    assert CloseJob in c.jobs;
    assert c.got + ([] + []) == c.got && Reaching(c) == c.got + [] == c.got;
  }

  lemma StartStep(s: State, id: nat, k: nat)
    requires Global(s) && StreamOk(s, k)
    ensures Global(StepStartJob(s, id)) && StreamOk(StepStartJob(s, id), k)
  {
    hide SumOver, BodySum, BytesOf, GrantSum, JobBytes, StartJob, Started, LogOk, Booked, Coalesced, Effect, EndLast, Carried;
    if CanStartJob(s.edge, id) {
      var h := s.edge.streams[id];
      PartsNonNegative(s, id);
      StartFlags(h);
      StartEffect(s.edge, id);
      StartKeepsHttp(h);
      var f := StartJob(s.edge, id);
      EdgeGlobal(s, f, id, Started(h));
      EdgeCredit(s, f, id, Started(h), k);
      if k == id && id in s.agent.senders {
        StartKeepsBytes(s.agent.senders[id], h, BytesOf(Channel(s.agent), id));
      }
      EdgeBytes(s, f, id, Started(h), k);
    }
  }

  lemma SettleFlags(h: HttpStream, ok: bool)
    requires h.chain.jobs != []
    ensures Onward(h, Settled(h, ok))
  {
    FinishedFlags(h.life);
    ResetFlags(h.life, true);
  }

  lemma SettleKeepsBytes(p: Sender, h: HttpStream, ok: bool, flight: Bytes)
    requires SenderOk(p) && HttpOk(h) && Carried(p, h, flight) && h.chain.jobs != [] && h.chain.writing
    ensures Carried(p, Settled(h, ok), flight)
  {
    hide JobBytes, Finished, ResetLife, LogOk, Fits;
    TakeJob(h);
    FinishedFlags(h.life);
    ResetFlags(h.life, true);
    var c := h.chain;
    var d, rest := JobData(c.jobs[0]), JobBytes(c.jobs[1..]);
    assert c.got + (d + rest) == (c.got + d) + rest;
    assert c.got <= Reaching(c);
    assert c.got + [] == c.got && (c.got + d) + [] == c.got + d;
  }

  lemma EndJobStep(s: State, id: nat, ok: bool, k: nat)
    requires Global(s) && StreamOk(s, k)
    ensures Global(StepEndJob(s, id, ok)) && StreamOk(StepEndJob(s, id, ok), k)
  {
    hide SumOver, BodySum, BytesOf, GrantSum, JobBytes, EndJob, Settled, LogOk, Booked, Coalesced, Effect, EndLast, Carried;
    if CanEndJob(s.edge, id) {
      var h := s.edge.streams[id];
      PartsNonNegative(s, id);
      StartFlags(h);
      SettleFlags(h, ok);
      if h.chain.jobs[0].WriteJob? {
        SettleWriteEffect(s.edge, id, ok);
      } else {
        SettleCloseEffect(s.edge, id, ok);
      }
      SettleKeepsHttp(h, ok);
      var f := EndJob(s.edge, id, ok);
      EdgeGlobal(s, f, id, Settled(h, ok));
      EdgeCredit(s, f, id, Settled(h, ok), k);
      if k == id && id in s.agent.senders {
        SettleKeepsBytes(s.agent.senders[id], h, ok, BytesOf(Channel(s.agent), id));
      }
      EdgeBytes(s, f, id, Settled(h, ok), k);
    }
  }

  // ---------------------------------------------------------------- a frame reaches the edge

  function Taken(h: HttpStream, f: Frame): HttpStream {
    if h.life.done then h
    else match f
      case ResHead(_, head) => HeadTaken(h, head)
      case ResBody(_, data) => BodyTaken(h, data)
      case ResEnd(_) => EndTaken(h)
  }

  lemma FrameEffect(e: Edge, f: Frame)
    requires EdgeOk(e, f.id) && e.held + FrameLen(f) <= CONN_WINDOW
    requires !e.streams[f.id].life.done ==> e.streams[f.id].held + FrameLen(f) + e.streams[f.id].ungranted <= STREAM_WINDOW
    ensures Effect(e, OnFrame(e, f), f.id, Taken(e.streams[f.id], f), FrameLen(f))
  {
    hide GrantSum, SumOver, GrantConn, OnResHead, OnResBody, OnResEnd, HeadTaken, BodyTaken, EndTaken;
    var h := e.streams[f.id];
    assert e.streams[f.id := h] == e.streams;
    match f
    case ResHead(id, head) =>
      if !h.life.done {
        HeadEffect(e, id, head);
      }
    case ResBody(id, data) =>
      if h.life.done {
        GrantLaw(Received(e, |data|), |data|, 0);
      } else {
        BodyEffect(e, id, data);
      }
    case ResEnd(id) =>
      if !h.life.done {
        EndEffect(e, id);
      }
  }

  lemma FrameKeepsHttp(h: HttpStream, f: Frame)
    requires HttpOk(h)
    ensures HttpOk(Taken(h, f)) && Onward(h, Taken(h, f))
  {
    hide LogOk, ChainOk, AcceptableHead, NullBody, TooLong, BodyCount, SendReqEnd;
    ResetFlags(h.life, true);
    FinishedFlags(Note(h.life, HeadGiven).(headDone := true, resEnded := true));
    ReqEndFlags(h.life.(resEnded := true));
    if !h.life.done {
      match f
      case ResHead(_, head) => HeadKeepsHttp(h, head);
      case ResBody(_, data) => BodyKeepsHttp(h, data);
      case ResEnd(_) => EndKeepsHttp(h);
    }
  }

  lemma ReqEndFlags(l: Life)
    ensures var g := SendReqEnd(l); g.done == l.done && g.resEnded == l.resEnded && g.headDone == l.headDone
  {
  }

  lemma FrameKeepsBytes(p: Sender, h: HttpStream, f: Frame, flight: Bytes)
    requires SenderOk(p) && HttpOk(h) && Carried(p, h, FrameBytes(f, f.id) + flight)
    requires f.ResEnd? ==> p.endSent && flight == []
    ensures Carried(p, Taken(h, f), flight)
  {
    hide LogOk, JobBytes, Fits;
    if !h.life.done {
      match f
      case ResHead(_, head) => HeadKeepsBytes(p, h, head, flight);
      case ResBody(_, data) => BodyKeepsBytes(p, h, data, flight);
      case ResEnd(_) => EndKeepsBytes(p, h);
    }
  }

  lemma HeadKeepsBytes(p: Sender, h: HttpStream, head: Head, flight: Bytes)
    requires SenderOk(p) && HttpOk(h) && Carried(p, h, [] + flight) && !h.life.done
    ensures Carried(p, HeadTaken(h, head), flight)
  {
    hide LogOk, JobBytes, Fits, Finished, ResetLife, AcceptableHead, NullBody;
    assert [] + flight == flight;
    ResetFlags(h.life, true);
    FinishedFlags(Note(h.life, HeadGiven).(headDone := true, resEnded := true));
  }

  lemma BodyKeepsBytes(p: Sender, h: HttpStream, data: Bytes, flight: Bytes)
    requires SenderOk(p) && HttpOk(h) && Carried(p, h, data + flight) && !h.life.done
    ensures Carried(p, BodyTaken(h, data), flight)
  {
    hide LogOk, JobBytes, Fits, ResetLife, TooLong, BodyCount;
    ResetFlags(h.life, true);
    if h.life.headDone && !h.life.resEnded && h.chain.hasWriter && !TooLong(h, data) {
      QueueKeepsBytes(p, h, data, flight);
    }
  }

  lemma QueueKeepsBytes(p: Sender, h: HttpStream, data: Bytes, flight: Bytes)
    requires SenderOk(p) && ChainOk(h) && Carried(p, h, data + flight)
    requires !h.life.done && !h.life.resEnded && h.chain.hasWriter
    ensures Carried(p, h.(held := h.held + |data|,
      chain := h.chain.(jobs := h.chain.jobs + [WriteJob(data)], bodyBytes := BodyCount(h, data))), flight)
  {
    hide LogOk, JobBytes, Fits, BodyCount;
    var c := h.chain;
    var jobs := c.jobs + [WriteJob(data)];
    AppendJob(c.jobs, WriteJob(data));
    assert c.got + JobBytes(c.jobs) + ((data + flight) + p.hand) == c.got + JobBytes(jobs) + (flight + p.hand);
    assert c.jobs != [] ==> jobs[0] == c.jobs[0];
  }

  lemma EndKeepsBytes(p: Sender, h: HttpStream)
    requires SenderOk(p) && p.endSent && HttpOk(h) && Carried(p, h, [] + []) && !h.life.done
    ensures Carried(p, EndTaken(h), [])
  {
    hide LogOk, JobBytes, Fits, ResetLife, SendReqEnd;
    ResetFlags(h.life, true);
    ReqEndFlags(h.life.(resEnded := true));
    var c := h.chain;
    AppendJob(c.jobs, CloseJob);
    assert JobBytes(c.jobs) + [] == JobBytes(c.jobs);
    assert c.got + JobBytes(c.jobs) + ([] + [] + p.hand) == c.got + JobBytes(c.jobs);
    assert p.body[..p.taken] == p.body;
  }

  lemma ChannelPop(a: Agent)
    requires a.wire != []
    ensures Channel(a) == [a.wire[0]] + Channel(a.(wire := a.wire[1..])) && a.wire[0] in Channel(a)
    ensures BodySum(Channel(a)) == FrameLen(a.wire[0]) + BodySum(Channel(a.(wire := a.wire[1..])))
    ensures forall id :: BytesOf(Channel(a), id) == FrameBytes(a.wire[0], id) + BytesOf(Channel(a.(wire := a.wire[1..])), id)
    ensures BodySum(Channel(a.(wire := a.wire[1..]))) >= 0
  {
    assert a.wire + a.data == [a.wire[0]] + (a.wire[1..] + a.data);
    assert Channel(a)[1..] == Channel(a.(wire := a.wire[1..]));
  }

  /** A frame about to be read fits both windows. */
  lemma FrameFits(s: State)
    requires Inv(s) && s.agent.wire != []
    ensures var f := s.agent.wire[0];
      f.id in s.agent.senders && EdgeOk(s.edge, f.id) && s.edge.held + FrameLen(f) <= CONN_WINDOW
      && s.edge.streams[f.id].held + FrameLen(f) + s.edge.streams[f.id].ungranted <= STREAM_WINDOW
  {
    hide SumOver, BodySum, BytesOf, GrantSum, JobBytes, LogOk;
    var f := s.agent.wire[0];
    ChannelPop(s.agent);
    Bounds(s);
    PartsNonNegative(s, f.id);
    assert StreamOk(s, f.id);
  }

  lemma ReceiveGlobal(s: State)
    requires Inv(s)
    ensures Global(StepEdgeReceive(s))
  {
    hide SumOver, BodySum, BytesOf, GrantSum, JobBytes, HttpOk, Booked, Coalesced, OnFrame, Taken, StreamOk, EdgeOk;
    if s.agent.wire != [] {
      var f := s.agent.wire[0];
      FrameFits(s);
      FrameEffect(s.edge, f);
      FrameKeepsHttp(s.edge.streams[f.id], f);
      ChannelPop(s.agent);
    }
  }

  lemma ReceiveCredit(s: State, k: nat)
    requires Inv(s)
    ensures CreditOk(StepEdgeReceive(s), k)
  {
    hide SumOver, BodySum, BytesOf, GrantSum, JobBytes, HttpOk, Booked, Coalesced, OnFrame, Taken, EdgeOk, BytesOk;
    if s.agent.wire != [] {
      var f := s.agent.wire[0];
      FrameFits(s);
      FrameEffect(s.edge, f);
      FrameKeepsHttp(s.edge.streams[f.id], f);
      ChannelPop(s.agent);
      PartsNonNegative(s, k);
    }
    assert StreamOk(s, k);
  }

  lemma EndLastPop(w: seq<Frame>, id: nat)
    requires w != [] && EndLast(w, id)
    ensures EndLast(w[1..], id)
    ensures w[0] == ResEnd(id) ==> BytesOf(w[1..], id) == []
    ensures ResEnd(id) in w[1..] || w[0] == ResEnd(id) ==> ResEnd(id) in w
  {
  }

  lemma ReceiveBytes(s: State, k: nat)
    requires Inv(s)
    ensures BytesOk(StepEdgeReceive(s), k)
  {
    hide SumOver, BodySum, BytesOf, GrantSum, JobBytes, Booked, Coalesced, OnFrame, Taken, EdgeOk, CreditOk, LogOk, ChainOk, EndLast, Carried;
    assert StreamOk(s, k);
    if s.agent.wire != [] {
      var f := s.agent.wire[0];
      FrameFits(s);
      FrameEffect(s.edge, f);
      ChannelPop(s.agent);
      var rest := Channel(s.agent.(wire := s.agent.wire[1..]));
      assert Channel(s.agent)[1..] == rest;
      if k in s.agent.senders {
        EndLastPop(Channel(s.agent), k);
        assert [] + BytesOf(rest, k) == BytesOf(rest, k);
        if k == f.id {
          FrameKeepsBytes(s.agent.senders[k], s.edge.streams[k], f, BytesOf(rest, k));
        }
      }
    }
  }

  // ---------------------------------------------------------------- opening a stream

  /** The stream start leaves behind. */
  function Opened(ws: bool, headMethod: bool, how: StartOutcome): HttpStream {
    var h := NewStream(ws, headMethod);
    match how
    case SendFailed => h.(life := Finished(Note(h.life, HeadGiven)))
    case Aborted => h.(life := ResetLife(h.life, true))
    case Sent => h.(life := h.life.(reqEndSent := ws))
  }

  /** A stream that holds nothing joins the map. */
  lemma JoinLaw(e: Edge, id: nat, h: HttpStream)
    requires Booked(e, 0) && Coalesced(e) && id !in e.streams && h.held == 0 && !h.life.done
    ensures Booked(With(e, id, h), 0) && Coalesced(With(e, id, h))
  {
    hide SumOver;
    SumUpdate(e.streams, HeldOf, id, h);
    assert id in With(e, id, h).streams && !With(e, id, h).streams[id].life.done;
  }

  lemma StartLaw(e: Edge, id: nat, ws: bool, headMethod: bool, how: StartOutcome)
    requires Booked(e, 0) && Coalesced(e) && id !in e.streams
    ensures var f := OnStart(e, id, ws, headMethod, how);
      f == e.(held := f.held, connUngranted := f.connUngranted, wire := f.wire, streams := e.streams[id := Opened(ws, headMethod, how)])
      && Booked(f, 0) && Coalesced(f) && SameSide(e, f)
      && (forall k :: k > 0 ==> GrantSum(f.wire, k) == GrantSum(e.wire, k))
      && (forall w :: w in f.wire ==> w in e.wire || w.id == 0)
  {
    hide GrantSum, SumOver, Finish, Reset, Finished, ResetLife, Booked, Coalesced;
    var h := NewStream(ws, headMethod);
    var h1 := if how.SendFailed? then h.(life := Note(h.life, HeadGiven)) else if how.Sent? then Opened(ws, headMethod, how) else h;
    var e1 := With(e, id, h1);
    JoinLaw(e, id, h1);
    if how.SendFailed? {
      FinishLaw(e1, id, 0);
      assert e.streams[id := h1][id := Opened(ws, headMethod, how)] == e.streams[id := Opened(ws, headMethod, how)];
    } else if how.Aborted? {
      ResetLaw(e1, id, true, 0);
      assert e.streams[id := h1][id := Opened(ws, headMethod, how)] == e.streams[id := Opened(ws, headMethod, how)];
    }
  }

  lemma OpenedOk(ws: bool, headMethod: bool, how: StartOutcome)
    ensures var g := Opened(ws, headMethod, how); HttpOk(g) && Untouched(g) && g.held == 0 && g.ungranted == 0
  {
    hide ResetLife, Finished;
    var h := NewStream(ws, headMethod);
    ResetLog(h.life, true);
    ResetFlags(h.life, true);
    FinishedFlags(Note(h.life, HeadGiven));
    var l := Note(h.life, HeadGiven);
    assert Finished(l) == Note(l, Done).(done := true) && Note(l, Done).log == [HeadGiven, Done] by { TwoEvents(h.life); }
  }

  lemma TwoEvents(l: Life)
    requires !l.done && l.log == []
    ensures Finished(Note(l, HeadGiven)) == Note(Note(l, HeadGiven), Done).(done := true)
    ensures Note(Note(l, HeadGiven), Done).log == [HeadGiven, Done]
  {
  }

  lemma {:induction false} NoFrames(w: seq<Frame>, id: nat)
    requires forall f :: f in w ==> f.id != id
    ensures BytesOf(w, id) == [] && EndLast(w, id)
  {
    if w != [] {
      NoFrames(w[1..], id);
    }
  }

  lemma StartGlobal(s: State, id: nat, ws: bool, headMethod: bool, how: StartOutcome)
    requires Global(s)
    ensures Global(StepStart(s, id, ws, headMethod, how))
  {
    hide SumOver, BodySum, BytesOf, GrantSum, JobBytes, HttpOk, Booked, Coalesced, OnStart, Opened;
    if id > 0 && id !in s.edge.streams {
      StartLaw(s.edge, id, ws, headMethod, how);
      OpenedOk(ws, headMethod, how);
    }
  }

  lemma StartStream(s: State, id: nat, ws: bool, headMethod: bool, how: StartOutcome, k: nat)
    requires Global(s) && StreamOk(s, k)
    ensures StreamOk(StepStart(s, id, ws, headMethod, how), k)
  {
    hide SumOver, BodySum, BytesOf, GrantSum, JobBytes, HttpOk, Booked, Coalesced, OnStart, Opened, EndLast, Carried;
    if id > 0 && id !in s.edge.streams {
      StartLaw(s.edge, id, ws, headMethod, how);
      OpenedOk(ws, headMethod, how);
    }
  }

  lemma OpenStep(s: State, id: nat, body: Bytes, k: nat)
    requires Global(s) && StreamOk(s, k)
    ensures Global(StepOpen(s, id, body)) && StreamOk(StepOpen(s, id, body), k)
  {
    hide SumOver, BodySum, BytesOf, GrantSum, JobBytes, LogOk, Booked, Coalesced, EndLast;
    if id in s.edge.streams && id !in s.agent.senders {
      var q := Sender(body, 0, [], STREAM_WINDOW, false, false, false, true);
      SumUpdate(s.agent.senders, HandLen, id, q);
      NoFrames(Channel(s.agent), id);
      NoJobs();
      if k == id {
        assert ResEnd(id) !in Channel(s.agent);
        assert body[..0] == [];
      }
    }
  }

  // ---------------------------------------------------------------- agent operations

  lemma {:induction false} ConcatFrames(u: seq<Frame>, v: seq<Frame>, id: nat)
    ensures BodySum(u + v) == BodySum(u) + BodySum(v)
    ensures BytesOf(u + v, id) == BytesOf(u, id) + BytesOf(v, id)
  {
    if u == [] {
      assert u + v == v;
      assert BytesOf(u, id) + BytesOf(v, id) == BytesOf(v, id);
    } else {
      assert (u + v)[1..] == u[1..] + v;
      ConcatFrames(u[1..], v, id);
    }
  }

  /** An agent operation on sender `id`, now `q`, that queued `add`. */
  ghost predicate Sends(a: Agent, b: Agent, id: nat, q: Sender, add: seq<Frame>) {
    && id in a.senders
    && b == a.(conn := b.conn, lost := b.lost, senders := a.senders[id := q], data := a.data + add)
    && (forall f :: f in add ==> f.id == id)
    && SenderOk(q) && b.lost >= 0
    && b.conn + |q.hand| + BodySum(add) + b.lost == a.conn + |a.senders[id].hand| + a.lost
  }

  lemma SendsGlobal(s: State, b: Agent, id: nat, q: Sender, add: seq<Frame>)
    requires Global(s) && Sends(s.agent, b, id, q, add)
    ensures Global(s.(agent := b))
  {
    hide SumOver, BodySum, BytesOf, GrantSum, HttpOk, Booked, Coalesced;
    SumUpdate(s.agent.senders, HandLen, id, q);
    assert Channel(b) == Channel(s.agent) + add;
    ConcatFrames(Channel(s.agent), add, id);
  }

  /** Credit moves from the sender into the channel, or is dropped by a sender that stops. */
  ghost predicate Pays(p: Sender, q: Sender, sent: nat) {
    && (q.registered ==> p.registered) && (p.stopped ==> q.stopped)
    && (if q.registered then q.credit else 0) + |q.hand| + sent <= (if p.registered then p.credit else 0) + |p.hand|
    && (!q.stopped ==> (if q.registered then q.credit else 0) + |q.hand| + sent == (if p.registered then p.credit else 0) + |p.hand|)
  }

  lemma SendsCredit(s: State, b: Agent, id: nat, q: Sender, add: seq<Frame>, k: nat)
    requires Global(s) && CreditOk(s, k) && Sends(s.agent, b, id, q, add)
    requires Pays(s.agent.senders[id], q, |BytesOf(add, id)|)
    ensures CreditOk(s.(agent := b), k)
  {
    hide SumOver, BodySum, BytesOf, GrantSum, HttpOk, Booked, Coalesced;
    assert Channel(b) == Channel(s.agent) + add;
    ConcatFrames(Channel(s.agent), add, k);
    if k != id {
      NoFrames(add, k);
    }
  }

  lemma SendsBytes(s: State, b: Agent, id: nat, q: Sender, add: seq<Frame>, k: nat)
    requires Global(s) && BytesOk(s, k) && Sends(s.agent, b, id, q, add)
    requires k == id ==> EndOk(b, id)
    requires k == id ==> Carried(q, s.edge.streams[id], BytesOf(Channel(s.agent), id) + BytesOf(add, id))
    ensures BytesOk(s.(agent := b), k)
  {
    hide SumOver, BodySum, BytesOf, GrantSum, HttpOk, Booked, Coalesced, EndLast, Carried;
    assert Channel(b) == Channel(s.agent) + add;
    ConcatFrames(Channel(s.agent), add, k);
    if k != id {
      NoFrames(add, k);
      assert BytesOf(Channel(s.agent), k) + [] == BytesOf(Channel(s.agent), k);
      if k in s.agent.senders {
        TailEndLast(Channel(s.agent), add, k);
      }
    }
  }

  lemma {:induction false} TailEndLast(u: seq<Frame>, v: seq<Frame>, id: nat)
    requires EndLast(u, id) && EndLast(v, id) && (ResEnd(id) in u ==> BytesOf(v, id) == [])
    ensures EndLast(u + v, id)
  {
    if u == [] {
      assert u + v == v;
    } else {
      assert (u + v)[1..] == u[1..] + v;
      TailEndLast(u[1..], v, id);
      ConcatFrames(u[1..], v, id);
    }
  }

  /** A frame of its own at the end of the channel. */
  lemma OneFrame(a: Agent, b: Agent, f: Frame, id: nat)
    requires Channel(b) == Channel(a) + [f] && EndLast(Channel(a), id)
    requires ResEnd(id) in Channel(a) ==> FrameBytes(f, id) == []
    ensures BodySum([f]) == FrameLen(f) && BytesOf([f], id) == FrameBytes(f, id)
    ensures EndLast(Channel(b), id)
    ensures ResEnd(id) in Channel(b) ==> ResEnd(id) in Channel(a) || f == ResEnd(id)
  {
    assert [f][1..] == [];
    assert BytesOf([f], id) == FrameBytes(f, id) + BytesOf([], id);
    TailEndLast(Channel(a), [f], id);
  }

  lemma SendHeadStep(s: State, id: nat, head: Head, k: nat)
    requires Global(s) && StreamOk(s, k) && StreamOk(s, id)
    ensures Global(StepSendHead(s, id, head)) && StreamOk(StepSendHead(s, id, head), k)
  {
    hide SumOver, BodySum, BytesOf, GrantSum, HttpOk, Booked, Coalesced, EndLast, JobBytes;
    if Ready(s.agent, id) && !s.agent.senders[id].headSent {
      var f, b := ResHead(id, head), SendHead(s.agent, id, head);
      assert Channel(b) == Channel(s.agent) + [f];
      OneFrame(s.agent, b, f, id);
      var q := b.senders[id];
      SendsGlobal(s, b, id, q, [f]);
      SendsCredit(s, b, id, q, [f], k);
      assert BytesOf(Channel(s.agent), id) + [] == BytesOf(Channel(s.agent), id);
      SendsBytes(s, b, id, q, [f], k);
    }
  }

  lemma AcquireStep(s: State, id: nat, want: nat, k: nat)
    requires Global(s) && StreamOk(s, k) && StreamOk(s, id)
    ensures Global(StepAcquire(s, id, want)) && StreamOk(StepAcquire(s, id, want), k)
  {
    hide SumOver, BodySum, BytesOf, GrantSum, HttpOk, Booked, Coalesced, EndLast, JobBytes, Carried;
    if Ready(s.agent, id) && s.agent.senders[id].headSent && Allowed(s.agent, s.agent.senders[id], want) > 0 {
      var p, b := s.agent.senders[id], Acquire(s.agent, id, want);
      var q := b.senders[id];
      assert b.data == s.agent.data + [] && Channel(b) == Channel(s.agent);
      NoSum(id);
      SendsGlobal(s, b, id, q, []);
      SendsCredit(s, b, id, q, [], k);
      AcquireCarried(p, q, s.edge.streams[id], BytesOf(Channel(s.agent), id));
      assert BytesOf(Channel(s.agent), id) + [] == BytesOf(Channel(s.agent), id);
      SendsBytes(s, b, id, q, [], k);
    }
  }

  lemma NoSum(id: nat)
    ensures BodySum([]) == 0 && BytesOf([], id) == []
  {
  }

  lemma AcquireCarried(p: Sender, q: Sender, h: HttpStream, flight: Bytes)
    requires p.taken <= q.taken <= |p.body| && !p.stopped && p.hand == []
    requires q == p.(hand := p.body[p.taken..q.taken], taken := q.taken, credit := q.credit)
    requires Carried(p, h, flight)
    ensures Carried(q, h, flight)
  {
    hide JobBytes;
    assert p.body[..q.taken] == p.body[..p.taken] + q.hand;
    var got := h.chain.got + JobBytes(h.chain.jobs);
    assert got + (flight + q.hand) == got + (flight + p.hand) + q.hand;
  }

  lemma SendBodyStep(s: State, id: nat, k: nat)
    requires Global(s) && StreamOk(s, k) && StreamOk(s, id)
    ensures Global(StepSendBody(s, id)) && StreamOk(StepSendBody(s, id), k)
  {
    hide SumOver, BodySum, BytesOf, GrantSum, HttpOk, Booked, Coalesced, EndLast, JobBytes;
    if Holding(s.agent, id) {
      var p := s.agent.senders[id];
      var f, b := ResBody(id, p.hand), SendBody(s.agent, id);
      var q := b.senders[id];
      assert SenderOk(p) && ResEnd(id) !in Channel(s.agent);
      assert Channel(b) == Channel(s.agent) + [f];
      OneFrame(s.agent, b, f, id);
      SendsGlobal(s, b, id, q, [f]);
      SendsCredit(s, b, id, q, [f], k);
      var flight := BytesOf(Channel(s.agent), id);
      assert (flight + p.hand) + [] == flight + p.hand;
      SendsBytes(s, b, id, q, [f], k);
    }
  }

  lemma CancelBodyStep(s: State, id: nat, k: nat)
    requires Global(s) && StreamOk(s, k) && StreamOk(s, id)
    ensures Global(StepCancelBody(s, id)) && StreamOk(StepCancelBody(s, id), k)
  {
    hide SumOver, BodySum, BytesOf, GrantSum, HttpOk, Booked, Coalesced, EndLast, JobBytes;
    if Holding(s.agent, id) {
      var p, b := s.agent.senders[id], CancelBody(s.agent, id);
      assert SenderOk(p);
      QuietStep(s, id, b, b.senders[id], k);
    }
  }

  /** A sender that stops, is removed, or drops what it held. */
  ghost predicate Quiets(a: Agent, b: Agent, id: nat, q: Sender) {
    id in a.senders &&
    var p := a.senders[id];
    && b == a.(lost := a.lost + |p.hand|, senders := a.senders[id := q])
    && q == p.(hand := [], stopped := true, registered := q.registered)
    && (q.registered ==> p.registered)
  }

  lemma QuietStep(s: State, id: nat, b: Agent, q: Sender, k: nat)
    requires Global(s) && StreamOk(s, k) && StreamOk(s, id) && Quiets(s.agent, b, id, q)
    ensures Global(s.(agent := b)) && StreamOk(s.(agent := b), k)
  {
    hide SumOver, BodySum, BytesOf, GrantSum, HttpOk, Booked, Coalesced, EndLast, JobBytes;
    var p := s.agent.senders[id];
    assert SenderOk(p);
    assert b.data == s.agent.data + [] && Channel(b) == Channel(s.agent);
    NoSum(id);
    SendsGlobal(s, b, id, q, []);
    SendsCredit(s, b, id, q, [], k);
    var flight := BytesOf(Channel(s.agent), id);
    assert flight + [] == flight;
    DropCarried(p, q, s.edge.streams[id], flight);
    SendsBytes(s, b, id, q, [], k);
  }

  lemma DropCarried(p: Sender, q: Sender, h: HttpStream, flight: Bytes)
    requires SenderOk(p) && q == p.(hand := [], stopped := true, registered := q.registered)
    requires Carried(p, h, flight)
    ensures Carried(q, h, flight)
  {
    hide JobBytes;
    var got := h.chain.got + JobBytes(h.chain.jobs);
    assert got + (flight + p.hand) == got + (flight + []) + p.hand;
    assert Intact(q) ==> Intact(p) && p.hand == [];
  }

  lemma StopStep(s: State, id: nat, k: nat)
    requires Global(s) && StreamOk(s, k) && StreamOk(s, id)
    ensures Global(StepStop(s, id)) && StreamOk(StepStop(s, id), k)
  {
    hide Global, StreamOk;
    if Ready(s.agent, id) {
      var q := s.agent.senders[id].(stopped := true);
      QuietStep(s, id, WithSender(s.agent, id, q), q, k);
    }
  }

  lemma RemoveStep(s: State, id: nat, k: nat)
    requires Global(s) && StreamOk(s, k) && StreamOk(s, id)
    ensures Global(StepRemove(s, id)) && StreamOk(StepRemove(s, id), k)
  {
    hide Global, StreamOk;
    if id in s.agent.senders && s.agent.senders[id].stopped && s.agent.senders[id].hand == [] {
      var q := s.agent.senders[id].(registered := false);
      QuietStep(s, id, WithSender(s.agent, id, q), q, k);
    }
  }

  lemma SendEndStep(s: State, id: nat, k: nat)
    requires Global(s) && StreamOk(s, k) && StreamOk(s, id)
    ensures Global(StepSendEnd(s, id)) && StreamOk(StepSendEnd(s, id), k)
  {
    hide SumOver, BodySum, BytesOf, GrantSum, HttpOk, Booked, Coalesced, EndLast, JobBytes;
    if Ready(s.agent, id) && s.agent.senders[id].headSent && s.agent.senders[id].taken == |s.agent.senders[id].body| {
      var f, b := ResEnd(id), SendEnd(s.agent, id);
      assert Channel(b) == Channel(s.agent) + [f];
      OneFrame(s.agent, b, f, id);
      var q := b.senders[id];
      SendsGlobal(s, b, id, q, [f]);
      SendsCredit(s, b, id, q, [f], k);
      assert BytesOf(Channel(s.agent), id) + [] == BytesOf(Channel(s.agent), id);
      SendsBytes(s, b, id, q, [f], k);
    }
  }

  lemma WriteDataStep(s: State, k: nat)
    requires Global(s) && StreamOk(s, k)
    ensures Global(StepWriteData(s)) && StreamOk(StepWriteData(s), k)
  {
    hide SumOver, BodySum, BytesOf, GrantSum, HttpOk, Booked, Coalesced, EndLast, Carried, Untouched;
    if s.agent.data != [] {
      assert s.agent.wire + [s.agent.data[0]] + s.agent.data[1..] == s.agent.wire + s.agent.data;
    }
  }

  // ---------------------------------------------------------------- a WINDOW reaches the agent

  lemma WindowGlobal(s: State)
    requires Inv(s)
    ensures Global(StepAgentReceive(s))
  {
    hide SumOver, BodySum, BytesOf, GrantSum, HttpOk, EndLast, Carried, Untouched, JobBytes, BytesOk;
    if s.edge.wire != [] {
      var g := s.edge.wire[0];
      Bounds(s);
      PopGrant(s.edge.wire, 0);
      if g.id > 0 && g.id in s.agent.senders && s.agent.senders[g.id].registered {
        var p := s.agent.senders[g.id];
        SumUpdate(s.agent.senders, HandLen, g.id, p.(credit := p.credit + g.n));
        WindowFits(s);
      }
    }
  }

  lemma WindowFits(s: State)
    requires Inv(s) && s.edge.wire != []
    ensures var g := s.edge.wire[0];
      g.id > 0 && g.id in s.agent.senders && s.agent.senders[g.id].registered
      ==> s.agent.senders[g.id].credit + g.n <= STREAM_WINDOW
  {
    hide SumOver, BodySum, BytesOf, HttpOk, BytesOk;
    var g := s.edge.wire[0];
    assert StreamOk(s, g.id);
    PartsNonNegative(s, g.id);
    PopGrant(s.edge.wire, g.id);
  }

  lemma WindowCredit(s: State, k: nat)
    requires Inv(s)
    ensures CreditOk(StepAgentReceive(s), k)
  {
    hide SumOver, BodySum, BytesOf, GrantSum, HttpOk, EndLast, Carried, Untouched, JobBytes, BytesOk;
    assert StreamOk(s, k);
    if s.edge.wire != [] {
      var g := s.edge.wire[0];
      PopGrant(s.edge.wire, k);
      WindowFits(s);
      PartsNonNegative(s, k);
    }
  }

  lemma WindowBytes(s: State, k: nat)
    requires Inv(s)
    ensures BytesOk(StepAgentReceive(s), k)
  {
    hide SumOver, BodySum, BytesOf, GrantSum, HttpOk, EndLast, Untouched, JobBytes, CreditOk;
    assert StreamOk(s, k);
    if s.edge.wire != [] {
      WindowFits(s);
    }
  }

  // ---------------------------------------------------------------- runs

  lemma ReceiveStep(s: State, k: nat)
    requires Inv(s)
    ensures Global(StepEdgeReceive(s)) && StreamOk(StepEdgeReceive(s), k)
    ensures Global(StepAgentReceive(s)) && StreamOk(StepAgentReceive(s), k)
  {
    hide StepEdgeReceive, StepAgentReceive, Global, CreditOk, BytesOk;
    ReceiveGlobal(s);
    ReceiveCredit(s, k);
    ReceiveBytes(s, k);
    WindowGlobal(s);
    WindowCredit(s, k);
    WindowBytes(s, k);
  }

  lemma StepKeepsOne(s: State, step: Step, k: nat)
    requires Inv(s)
    ensures Global(Do(s, step)) && StreamOk(Do(s, step), k)
  {
    hide Global, StreamOk, StepStart, StepOpen, StepSendHead, StepAcquire, StepSendBody, StepCancelBody, StepSendEnd, StepStop,
      StepRemove, StepWriteData, StepAgentReceive, StepEdgeReceive, StepStartJob, StepEndJob, StepReset, StepPumpEnd;
    assert StreamOk(s, k);
    match step
    case DoStart(id, ws, headMethod, how) =>
      StartGlobal(s, id, ws, headMethod, how);
      StartStream(s, id, ws, headMethod, how, k);
    case DoOpen(id, body) => OpenStep(s, id, body, k);
    case DoSendHead(id, head) => assert StreamOk(s, id); SendHeadStep(s, id, head, k);
    case DoAcquire(id, want) => assert StreamOk(s, id); AcquireStep(s, id, want, k);
    case DoSendBody(id) => assert StreamOk(s, id); SendBodyStep(s, id, k);
    case DoCancelBody(id) => assert StreamOk(s, id); CancelBodyStep(s, id, k);
    case DoSendEnd(id) => assert StreamOk(s, id); SendEndStep(s, id, k);
    case DoStop(id) => assert StreamOk(s, id); StopStep(s, id, k);
    case DoRemove(id) => assert StreamOk(s, id); RemoveStep(s, id, k);
    case DoWriteData => WriteDataStep(s, k);
    case DoAgentReceive => ReceiveStep(s, k);
    case DoEdgeReceive => ReceiveStep(s, k);
    case DoStartJob(id) => StartStep(s, id, k);
    case DoEndJob(id, ok) => EndJobStep(s, id, ok, k);
    case DoReset(id, notify) =>
      ResetGlobal(s, id, notify);
      ResetStream(s, id, notify, k);
    case DoPumpEnd(id) => PumpEndStep(s, id, k);
  }

  lemma StepKeeps(s: State, step: Step)
    requires Inv(s)
    ensures Inv(Do(s, step))
  {
    hide Global, StreamOk, Do;
    forall k: nat
      ensures Global(Do(s, step)) && StreamOk(Do(s, step), k)
    {
      StepKeepsOne(s, step, k);
    }
    StepKeepsOne(s, step, 0);
  }

  lemma StartSums()
    ensures SumOver(Start.agent.senders, HandLen) == 0 && SumOver(Start.edge.streams, HeldOf) == 0
    ensures Channel(Start.agent) == [] && BodySum([]) == 0
    ensures forall id :: GrantSum([], id) == 0 && BytesOf([], id) == []
  {
  }

  lemma StartIsGlobal()
    ensures Global(Start)
  {
    hide SumOver, BodySum, GrantSum, BytesOf, HttpOk, SenderOk;
    StartSums();
  }

  lemma StartIsStream(k: nat)
    ensures StreamOk(Start, k)
  {
    hide SumOver, BodySum, GrantSum, BytesOf, Carried, Untouched, EndOk;
    StartSums();
  }

  lemma StartOk()
    ensures Inv(Start)
  {
    hide Global, StreamOk;
    StartIsGlobal();
    forall k: nat
      ensures StreamOk(Start, k)
    {
      StartIsStream(k);
    }
  }

  lemma {:induction false} RunKeeps(steps: seq<Step>)
    ensures Inv(Run(steps))
  {
    hide Inv, Do;
    if steps == [] {
      StartOk();
    } else {
      RunKeeps(steps[..|steps| - 1]);
      StepKeeps(Run(steps[..|steps| - 1]), steps[|steps| - 1]);
    }
  }
}
