/**
 * The life of an edge stream against any agent: frames of any kind, for any stream, in any order.
 *
 * A step is one stretch of the edge's code without await. Nothing is assumed of the agent, so the
 * branches for repeated, early, late and excessive frames are all taken by some run. A frame beyond
 * the connection's receive window drops the agent and with it every stream.
 */
module ResponseFlowLife {
  import opened Limits
  import opened ResponseFlow
  import opened ResponseFlowSafety

  // ---------------------------------------------------------------- runs

  /** The agent is gone: its AgentConn is forgotten and each of its streams reset without a RESET. */
  function AgentLost(e: Edge): Edge {
    e.(held := 0, connUngranted := 0,
       streams := map id | id in e.streams :: e.streams[id].(life := ResetLife(e.streams[id].life, false)))
  }

  predicate Overflows(e: Edge, f: Frame) { f.ResBody? && e.held + |f.data| > CONN_WINDOW }

  function AnyFrame(e: Edge, f: Frame): Edge { if Overflows(e, f) then AgentLost(e) else OnFrame(e, f) }

  datatype Turn =
    | Begin(id: nat, ws: bool, headMethod: bool, how: StartOutcome)
    | Arrive(f: Frame)
    | JobStarts(id: nat)
    | JobEnds(id: nat, ok: bool)
    | Cut(id: nat, notify: bool)
    | PumpEnds(id: nat)
    | Lost
    | WindowLeaves

  /** A turn that is not possible changes nothing. `WindowLeaves`: the socket takes the oldest WINDOW frame. */
  function After(e: Edge, t: Turn): Edge {
    match t
    case Begin(id, ws, headMethod, how) => if id > 0 && id !in e.streams then OnStart(e, id, ws, headMethod, how) else e
    case Arrive(f) => AnyFrame(e, f)
    case JobStarts(id) => if CanStartJob(e, id) then StartJob(e, id) else e
    case JobEnds(id, ok) => if CanEndJob(e, id) then EndJob(e, id, ok) else e
    case Cut(id, notify) => if id in e.streams then Reset(e, id, notify) else e
    case PumpEnds(id) => if id in e.streams then With(e, id, e.streams[id].(life := SendReqEnd(e.streams[id].life))) else e
    case Lost => AgentLost(e)
    case WindowLeaves => if e.wire != [] then e.(wire := e.wire[1..]) else e
  }

  function Lived(turns: seq<Turn>): Edge {
    if turns == [] then Start.edge else After(Lived(turns[..|turns| - 1]), turns[|turns| - 1])
  }

  // ---------------------------------------------------------------- what every run keeps

  /** The log is in order, and nothing is written or closed before a head was given. */
  ghost predicate LifeOk(h: HttpStream) {
    && LogOk(h.life) && NoRequestBody(h.life)
    && (h.chain.jobs != [] || h.chain.hasWriter ==> h.life.headDone || h.life.done)
  }

  /** What a stream has shown is never taken back, and a done stream shows nothing more. */
  ghost predicate Grows(h: HttpStream, g: HttpStream) {
    h.life.log <= g.life.log && (h.life.done ==> g.life.log == h.life.log && g.life.done)
  }

  /** From one state of a stream to a later one. */
  ghost predicate Onto(h: HttpStream, g: HttpStream) { LifeOk(h) ==> LifeOk(g) && Grows(h, g) }

  /** The same streams, and each lives on. */
  ghost predicate Onward(e: Edge, f: Edge) {
    f.streams.Keys == e.streams.Keys && forall id :: id in e.streams ==> Onto(e.streams[id], f.streams[id])
  }

  lemma OnwardTrans(e: Edge, f: Edge, g: Edge)
    requires Onward(e, f) && Onward(f, g)
    ensures Onward(e, g)
  {
    hide LifeOk;
    forall id | id in e.streams
      ensures Onto(e.streams[id], g.streams[id])
    {
      assert Onto(e.streams[id], f.streams[id]) && Onto(f.streams[id], g.streams[id]);
    }
  }

  /** One stream changes. */
  lemma OnwardWith(e: Edge, id: nat, h: HttpStream)
    requires id in e.streams && Onto(e.streams[id], h)
    ensures Onward(e, With(e, id, h))
  {
    hide LifeOk;
  }

  lemma ResetOnto(h: HttpStream, notify: bool)
    ensures Onto(h, h.(life := ResetLife(h.life, notify)))
    ensures ResetLife(h.life, notify).done
  {
    if LifeOk(h) {
      ResetLog(h.life, notify);
      ResetFlags(h.life, notify);
    }
  }

  lemma FinishedOnto(h: HttpStream)
    requires h.life.headDone || h.life.done
    ensures Onto(h, h.(life := Finished(h.life)))
  {
    if LifeOk(h) {
      FinishedLog(h.life);
    }
  }

  lemma PumpOnto(h: HttpStream)
    ensures Onto(h, h.(life := SendReqEnd(h.life)))
  {
    if LifeOk(h) {
      ReqEndLog(h.life);
    }
  }

  // ---------------------------------------------------------------- the edge's building blocks

  lemma GrantOnward(e: Edge, n: nat)
    ensures GrantConn(e, n).streams == e.streams && FlushConn(e).streams == e.streams
  {
  }

  lemma FinishStreams(e: Edge, id: nat)
    requires id in e.streams
    ensures Finish(e, id).streams == e.streams[id := e.streams[id].(life := Finished(e.streams[id].life))]
  {
  }

  lemma ResetStreams(e: Edge, id: nat, notify: bool)
    requires id in e.streams
    ensures Reset(e, id, notify).streams == e.streams[id := e.streams[id].(life := ResetLife(e.streams[id].life, notify))]
  {
  }

  /** Consuming bytes moves credit only. */
  lemma ConsumedStreams(e: Edge, id: nat, n: nat)
    requires id in e.streams
    ensures var f := Consumed(e, id, n);
      && f.streams.Keys == e.streams.Keys
      && (forall k :: k in e.streams && k != id ==> f.streams[k] == e.streams[k])
      && f.streams[id].life == e.streams[id].life && f.streams[id].chain == e.streams[id].chain
  {
    hide GrantConn;
    var h := e.streams[id];
    GrantOnward(With(e, id, h.(held := h.held - n)), n);
  }

  lemma ConsumedOnward(e: Edge, id: nat, n: nat)
    requires id in e.streams
    ensures Onward(e, Consumed(e, id, n))
  {
    hide Consumed, LogOk;
    ConsumedStreams(e, id, n);
  }

  lemma ResetOnward(e: Edge, id: nat, notify: bool)
    requires id in e.streams
    ensures Onward(e, Reset(e, id, notify)) && id in Reset(e, id, notify).streams
  {
    hide Reset, LifeOk, ResetLife;
    ResetStreams(e, id, notify);
    ResetOnto(e.streams[id], notify);
  }

  lemma FinishOnward(e: Edge, id: nat)
    requires id in e.streams && (e.streams[id].life.headDone || e.streams[id].life.done)
    ensures Onward(e, Finish(e, id))
  {
    hide Finish, LifeOk, Finished;
    FinishStreams(e, id);
    FinishedOnto(e.streams[id]);
  }

  // ---------------------------------------------------------------- frames

  lemma HeadOnto(h: HttpStream, head: Head)
    requires !h.life.done
    ensures Onto(h, HeadTaken(h, head))
  {
    hide LogOk, NullBody, AcceptableHead, Finished, ResetLife;
    if LifeOk(h) {
      var l := Note(h.life, HeadGiven).(headDone := true);
      if h.life.headDone || !AcceptableHead(h.life, head) {
        ResetOnto(h, true);
      } else {
        HeadLog(h.life);
        if head.status == 101 {
          OnlyUpgrades(h.life, head);
          EndedLog(l);
          FinishedOnto(h.(life := l.(resEnded := true)));
        }
      }
    }
  }

  lemma HeadStreams(e: Edge, id: nat, head: Head)
    requires id in e.streams && !e.streams[id].life.done
    ensures OnResHead(e, id, head).streams == e.streams[id := HeadTaken(e.streams[id], head)]
  {
    hide Finish, Reset, Finished, ResetLife, NullBody, AcceptableHead;
    var h := e.streams[id];
    var l := Note(h.life, HeadGiven).(headDone := true);
    ResetStreams(e, id, true);
    var ended := With(e, id, h.(life := l.(resEnded := true)));
    FinishStreams(ended, id);
    assert e.streams[id := h.(life := l.(resEnded := true))][id := h.(life := Finished(l.(resEnded := true)))]
        == e.streams[id := h.(life := Finished(l.(resEnded := true)))];
  }

  lemma HeadOnward(e: Edge, id: nat, head: Head)
    requires id in e.streams && !e.streams[id].life.done
    ensures Onward(e, OnResHead(e, id, head))
  {
    hide OnResHead, HeadTaken, LifeOk;
    HeadStreams(e, id, head);
    HeadOnto(e.streams[id], head);
  }

  /** A body that ends its stream: the stream is reset and the bytes count as consumed. */
  lemma RefusedOnward(e: Edge, id: nat, h: HttpStream, fault: bool, n: nat)
    requires id in e.streams && h.life == e.streams[id].life
    requires h.chain == e.streams[id].chain.(bodyBytes := h.chain.bodyBytes)
    ensures Onward(e, Consumed(Reset(With(e, id, h).(fault := fault), id, true), id, n))
  {
    hide Reset, Consumed, LogOk;
    OnwardWith(e, id, h);
    var r := With(e, id, h).(fault := fault);
    ResetOnward(r, id, true);
    ConsumedOnward(Reset(r, id, true), id, n);
    OnwardTrans(e, r, Reset(r, id, true));
    OnwardTrans(e, Reset(r, id, true), Consumed(Reset(r, id, true), id, n));
  }

  lemma BodyOnward(e: Edge, id: nat, data: Bytes)
    requires id in e.streams
    ensures Onward(e, OnResBody(e, id, data))
  {
    hide Reset, Consumed, GrantConn, LogOk, Onward;
    var h := e.streams[id];
    var held := h.(held := h.held + |data|);
    if !h.life.headDone || h.life.resEnded || h.life.done {
      GrantOnward(e, |data|);
      GrantedOnward(e, |data|);
      if !h.life.headDone && !h.life.done {
        ResetOnward(GrantConn(e, |data|), id, true);
        OnwardTrans(e, GrantConn(e, |data|), OnResBody(e, id, data));
      }
    } else if h.held + |data| + h.ungranted > STREAM_WINDOW {
      RefusedOnward(e, id, held, true, |data|);
    } else if !h.chain.hasWriter {
      OnwardWith(e, id, held);
      ConsumedOnward(With(e, id, held), id, |data|);
      OnwardTrans(e, With(e, id, held), OnResBody(e, id, data));
    } else {
      var count := BodyCount(h, data);
      if TooLong(h, data) {
        var long := held.(chain := h.chain.(bodyBytes := count));
        RefusedOnward(e, id, long, e.fault, |data|);
        assert With(e, id, long).(fault := e.fault) == With(e, id, long);
      } else {
        OnwardWith(e, id, held.(chain := h.chain.(jobs := h.chain.jobs + [WriteJob(data)], bodyBytes := count)));
      }
    }
  }

  lemma GrantedOnward(e: Edge, n: nat)
    ensures Onward(e, GrantConn(e, n))
  {
    hide GrantConn, LogOk;
    GrantOnward(e, n);
  }

  lemma EndOnward(e: Edge, id: nat)
    requires id in e.streams && !e.streams[id].life.done
    ensures Onward(e, OnResEnd(e, id))
  {
    hide Reset, LogOk, SendReqEnd;
    var h := e.streams[id];
    if !h.life.headDone || h.life.resEnded {
      ResetOnward(e, id, true);
    } else if LifeOk(h) {
      ResEndLog(h.life);
      EndFlags(h.life);
    }
  }

  lemma EndFlags(l: Life)
    ensures var r := SendReqEnd(l.(resEnded := true));
      l.log <= r.log && r.done == l.done && r.headDone == l.headDone && r.ws == l.ws && (l.reqEndSent ==> r.reqEndSent)
  {
  }

  lemma FrameOnward(e: Edge, f: Frame)
    ensures Onward(e, AnyFrame(e, f))
  {
    hide OnResHead, OnResBody, OnResEnd, GrantConn, Onward;
    if Overflows(e, f) {
      LostOnward(e);
    } else {
      SameOnward(e, if f.ResBody? then Received(e, |f.data|) else e);
      if f.id in e.streams && !e.streams[f.id].life.done {
        match f
        case ResHead(id, head) => HeadOnward(e, id, head);
        case ResBody(id, data) =>
          BodyOnward(Received(e, |data|), id, data);
          OnwardTrans(e, Received(e, |data|), OnFrame(e, f));
        case ResEnd(id) => EndOnward(e, id);
      } else if f.ResBody? {
        GrantedOnward(Received(e, |f.data|), |f.data|);
        OnwardTrans(e, Received(e, |f.data|), OnFrame(e, f));
      }
    }
  }

  lemma SameOnward(e: Edge, f: Edge)
    requires f.streams == e.streams
    ensures Onward(e, f)
  {
    hide LogOk;
  }

  lemma LostOnward(e: Edge)
    ensures Onward(e, AgentLost(e)) && AllDone(AgentLost(e).streams)
  {
    hide LifeOk, ResetLife;
    forall id | id in e.streams
      ensures Onto(e.streams[id], AgentLost(e).streams[id]) && AgentLost(e).streams[id].life.done
    {
      ResetOnto(e.streams[id], false);
    }
  }

  // ---------------------------------------------------------------- the write chain

  lemma JobStartOnward(e: Edge, id: nat)
    requires CanStartJob(e, id)
    ensures Onward(e, StartJob(e, id))
  {
    hide Finish, Consumed, LogOk, Onward;
    var h := e.streams[id];
    var rest := h.(chain := h.chain.(jobs := h.chain.jobs[1..]));
    OnwardWith(e, id, h.(chain := h.chain.(writing := true)));
    OnwardWith(e, id, rest);
    if h.chain.jobs[0].WriteJob? {
      if h.life.done {
        ConsumedOnward(With(e, id, rest), id, |h.chain.jobs[0].data|);
        OnwardTrans(e, With(e, id, rest), StartJob(e, id));
      }
    } else if !h.chain.hasWriter || h.life.done {
      ClosingOnward(e, id, rest);
    }
  }

  /** A close that leaves the chain finishes its stream, which has given its head before. */
  lemma ClosingOnward(e: Edge, id: nat, h: HttpStream)
    requires id in e.streams && e.streams[id].chain.jobs != [] && h.life == e.streams[id].life
    requires h.chain.hasWriter == e.streams[id].chain.hasWriter
    ensures Onward(e, Finish(With(e, id, h), id))
  {
    hide Finish, LogOk, Finished;
    FinishStreams(With(e, id, h), id);
    if LifeOk(e.streams[id]) {
      FinishedOnto(h);
    }
  }

  lemma JobEndOnward(e: Edge, id: nat, ok: bool)
    requires CanEndJob(e, id)
    ensures Onward(e, EndJob(e, id, ok))
  {
    hide Finish, Reset, Consumed, LogOk, Onward, Fits;
    var h := e.streams[id];
    var c := h.chain.(writing := false, jobs := h.chain.jobs[1..]);
    OnwardWith(e, id, h.(chain := c));
    match h.chain.jobs[0]
    case WriteJob(data) =>
      if ok {
        var r := With(e, id, h.(chain := c.(got := c.got + data)));
        OnwardWith(e, id, h.(chain := c.(got := c.got + data)));
        ConsumedOnward(r, id, |data|);
        OnwardTrans(e, r, EndJob(e, id, ok));
      } else {
        var r := With(e, id, h.(chain := c));
        ResetOnward(r, id, true);
        ConsumedOnward(Reset(r, id, true), id, |data|);
        OnwardTrans(e, r, Reset(r, id, true));
        OnwardTrans(e, Reset(r, id, true), EndJob(e, id, ok));
      }
    case CloseJob =>
      if ok && Fits(c) {
        ClosingOnward(e, id, h.(chain := c.(closed := true)));
      } else {
        var r := With(e, id, h.(chain := c));
        ResetOnward(r, id, true);
        OnwardTrans(e, r, EndJob(e, id, ok));
      }
  }

  // ---------------------------------------------------------------- every run

  ghost predicate AllLive(e: Edge) { forall id :: id in e.streams ==> LifeOk(e.streams[id]) }

  lemma BeginLives(e: Edge, id: nat, ws: bool, headMethod: bool, how: StartOutcome)
    requires id !in e.streams
    ensures var f := OnStart(e, id, ws, headMethod, how);
      id in f.streams && LifeOk(f.streams[id]) && f.streams == e.streams[id := f.streams[id]]
  {
    hide LifeOk, Finish, Reset, Finished, ResetLife;
    var h := NewStream(ws, headMethod);
    var failed := h.(life := Note(h.life, HeadGiven));
    FinishStreams(With(e, id, failed), id);
    ResetStreams(With(e, id, h), id, true);
    NewLife(ws, headMethod);
  }

  lemma NewLife(ws: bool, headMethod: bool)
    ensures var h := NewStream(ws, headMethod);
      && LifeOk(h.(life := Finished(Note(h.life, HeadGiven))))
      && LifeOk(h.(life := ResetLife(h.life, true)))
      && LifeOk(h.(life := h.life.(reqEndSent := ws)))
  {
  }

  lemma TurnLives(e: Edge, t: Turn)
    requires AllLive(e)
    ensures AllLive(After(e, t))
    ensures forall id :: id in e.streams ==> id in After(e, t).streams && Grows(e.streams[id], After(e, t).streams[id])
  {
    hide LifeOk, Grows, OnStart, Onward, After;
    if t.Begin? {
      StartLives(e, t);
    } else {
      TurnOnward(e, t);
      OnwardLives(e, After(e, t));
    }
  }

  lemma StartLives(e: Edge, t: Turn)
    requires AllLive(e) && t.Begin?
    ensures AllLive(After(e, t))
    ensures forall id :: id in e.streams ==> id in After(e, t).streams && Grows(e.streams[id], After(e, t).streams[id])
  {
    hide LifeOk, OnStart;
    if t.id > 0 && t.id !in e.streams {
      BeginLives(e, t.id, t.ws, t.headMethod, t.how);
    }
  }

  lemma OnwardLives(e: Edge, f: Edge)
    requires AllLive(e) && Onward(e, f)
    ensures AllLive(f)
    ensures forall id :: id in e.streams ==> id in f.streams && Grows(e.streams[id], f.streams[id])
  {
    hide LifeOk, Grows;
    assert forall id :: id in f.streams <==> id in e.streams.Keys;
    assert forall id :: id in e.streams ==> Onto(e.streams[id], f.streams[id]);
  }

  lemma TurnOnward(e: Edge, t: Turn)
    requires !t.Begin?
    ensures Onward(e, After(e, t))
  {
    hide LifeOk, Onward, AnyFrame, StartJob, EndJob, Reset, SendReqEnd, AgentLost, OnStart;
    SameOnward(e, e);
    match t
    case Arrive(f) => FrameOnward(e, f);
    case JobStarts(id) => if CanStartJob(e, id) { JobStartOnward(e, id); }
    case JobEnds(id, ok) => if CanEndJob(e, id) { JobEndOnward(e, id, ok); }
    case Cut(id, notify) => if id in e.streams { ResetOnward(e, id, notify); }
    case PumpEnds(id) =>
      if id in e.streams {
        PumpOnto(e.streams[id]);
        OnwardWith(e, id, e.streams[id].(life := SendReqEnd(e.streams[id].life)));
      }
    case Lost => LostOnward(e);
    case WindowLeaves => SameOnward(e, After(e, t));
  }

  lemma {:induction false} RunLives(turns: seq<Turn>)
    ensures AllLive(Lived(turns))
  {
    hide After;
    if turns != [] {
      RunLives(turns[..|turns| - 1]);
      TurnLives(Lived(turns[..|turns| - 1]), turns[|turns| - 1]);
    }
  }

  // ---------------------------------------------------------------- theorems

  function Times(events: seq<Event>, event: Event): nat { multiset(events)[event] }

  /** A sequence without repetition holds each event at most once. */
  lemma {:induction false} AtMostOnce(events: seq<Event>, event: Event)
    requires forall i, j :: 0 <= i < j < |events| ==> events[i] != events[j]
    ensures Times(events, event) == if event in events then 1 else 0
  {
    if events != [] {
      var init := events[..|events| - 1];
      assert events == init + [events[|events| - 1]];
      AtMostOnce(init, event);
    }
  }

  ghost predicate OneOfEach(l: Life) {
    && Times(l.log, HeadGiven) == (if l.headDone || l.done then 1 else 0)
    && Times(l.log, Done) == (if l.done then 1 else 0)
    && Times(l.log, ReqEndSent) <= 1 && Times(l.log, ResetSent) <= 1
    && (l.resEnded && !l.ws ==> Times(l.log, ReqEndSent) == 1)
    && (forall i, j :: 0 <= i < j < |l.log| && l.log[i] == ResetSent ==> l.log[j] != ReqEndSent)
  }

  /**
   * Whatever the agent sends and in whatever order: the visitor gets one head and onDone runs once,
   * both exactly when the stream is done; the agent gets at most one REQ_END and one RESET, no REQ_END
   * after the RESET, and a REQ_END whenever a response to an HTTP request has ended.
   */
  lemma OneHeadOneEnd(turns: seq<Turn>, id: nat)
    requires id in Lived(turns).streams
    ensures OneOfEach(Lived(turns).streams[id].life)
  {
    hide Lived;
    RunLives(turns);
    var l := Lived(turns).streams[id].life;
    assert LifeOk(Lived(turns).streams[id]);
    AtMostOnce(l.log, HeadGiven);
    AtMostOnce(l.log, Done);
    AtMostOnce(l.log, ReqEndSent);
    AtMostOnce(l.log, ResetSent);
  }

  /** Once onDone has run nothing more is shown, whatever the agent still sends. */
  lemma {:induction false} DoneIsFinal(turns: seq<Turn>, more: seq<Turn>, id: nat)
    requires id in Lived(turns).streams
    ensures id in Lived(turns + more).streams
    ensures Grows(Lived(turns).streams[id], Lived(turns + more).streams[id])
  {
    hide After;
    if more == [] {
      assert turns + more == turns;
    } else {
      var init := more[..|more| - 1];
      assert (turns + more)[..|turns + more| - 1] == turns + init;
      DoneIsFinal(turns, init, id);
      RunLives(turns + init);
      TurnLives(Lived(turns + init), more[|more| - 1]);
      assert Grows(Lived(turns + init).streams[id], Lived(turns + more).streams[id]);
    }
  }

  /** A frame the stream must not get now: repeated or unacceptable head, early or excessive body, early or repeated end. */
  predicate Violates(h: HttpStream, f: Frame) {
    match f
    case ResHead(_, head) =>
      h.life.headDone || !head.valid || !(200 <= head.status <= 599 || (h.life.ws && head.status == 101))
    case ResBody(_, data) =>
      !h.life.headDone ||
      (!h.life.resEnded && (
         h.held + |data| + h.ungranted > 1048576
         || (h.chain.hasWriter && h.chain.expected.Some? && h.chain.bodyBytes + |data| > h.chain.expected.value)))
    case ResEnd(_) => !h.life.headDone || h.life.resEnded
  }

  lemma ResetShown(l: Life)
    ensures !l.done ==> ResetLife(l, true).done && ResetSent in ResetLife(l, true).log
  {
  }

  lemma HeadVerdict(e: Edge, id: nat, head: Head)
    requires id in e.streams && !e.streams[id].life.done && ResetSent !in e.streams[id].life.log
    ensures var h, g := e.streams[id], OnResHead(e, id, head).streams;
      id in g &&
      if h.life.headDone || !AcceptableHead(h.life, head) then g[id].life.done && ResetSent in g[id].life.log
      else g[id].life.done == (head.status == 101) && ResetSent !in g[id].life.log
  {
    hide OnResHead, NullBody, AcceptableHead, ResetLife;
    HeadStreams(e, id, head);
    ResetShown(e.streams[id].life);
  }

  /** Refused bytes reset the stream and count as consumed. */
  lemma RefusedResets(e: Edge, id: nat, h: HttpStream, fault: bool, n: nat)
    requires id in e.streams && h.life == e.streams[id].life && !h.life.done
    ensures var g := Consumed(Reset(With(e, id, h).(fault := fault), id, true), id, n).streams;
      id in g && g[id].life.done && ResetSent in g[id].life.log
  {
    hide Reset, Consumed, ResetLife;
    ResetShown(h.life);
    var r := With(e, id, h).(fault := fault);
    ResetStreams(r, id, true);
    ConsumedStreams(Reset(r, id, true), id, n);
  }

  lemma BodyVerdict(e: Edge, id: nat, data: Bytes)
    requires id in e.streams && !e.streams[id].life.done && ResetSent !in e.streams[id].life.log
    ensures var h, g := e.streams[id], OnResBody(e, id, data).streams;
      id in g &&
      if Violates(h, ResBody(id, data)) then g[id].life.done && ResetSent in g[id].life.log
      else g[id].life == h.life
  {
    hide Reset, Consumed, GrantConn, ResetLife;
    var h := e.streams[id];
    var held := h.(held := h.held + |data|);
    GrantOnward(e, |data|);
    if !h.life.headDone {
      ResetStreams(GrantConn(e, |data|), id, true);
      ResetShown(h.life);
    } else if !h.life.resEnded {
      if h.held + |data| + h.ungranted > STREAM_WINDOW {
        RefusedResets(e, id, held, true, |data|);
        } else if !h.chain.hasWriter {
        ConsumedStreams(With(e, id, held), id, |data|);
      } else if TooLong(h, data) {
        var long := held.(chain := h.chain.(bodyBytes := BodyCount(h, data)));
        RefusedResets(e, id, long, e.fault, |data|);
        assert With(e, id, long).(fault := e.fault) == With(e, id, long);
      }
    }
  }

  lemma EndVerdict(e: Edge, id: nat)
    requires id in e.streams && !e.streams[id].life.done && ResetSent !in e.streams[id].life.log
    ensures var h, g := e.streams[id], OnResEnd(e, id).streams;
      id in g &&
      if !h.life.headDone || h.life.resEnded then g[id].life.done && ResetSent in g[id].life.log
      else !g[id].life.done && ResetSent !in g[id].life.log
  {
    hide Reset, ResetLife;
    ResetStreams(e, id, true);
    ResetShown(e.streams[id].life);
  }

  lemma ViolationResets(e: Edge, f: Frame)
    requires f.id in e.streams && LifeOk(e.streams[f.id]) && !e.streams[f.id].life.done && !Overflows(e, f)
    ensures f.id in AnyFrame(e, f).streams
    ensures var h, l := e.streams[f.id], AnyFrame(e, f).streams[f.id].life;
      if Violates(h, f) then l.done && ResetSent in l.log
      else l.done == (f.ResHead? && f.head.status == 101) && ResetSent !in l.log
  {
    hide OnResHead, OnResBody, OnResEnd;
    match f
    case ResHead(id, head) => HeadVerdict(e, id, head);
    case ResBody(id, data) => BodyVerdict(Received(e, |data|), id, data);
    case ResEnd(id) => EndVerdict(e, id);
  }

  /**
   * Such a frame ends an open stream at once, with one RESET to the agent and one head to the visitor;
   * any other frame leaves it open, a 101 head excepted.
   */
  lemma ViolationsEndTheStream(turns: seq<Turn>, f: Frame)
    requires f.id in Lived(turns).streams && !Lived(turns).streams[f.id].life.done && !Overflows(Lived(turns), f)
    ensures f.id in Lived(turns + [Arrive(f)]).streams
    ensures var h, l := Lived(turns).streams[f.id], Lived(turns + [Arrive(f)]).streams[f.id].life;
      if Violates(h, f) then l.done && Times(l.log, ResetSent) == 1 && Times(l.log, HeadGiven) == 1
      else l.done == (f.ResHead? && f.head.status == 101) && ResetSent !in l.log
  {
    hide Lived, AnyFrame;
    LivedSnoc(turns, Arrive(f));
    RunLives(turns);
    RunLives(turns + [Arrive(f)]);
    ViolationResets(Lived(turns), f);
    OneHeadOneEnd(turns + [Arrive(f)], f.id);
    var l := Lived(turns + [Arrive(f)]).streams[f.id].life;
    AtMostOnce(l.log, ResetSent);
  }

  lemma LivedSnoc(turns: seq<Turn>, t: Turn)
    ensures Lived(turns + [t]) == After(Lived(turns), t)
  {
    assert (turns + [t])[..|turns|] == turns;
  }

  // ---------------------------------------------------------------- the other events

  /** A stream begins: on its way, refused with the socket gone, or already left by its visitor. */
  lemma BeginVerdict(e: Edge, id: nat, ws: bool, headMethod: bool, how: StartOutcome)
    requires id > 0 && id !in e.streams
    ensures var f := After(e, Begin(id, ws, headMethod, how));
      id in f.streams &&
      var h := f.streams[id];
      && h.chain == Chain(false, None, 0, [], false, [], false)
      && h.life.log == (match how case Sent => [] case SendFailed => [HeadGiven, Done] case Aborted => [ResetSent, HeadGiven, Done])
      && (h.life.done <==> !how.Sent?) && !h.life.resEnded && h.life.headMethod == headMethod && h.life.ws == ws
  {
    hide Finish, Reset, FlushConn, AllDone;
    var h := NewStream(ws, headMethod);
    FinishStreams(With(e, id, h.(life := Note(h.life, HeadGiven))), id);
    ResetStreams(With(e, id, h), id, true);
    assert [] + [ResetSent] + [HeadGiven] + [Done] == [ResetSent, HeadGiven, Done];
  }

  /** The request pump's end is told to the agent once, and never by a stream that is done. */
  lemma PumpVerdict(e: Edge, id: nat)
    requires id in e.streams
    ensures var h, l := e.streams[id], e.streams[id].life;
      After(e, PumpEnds(id)).streams == e.streams[id :=
        if l.done || l.reqEndSent then h else h.(life := l.(reqEndSent := true, log := l.log + [ReqEndSent]))]
  {
  }

  /** The write chain moves: an open stream's next job is awaited, a done stream's is dropped. */
  lemma JobStartVerdict(e: Edge, id: nat)
    requires id in e.streams && !e.streams[id].chain.writing && e.streams[id].chain.jobs != []
    ensures var h, f := e.streams[id], After(e, JobStarts(id));
      id in f.streams &&
      var g := f.streams[id];
      if !h.life.done && (h.chain.jobs[0].WriteJob? || h.chain.hasWriter) then g == h.(chain := h.chain.(writing := true))
      else g.chain == h.chain.(jobs := h.chain.jobs[1..]) && g.life.done == (h.life.done || h.chain.jobs[0].CloseJob?)
  {
    hide GrantConn, Consumed, Finish;
    var h := e.streams[id];
    var rest := With(e, id, h.(chain := h.chain.(jobs := h.chain.jobs[1..])));
    FinishStreams(rest, id);
    if h.chain.jobs[0].WriteJob? {
      ConsumedStreams(rest, id, |h.chain.jobs[0].data|);
    }
  }

  /**
   * A settled write gave the visitor its bytes, or ended the stream; a settled close is clean exactly
   * when it succeeds at the declared length, and ends the stream either way.
   */
  lemma JobEndVerdict(e: Edge, id: nat, ok: bool)
    requires id in e.streams && e.streams[id].chain.writing && e.streams[id].chain.jobs != []
    ensures var h, f := e.streams[id], After(e, JobEnds(id, ok));
      id in f.streams &&
      var g, c := f.streams[id], h.chain;
      && g.chain.jobs == c.jobs[1..] && !g.chain.writing
      && match c.jobs[0]
         case WriteJob(data) =>
           && g.chain.got == (if ok then c.got + data else c.got) && g.chain.closed == c.closed
           && (ok ==> g.life == h.life)
           && (!ok ==> g.life.done && (!h.life.done ==> ResetSent in g.life.log))
         case CloseJob =>
           var clean := ok && (c.expected == None || c.expected == Some(|c.got|));
           && g.chain.got == c.got && g.life.done && g.chain.closed == (clean || c.closed)
           && (!h.life.done && !clean ==> ResetSent in g.life.log)
  {
    hide GrantConn, Consumed, Reset, Finish, ResetLife, Finished;
    var h := e.streams[id];
    var c := h.chain.(writing := false, jobs := h.chain.jobs[1..]);
    ResetShown(h.life);
    FinishedDone(h.life);
    ResetOnto(h, true);
    match h.chain.jobs[0]
    case WriteJob(data) =>
      if ok {
        ConsumedStreams(With(e, id, h.(chain := c.(got := c.got + data))), id, |data|);
      } else {
        ResetStreams(With(e, id, h.(chain := c)), id, true);
        ConsumedStreams(Reset(With(e, id, h.(chain := c)), id, true), id, |data|);
      }
    case CloseJob =>
      ResetStreams(With(e, id, h.(chain := c)), id, true);
      FinishStreams(With(e, id, h.(chain := c.(closed := true))), id);
  }

  /** The agent is lost when it goes, or sends more than the connection's window: every open stream ends without a RESET. */
  lemma LossVerdict(e: Edge, f: Frame, id: nat)
    requires id in e.streams
    ensures f.ResBody? && e.held + |f.data| > 8388608 ==> After(e, Arrive(f)) == After(e, Lost)
    ensures !(f.ResBody? && e.held + |f.data| > 8388608) ==> After(e, Arrive(f)) == OnFrame(e, f)
    ensures var g, l := After(e, Lost), e.streams[id].life;
      && g.held == 0 && g.connUngranted == 0 && id in g.streams
      && g.streams[id] == e.streams[id].(life :=
           if l.done then l
           else l.(headDone := true, done := true, log := l.log + if l.headDone then [Done] else [HeadGiven, Done]))
  {
    hide OnFrame;
    var l := e.streams[id].life;
    assert l.log + [HeadGiven] + [Done] == l.log + [HeadGiven, Done];
  }
}
