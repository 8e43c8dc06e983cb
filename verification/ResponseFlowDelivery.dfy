/**
 * Responses that get through: when nothing cuts an exchange short, the visitor receives the local
 * body, all of it, and a clean end.
 */
module ResponseFlowDelivery {
  import opened Limits
  import opened ResponseFlow
  import opened ResponseFlowSafety
  import opened ResponseFlowInvariant

  // ---------------------------------------------------------------- what may cut an exchange short

  /** A valid final head of a status that carries a body, declaring no length or the right one. */
  predicate Plain(head: Head, body: Bytes) {
    && head.valid && 200 <= head.status <= 599 && head.status != 204 && head.status != 205 && head.status != 304
    && (head.length.None? || head.length.value == |body|)
  }

  /**
   * The steps that may: the request is a HEAD or never reaches the agent, the head is no plain one, the
   * stream is reset, or the visitor's side fails a write or the close.
   */
  predicate Disturbs(s: State, step: Step, id: nat) {
    Do(s, step) != s &&
    match step
    case DoStart(k, _, headMethod, how) => k == id && (headMethod || !how.Sent?)
    case DoSendHead(k, head) => k == id && k in s.agent.senders && !Plain(head, s.agent.senders[k].body)
    case DoReset(k, _) => k == id
    case DoEndJob(k, ok) => k == id && !ok
    case _ => false
  }

  ghost predicate Spared(steps: seq<Step>, id: nat) {
    forall i :: 0 <= i < |steps| ==> !Disturbs(Run(steps[..i]), steps[i], id)
  }

  // ---------------------------------------------------------------- invariant

  predicate NoneFor(w: seq<Frame>, id: nat) { forall f :: f in w ==> f.id != id }

  predicate NoHead(w: seq<Frame>, id: nat) { forall f :: f in w ==> !(f.ResHead? && f.id == id) }

  /** The stream's plain head comes before all its other frames, and once. */
  predicate HeadAhead(w: seq<Frame>, id: nat, body: Bytes) {
    w != [] && if w[0].id == id then w[0].ResHead? && Plain(w[0].head, body) && NoHead(w[1..], id) else HeadAhead(w[1..], id, body)
  }

  predicate EndsOnce(w: seq<Frame>, id: nat) {
    w == [] || if w[0] == ResEnd(id) then ResEnd(id) !in w[1..] else EndsOnce(w[1..], id)
  }

  predicate ExpectedOk(c: Chain, body: Bytes) {
    c.expected.None? || (c.expected.value == |body| && c.bodyBytes == |c.got| + |JobBytes(c.jobs)|)
  }

  ghost predicate SmoothSender(p: Sender, h: HttpStream, w: seq<Frame>, id: nat) {
    && (p.hand != [] || p.endSent ==> p.headSent)
    && (!p.headSent ==> !h.life.headDone && NoneFor(w, id))
    && (p.headSent && !h.life.headDone ==> HeadAhead(w, id, p.body))
    && (h.life.headDone ==> NoHead(w, id) && ExpectedOk(h.chain, p.body))
    && EndsOnce(w, id) && (h.life.resEnded ==> p.endSent && ResEnd(id) !in w)
    && (p.endSent ==> ResEnd(id) in w || h.life.resEnded)
  }

  /** Nothing went wrong at the edge: the stream is done only once the visitor's body is closed. */
  ghost predicate SmoothStream(h: HttpStream) {
    && !h.life.headMethod
    && (h.life.done <==> h.chain.closed)
    && (h.life.headDone <==> h.chain.hasWriter)
    && (!h.life.headDone ==> h.chain.bodyBytes == 0)
    && (h.life.resEnded ==> CloseJob in h.chain.jobs || h.chain.closed)
  }

  ghost predicate Smooth(s: State, id: nat) {
    id in s.edge.streams ==>
      && SmoothStream(s.edge.streams[id])
      && (id !in s.agent.senders ==> !s.edge.streams[id].life.headDone)
      && (id in s.agent.senders ==> SmoothSender(s.agent.senders[id], s.edge.streams[id], Channel(s.agent), id))
  }

  // ---------------------------------------------------------------- the channel

  lemma AppendHeadAhead(w: seq<Frame>, f: Frame, id: nat, body: Bytes)
    requires HeadAhead(w, id, body) && !(f.ResHead? && f.id == id)
    ensures HeadAhead(w + [f], id, body)
  {
    assert (w + [f])[1..] == w[1..] + [f];
    if w[0].id != id {
      AppendHeadAhead(w[1..], f, id, body);
    }
  }

  lemma FirstHead(w: seq<Frame>, head: Head, id: nat, body: Bytes)
    requires NoneFor(w, id) && Plain(head, body)
    ensures HeadAhead(w + [ResHead(id, head)], id, body)
  {
    if w == [] {
      assert w + [ResHead(id, head)] == [ResHead(id, head)];
    } else {
      assert (w + [ResHead(id, head)])[1..] == w[1..] + [ResHead(id, head)];
      assert w[0] in w;
      FirstHead(w[1..], head, id, body);
    }
  }

  lemma AppendEnds(w: seq<Frame>, f: Frame, id: nat)
    requires EndsOnce(w, id) && (f == ResEnd(id) ==> ResEnd(id) !in w)
    ensures EndsOnce(w + [f], id)
  {
    if w == [] {
      assert w + [f] == [f];
    } else {
      assert (w + [f])[1..] == w[1..] + [f];
      if w[0] != ResEnd(id) {
        AppendEnds(w[1..], f, id);
      }
    }
  }

  /** A frame of the stream that is no head, or of another stream, joins the channel. */
  lemma SmoothAppend(p: Sender, h: HttpStream, w: seq<Frame>, f: Frame, id: nat)
    requires SmoothSender(p, h, w, id) && !(f.ResHead? && f.id == id) && f != ResEnd(id)
    requires f.id == id ==> p.headSent
    ensures SmoothSender(p, h, w + [f], id)
  {
    hide HeadAhead, EndsOnce, ExpectedOk, Plain;
    AppendEnds(w, f, id);
    if p.headSent && !h.life.headDone {
      AppendHeadAhead(w, f, id, p.body);
    }
  }

  /** A frame of another stream leaves the channel. */
  lemma SmoothPop(p: Sender, h: HttpStream, w: seq<Frame>, id: nat)
    requires w != [] && w[0].id != id && SmoothSender(p, h, w, id)
    ensures SmoothSender(p, h, w[1..], id)
  {
    hide ExpectedOk, Plain;
  }

  // ---------------------------------------------------------------- the agent

  lemma SendHeadSmooth(s: State, k: nat, head: Head, id: nat)
    requires Inv(s) && Smooth(s, id) && !Disturbs(s, DoSendHead(k, head), id)
    ensures Smooth(StepSendHead(s, k, head), id)
  {
    hide HeadAhead, EndsOnce, ExpectedOk, NoneFor, NoHead, Inv, SmoothStream, Plain;
    if Ready(s.agent, k) && !s.agent.senders[k].headSent && id in s.edge.streams && id in s.agent.senders {
      var w, f := Channel(s.agent), ResHead(k, head);
      assert Channel(StepSendHead(s, k, head).agent) == w + [f];
      if k == id {
        assert Do(s, DoSendHead(k, head)).agent.senders[id].headSent;
        FirstHead(w, head, id, s.agent.senders[id].body);
        AppendEnds(w, f, id);
      } else {
        SmoothAppend(s.agent.senders[id], s.edge.streams[id], w, f, id);
      }
    }
  }

  lemma SendBodySmooth(s: State, k: nat, id: nat)
    requires Inv(s) && Smooth(s, id)
    ensures Smooth(StepSendBody(s, k), id)
  {
    hide HeadAhead, EndsOnce, ExpectedOk, NoneFor, NoHead, Inv, SmoothStream;
    if Holding(s.agent, k) && id in s.edge.streams && id in s.agent.senders {
      var w, f := Channel(s.agent), ResBody(k, s.agent.senders[k].hand);
      assert Channel(StepSendBody(s, k).agent) == w + [f];
      SmoothAppend(s.agent.senders[id], s.edge.streams[id], w, f, id);
    }
  }

  lemma SendEndSmooth(s: State, k: nat, id: nat)
    requires Inv(s) && Smooth(s, id)
    ensures Smooth(StepSendEnd(s, k), id)
  {
    hide HeadAhead, EndsOnce, ExpectedOk, NoneFor, NoHead, SmoothStream, CreditOk, Carried, Global;
    if Ready(s.agent, k) && s.agent.senders[k].headSent && s.agent.senders[k].taken == |s.agent.senders[k].body|
       && id in s.edge.streams && id in s.agent.senders {
      var w, f := Channel(s.agent), ResEnd(k);
      assert Channel(StepSendEnd(s, k).agent) == w + [f];
      if k == id {
        EndNotYet(s, id);
        AppendEnds(w, f, id);
        if !s.edge.streams[id].life.headDone {
          AppendHeadAhead(w, f, id, s.agent.senders[id].body);
        }
        assert f in w + [f];
        StillNoHead(w, f, id);
      } else {
        SmoothAppend(s.agent.senders[id], s.edge.streams[id], w, f, id);
      }
    }
  }

  lemma StillNoHead(w: seq<Frame>, f: Frame, id: nat)
    requires f.ResEnd?
    ensures NoHead(w, id) ==> NoHead(w + [f], id)
  {
  }

  lemma EndNotYet(s: State, id: nat)
    requires Inv(s) && id in s.agent.senders && !s.agent.senders[id].stopped
    ensures ResEnd(id) !in Channel(s.agent)
    ensures !s.agent.senders[id].endSent
  {
    hide EndLast, BytesOf, Carried, CreditOk, HttpOk;
    assert StreamOk(s, id);
    assert SenderOk(s.agent.senders[id]);
  }

  /** Steps of the sender that queue nothing. */
  lemma QuietSmooth(s: State, t: State, id: nat)
    requires Smooth(s, id) && Channel(t.agent) == Channel(s.agent) && t.edge.streams == s.edge.streams
    requires id in t.agent.senders <==> id in s.agent.senders
    requires id in s.agent.senders ==>
      var p, q := s.agent.senders[id], t.agent.senders[id];
      q.body == p.body && q.headSent == p.headSent && q.endSent == p.endSent && (q.hand != [] ==> p.headSent || p.hand != [])
    ensures Smooth(t, id)
  {
    hide HeadAhead, EndsOnce, ExpectedOk, NoneFor, NoHead, SmoothStream, Channel;
  }

  lemma OpenSmooth(s: State, k: nat, body: Bytes, id: nat)
    requires Inv(s) && Smooth(s, id)
    ensures Smooth(StepOpen(s, k, body), id)
  {
    hide HeadAhead, EndsOnce, ExpectedOk, StreamOk, LogOk, Booked, Coalesced, ConnOk;
    NoneEnds(Channel(s.agent), id);
  }

  lemma {:induction false} NoneEnds(w: seq<Frame>, id: nat)
    ensures NoneFor(w, id) ==> ResEnd(id) !in w
    ensures ResEnd(id) !in w ==> EndsOnce(w, id)
  {
    if w != [] {
      NoneEnds(w[1..], id);
    }
  }

  lemma AgentSmooth(s: State, step: Step, id: nat)
    requires Inv(s) && Smooth(s, id) && !Disturbs(s, step, id)
    requires step.DoOpen? || step.DoSendHead? || step.DoAcquire? || step.DoSendBody? || step.DoCancelBody? || step.DoSendEnd?
          || step.DoStop? || step.DoRemove? || step.DoWriteData? || step.DoAgentReceive?
    ensures Smooth(Do(s, step), id)
  {
    hide Inv, Smooth, StepOpen, StepSendHead, StepSendBody, StepSendEnd;
    match step
    case DoOpen(k, body) => OpenSmooth(s, k, body, id);
    case DoSendHead(k, head) => SendHeadSmooth(s, k, head, id);
    case DoSendBody(k) => SendBodySmooth(s, k, id);
    case DoSendEnd(k) => SendEndSmooth(s, k, id);
    case _ => QuietSmooth(s, Do(s, step), id);
  }

  // ---------------------------------------------------------------- the edge

  /** One stream of the edge changes, and the channel does not. */
  lemma EdgeSmooth(s: State, f: Edge, k: nat, g: HttpStream, id: nat)
    requires Smooth(s, id) && k in s.edge.streams && f.streams == s.edge.streams[k := g]
    requires k == id ==> SmoothStream(g) && g.life.headDone == s.edge.streams[id].life.headDone
                         && g.life.resEnded == s.edge.streams[id].life.resEnded
    requires k == id && id in s.agent.senders && g.life.headDone ==> ExpectedOk(g.chain, s.agent.senders[id].body)
    ensures Smooth(s.(edge := f), id)
  {
    hide HeadAhead, EndsOnce, ExpectedOk, NoneFor, NoHead, SmoothStream, Channel;
  }

  lemma StartSmooth(s: State, k: nat, ws: bool, headMethod: bool, how: StartOutcome, id: nat)
    requires Inv(s) && Smooth(s, id) && !Disturbs(s, DoStart(k, ws, headMethod, how), id)
    ensures Smooth(StepStart(s, k, ws, headMethod, how), id)
  {
    hide SmoothSender, StreamOk, HttpOk, Booked, Coalesced, ConnOk, OnStart, ResetLife, Finished;
    if k > 0 && k !in s.edge.streams {
      StartLaw(s.edge, k, ws, headMethod, how);
      if k == id {
        assert id in StepStart(s, k, ws, headMethod, how).edge.streams;
      }
    }
  }

  lemma PumpEndSmooth(s: State, k: nat, id: nat)
    requires Inv(s) && Smooth(s, id)
    ensures Smooth(StepPumpEnd(s, k), id)
  {
    hide Inv, SmoothSender;
    if k in s.edge.streams {
      ReqEndFlags(s.edge.streams[k].life);
      PumpMethod(s.edge.streams[k].life);
      ExpectedNow(s, id);
      EdgeSmooth(s, StepPumpEnd(s, k).edge, k, s.edge.streams[k].(life := SendReqEnd(s.edge.streams[k].life)), id);
    }
  }

  lemma PumpMethod(l: Life)
    ensures SendReqEnd(l).headMethod == l.headMethod
  {
  }

  lemma ExpectedNow(s: State, id: nat)
    requires Smooth(s, id)
    ensures id in s.edge.streams && id in s.agent.senders && s.edge.streams[id].life.headDone ==>
      ExpectedOk(s.edge.streams[id].chain, s.agent.senders[id].body)
  {
  }

  /** A job starts: nothing is dropped, because the stream is not done while jobs are left. */
  lemma StartedSmooth(h: HttpStream)
    requires HttpOk(h) && SmoothStream(h) && h.chain.jobs != []
    ensures Started(h) == h.(chain := h.chain.(writing := true))
  {
    hide LogOk, JobBytes;
    if h.chain.jobs[0].CloseJob? {
      assert CloseJob in h.chain.jobs;
    }
  }

  lemma StartJobSmooth(s: State, k: nat, id: nat)
    requires Inv(s) && Smooth(s, id)
    ensures Smooth(StepStartJob(s, k), id)
  {
    hide SmoothSender, LogOk, ChainOk, StartJob, Started, Effect, ConnOk, Booked, Coalesced, StreamOk;
    if CanStartJob(s.edge, k) {
      var h := s.edge.streams[k];
      PartsNonNegative(s, k);
      StartFlags(h);
      StartEffect(s.edge, k);
      EffectStreams(s.edge, StartJob(s.edge, k), k, Started(h), 0);
      ExpectedNow(s, id);
      if k == id {
        StartedSmooth(h);
      }
      EdgeSmooth(s, StartJob(s.edge, k), k, Started(h), id);
    }
  }

  lemma EffectStreams(e: Edge, f: Edge, id: nat, g: HttpStream, n: nat)
    requires id in e.streams && Effect(e, f, id, g, n)
    ensures f.streams == e.streams[id := g]
  {
  }

  /** A write or the close succeeds; the close does because the body is all there. */
  lemma SettledSmooth(p: Sender, h: HttpStream, flight: Bytes)
    requires HttpOk(h) && SmoothStream(h) && h.chain.jobs != [] && h.chain.writing
    requires p.taken <= |p.body| && Carried(p, h, flight) && ExpectedOk(h.chain, p.body)
    ensures var g := Settled(h, true);
      SmoothStream(g) && ExpectedOk(g.chain, p.body) && g.life.headDone == h.life.headDone && g.life.resEnded == h.life.resEnded
  {
    hide LogOk, JobBytes;
    TakeJob(h);
    FinishedFlags(h.life);
    FinishedMethod(h.life);
    if h.chain.jobs[0].WriteJob? {
      assert h.chain.jobs == [h.chain.jobs[0]] + h.chain.jobs[1..];
    }
  }

  lemma FinishedMethod(l: Life)
    ensures Finished(l).headMethod == l.headMethod
  {
  }

  lemma EndJobSmooth(s: State, k: nat, ok: bool, id: nat)
    requires Inv(s) && Smooth(s, id) && !Disturbs(s, DoEndJob(k, ok), id)
    ensures Smooth(StepEndJob(s, k, ok), id)
  {
    hide SmoothSender, SmoothStream, ExpectedOk, LogOk, ChainOk, EndJob, Settled, Effect, ConnOk, Booked, Coalesced, StreamOk;
    if CanEndJob(s.edge, k) {
      var h := s.edge.streams[k];
      PartsNonNegative(s, k);
      StartFlags(h);
      if h.chain.jobs[0].WriteJob? {
        SettleWriteEffect(s.edge, k, ok);
      } else {
        SettleCloseEffect(s.edge, k, ok);
      }
      EffectStreams(s.edge, EndJob(s.edge, k, ok), k, Settled(h, ok), 0);
      ExpectedNow(s, id);
      if k == id {
        OwnEndJob(s, id, ok);
      }
      EdgeSmooth(s, EndJob(s.edge, k, ok), k, Settled(h, ok), id);
    }
  }

  lemma SettledMoves(h: HttpStream, ok: bool)
    requires h.chain.jobs != [] && h.chain.writing
    ensures Settled(h, ok) != h
  {
    hide Finished, ResetLife;
    assert !Settled(h, ok).chain.writing;
  }

  lemma OwnEndJob(s: State, id: nat, ok: bool)
    requires Inv(s) && Smooth(s, id) && !Disturbs(s, DoEndJob(id, ok), id) && CanEndJob(s.edge, id)
    requires EndJob(s.edge, id, ok).streams == s.edge.streams[id := Settled(s.edge.streams[id], ok)]
    ensures ok
    ensures var h, g := s.edge.streams[id], Settled(s.edge.streams[id], ok);
      SmoothStream(g) && g.life.headDone == h.life.headDone && g.life.resEnded == h.life.resEnded
      && (id in s.agent.senders && g.life.headDone ==> ExpectedOk(g.chain, s.agent.senders[id].body))
  {
    hide SmoothSender, ExpectedOk, LogOk, EndJob, Settled, ConnOk, Booked, Coalesced, CreditOk, Carried, EndOk, JobBytes, Fits;
    var h := s.edge.streams[id];
    SettledMoves(h, ok);
    assert StreamOk(s, id);
    assert h.chain.jobs != [] && h.life.headDone;
    ExpectedNow(s, id);
    SettledSmooth(s.agent.senders[id], h, BytesOf(Channel(s.agent), id));
  }

  lemma ResetSmooth(s: State, k: nat, notify: bool, id: nat)
    requires Inv(s) && Smooth(s, id) && !Disturbs(s, DoReset(k, notify), id)
    ensures Smooth(StepReset(s, k, notify), id)
  {
    hide StreamOk, HttpOk, Booked, Coalesced, ConnOk, SmoothSender, SmoothStream, Effect, Reset, ResetLife;
    if k in s.edge.streams {
      PartsNonNegative(s, k);
      ResetEffect(s.edge, k, notify);
      var g := s.edge.streams[k].(life := ResetLife(s.edge.streams[k].life, notify));
      EffectStreams(s.edge, Reset(s.edge, k, notify), k, g, 0);
      if k != id {
        ExpectedNow(s, id);
        EdgeSmooth(s, Reset(s.edge, k, notify), k, g, id);
      } else {
        assert Do(s, DoReset(k, notify)) == StepReset(s, k, notify);
      }
    }
  }

  // ---------------------------------------------------------------- a frame arrives

  lemma HeadSmooth(p: Sender, h: HttpStream, w: seq<Frame>, head: Head, id: nat)
    requires HttpOk(h) && SmoothStream(h) && SmoothSender(p, h, w, id) && w != [] && w[0] == ResHead(id, head)
    ensures var g := HeadTaken(h, head); !h.life.done && SmoothStream(g) && SmoothSender(p, g, w[1..], id)
  {
    hide LogOk, Finished, ResetLife;
    assert w[0] in w;
    NoJobs();
  }

  lemma BodySmooth(p: Sender, h: HttpStream, w: seq<Frame>, data: Bytes, id: nat)
    requires HttpOk(h) && SmoothStream(h) && SmoothSender(p, h, w, id) && w != [] && w[0] == ResBody(id, data)
    requires p.taken <= |p.body| && Carried(p, h, BytesOf(w, id)) && !h.life.done
    ensures var g := BodyTaken(h, data); SmoothStream(g) && SmoothSender(p, g, w[1..], id)
  {
    hide LogOk, Finished, ResetLife, JobBytes;
    assert w[0] in w;
    AppendJob(h.chain.jobs, WriteJob(data));
    if !h.life.resEnded && h.chain.hasWriter {
      assert h.chain.got + JobBytes(h.chain.jobs) + (BytesOf(w, id) + p.hand) <= p.body[..p.taken];
    }
  }

  lemma EndSmooth(p: Sender, h: HttpStream, w: seq<Frame>, id: nat)
    requires HttpOk(h) && SmoothStream(h) && SmoothSender(p, h, w, id) && w != [] && w[0] == ResEnd(id) && p.endSent
    ensures var g := EndTaken(h); !h.life.done && SmoothStream(g) && SmoothSender(p, g, w[1..], id)
  {
    hide LogOk, Finished, ResetLife, JobBytes;
    assert w[0] in w;
    AppendJob(h.chain.jobs, CloseJob);
    ReqEndFlags(h.life.(resEnded := true));
    PumpMethod(h.life.(resEnded := true));
    NoneEnds(w[1..], id);
    assert JobBytes(h.chain.jobs) + [] == JobBytes(h.chain.jobs);
    assert CloseJob in h.chain.jobs + [CloseJob];
  }

  lemma OwnFrameSmooth(s: State, id: nat)
    requires Inv(s) && Smooth(s, id) && s.agent.wire != [] && s.agent.wire[0].id == id
    requires id in s.agent.senders && id in s.edge.streams
    ensures var g := Taken(s.edge.streams[id], s.agent.wire[0]);
      SmoothStream(g) && SmoothSender(s.agent.senders[id], g, Channel(s.agent)[1..], id)
  {
    hide SmoothSender, SmoothStream, HttpOk, HeadTaken, BodyTaken, EndTaken, Carried, BytesOf, ConnOk, Booked, Coalesced, CreditOk;
    var p, h, w, f := s.agent.senders[id], s.edge.streams[id], Channel(s.agent), s.agent.wire[0];
    assert StreamOk(s, id) && w[0] == f;
    match f
    case ResHead(_, head) => HeadSmooth(p, h, w, head, id);
    case ResEnd(_) => assert ResEnd(id) in w; EndSmooth(p, h, w, id);
    case ResBody(_, data) =>
      if h.life.done {
        DoneSmooth(p, h, w, id);
      } else {
        BodySmooth(p, h, w, data, id);
      }
  }

  lemma DoneSmooth(p: Sender, h: HttpStream, w: seq<Frame>, id: nat)
    requires HttpOk(h) && SmoothStream(h) && h.life.done && SmoothSender(p, h, w, id) && w != [] && w[0].ResBody?
    ensures SmoothSender(p, h, w[1..], id)
  {
    hide LogOk, JobBytes, ExpectedOk;
  }

  lemma ReceiveSmooth(s: State, id: nat)
    requires Inv(s) && Smooth(s, id)
    ensures Smooth(StepEdgeReceive(s), id)
  {
    hide SmoothSender, SmoothStream, StreamOk, HttpOk, OnFrame, Taken, Effect, ConnOk, Booked, Coalesced, Channel;
    if s.agent.wire != [] {
      var f := s.agent.wire[0];
      var b := s.agent.(wire := s.agent.wire[1..]);
      FrameFits(s);
      FrameEffect(s.edge, f);
      EffectStreams(s.edge, OnFrame(s.edge, f), f.id, Taken(s.edge.streams[f.id], f), FrameLen(f));
      ChannelPop(s.agent);
      assert Channel(s.agent)[1..] == Channel(b) && Channel(s.agent)[0] == f;
      if id in s.edge.streams && id in s.agent.senders {
        if f.id == id {
          OwnFrameSmooth(s, id);
        } else {
          SmoothPop(s.agent.senders[id], s.edge.streams[id], Channel(s.agent), id);
        }
      }
    }
  }

  // ---------------------------------------------------------------- runs

  lemma StepSmooth(s: State, step: Step, id: nat)
    requires Inv(s) && Smooth(s, id) && !Disturbs(s, step, id)
    ensures Smooth(Do(s, step), id)
  {
    hide Inv, Smooth, StepStart, StepEdgeReceive, StepStartJob, StepEndJob, StepReset, StepPumpEnd, StepOpen, StepSendHead,
      StepAcquire, StepSendBody, StepCancelBody, StepSendEnd, StepStop, StepRemove, StepWriteData, StepAgentReceive;
    match step
    case DoStart(k, ws, headMethod, how) => StartSmooth(s, k, ws, headMethod, how, id);
    case DoEdgeReceive => ReceiveSmooth(s, id);
    case DoStartJob(k) => StartJobSmooth(s, k, id);
    case DoEndJob(k, ok) => EndJobSmooth(s, k, ok, id);
    case DoReset(k, notify) => ResetSmooth(s, k, notify, id);
    case DoPumpEnd(k) => PumpEndSmooth(s, k, id);
    case _ => AgentSmooth(s, step, id);
  }

  lemma {:induction false} RunSmooth(steps: seq<Step>, id: nat)
    requires Spared(steps, id)
    ensures Smooth(Run(steps), id)
  {
    hide Do, Disturbs, SmoothSender, SmoothStream;
    if steps != [] {
      var init := steps[..|steps| - 1];
      assert Spared(init, id) by { SparedPrefix(steps, id); }
      RunSmooth(init, id);
      RunKeeps(init);
      StepSmooth(Run(init), steps[|steps| - 1], id);
    }
  }

  lemma SparedPrefix(steps: seq<Step>, id: nat)
    requires Spared(steps, id) && steps != []
    ensures Spared(steps[..|steps| - 1], id)
  {
    hide Do, Disturbs, Run;
    var init := steps[..|steps| - 1];
    forall i | 0 <= i < |init|
      ensures !Disturbs(Run(init[..i]), init[i], id)
    {
      assert init[..i] == steps[..i];
    }
  }

  /**
   * A spared response reaches its visitor: the stream is done only with the whole body received and
   * closed, and it is, once the agent's end was sent and read and the write chain has come to rest.
   */
  lemma WholeBodyIsDelivered(steps: seq<Step>, id: nat)
    requires Spared(steps, id) && id in Run(steps).agent.senders && id in Run(steps).edge.streams
    ensures var p, h := Run(steps).agent.senders[id], Run(steps).edge.streams[id];
      && (h.life.done ==> h.chain.closed && h.chain.got == p.body)
      && (p.endSent && ResEnd(id) !in Channel(Run(steps).agent) && h.chain.jobs == [] ==>
            h.life.done && h.chain.closed && h.chain.got == p.body)
  {
    hide Run, Spared, HttpOk, HeadAhead, EndsOnce, ExpectedOk;
    RunSmooth(steps, id);
    RunKeeps(steps);
    assert StreamOk(Run(steps), id);
  }

  /**
   * A sender whose head is out is held up by nothing but its two credits: with both positive it takes
   * the next bytes of the body, as many as the smallest of the bounds allows.
   */
  lemma SenderAdvances(s: State, id: nat, want: nat)
    requires id in s.agent.senders
    ensures var p, q := s.agent.senders[id], Do(s, DoAcquire(id, want)).agent.senders;
      id in q &&
      if p.headSent && !p.stopped && p.hand == [] && p.taken < |p.body| && p.credit > 0 && s.agent.conn > 0 && want > 0 then
        && q[id].hand != [] && q[id].hand == p.body[p.taken..q[id].taken]
        && q[id].taken - p.taken <= want && q[id].taken - p.taken <= 65536
        && q[id].taken - p.taken <= p.credit && q[id].taken - p.taken <= s.agent.conn
        && (q[id].taken == |p.body| || q[id].taken - p.taken in {want as int, 65536, p.credit as int, s.agent.conn as int})
        && q[id].credit == p.credit - |q[id].hand| && Do(s, DoAcquire(id, want)).agent.conn == s.agent.conn - |q[id].hand|
      else p.taken <= |p.body| ==> q[id] == p
  {
  }

  /** What ends a sender, and what a WINDOW gives it and the connection. */
  lemma SenderVerdict(s: State, id: nat)
    requires id in s.agent.senders
    ensures var p := s.agent.senders[id];
      && (!p.stopped && p.hand == [] ==> Do(s, DoStop(id)).agent.senders == s.agent.senders[id := p.(stopped := true)])
      && (p.hand != [] ==> Do(s, DoCancelBody(id)).agent.senders == s.agent.senders[id := p.(hand := [], stopped := true)])
      && (p.stopped && p.hand == [] ==> Do(s, DoRemove(id)).agent.senders == s.agent.senders[id := p.(registered := false)])
      && (s.edge.wire != [] ==>
            var g, r := s.edge.wire[0], Do(s, DoAgentReceive);
            && r.edge.wire == s.edge.wire[1..]
            && (g.id == 0 ==>
                  r.agent == if s.agent.conn + g.n <= 2147483647 then s.agent.(conn := s.agent.conn + g.n) else s.agent.(fault := true))
            && (g.id == id > 0 && p.registered ==>
                  r.agent == if p.credit + g.n <= 2147483647
                             then s.agent.(senders := s.agent.senders[id := p.(credit := p.credit + g.n)]) else s.agent.(fault := true)))
  {
  }
}
