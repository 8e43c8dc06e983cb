/** The request direction's two mutable ends: the agent's session and the edge's pump. */
module RequestFlowObjects {
  import opened Limits
  import opened RequestFlow
  import opened Windows
  import opened RequestFlowSafety

  /** The agent's session with its HTTP streams (one critical section a method). */
  class Session {
    var registered: set<nat>
    var feeders: map<nat, Feeder>
    var connUngranted: nat
    var readerHand: Option<nat>
    var flushes: nat
    var maxSeen: nat
    var ctrl: seq<Grant>
    var wire: seq<Grant>
    var resets: seq<nat>
    var fault: bool

    ghost function View(): Agent
      reads this
    {
      Agent(registered, feeders, connUngranted, readerHand, flushes, maxSeen, ctrl, wire, resets, fault)
    }

    constructor ()
      ensures View() == Start.agent
    {
      registered, feeders, connUngranted := {}, map[], 0;
      readerHand, flushes, maxSeen := None, 0, 0;
      ctrl, wire, resets, fault := [], [], [], false;
    }

    /** Credit waits for a quarter of 8 MiB to gather, but only while some stream is registered. */
    method GrantConn(n: nat)
      modifies this
      ensures View() == RequestFlow.GrantConn(old(View()), n)
      ensures var u := old(connUngranted) + n;
        if u < 2097152 && old(registered) != {} then connUngranted == u && ctrl == old(ctrl)
        else connUngranted == 0 && ctrl == old(ctrl) + (if u > 0 then [Grant(0, u % 4294967296)] else [])
    {
      connUngranted := connUngranted + n;
      var grant := 0;
      if connUngranted >= CONN_WINDOW / 4 || |registered| == 0 {
        grant := connUngranted;
        connUngranted := 0;
      }
      if grant > 0 {
        ctrl := ctrl + [Grant(0, U32(grant))];
      }
    }

    /** Coalesced credit becomes a WINDOW frame of the same amount; nothing else moves. */
    method FlushConn()
      modifies this
      ensures View() == RequestFlow.FlushConn(old(View()))
      ensures connUngranted == 0
      ensures old(connUngranted) <= CONN_WINDOW ==> GrantSum(ctrl, 0) == old(connUngranted + GrantSum(ctrl, 0))
      ensures forall id: nat :: id > 0 ==> GrantSum(ctrl, id) == old(GrantSum(ctrl, id))
    {
      AppendGrantAll(ctrl, Grant(0, U32(connUngranted)));
      var grant := connUngranted;
      connUngranted := 0;
      if grant > 0 {
        ctrl := ctrl + [Grant(0, U32(grant))];
      }
    }

    /** From now on the stream's data is owed at once, and an idle session owes a flush. */
    method RemoveStream(id: nat)
      modifies this
      ensures View() == RequestFlow.Remove(old(View()), id)
      ensures forall k :: Accepts(View(), k) <==> k != id && Accepts(old(View()), k)
      ensures registered == {} ==> flushes > 0
      ensures GrantSum(ctrl, 0) + connUngranted == old(GrantSum(ctrl, 0) + connUngranted)
    {
      registered := registered - {id};
      if |registered| == 0 {
        flushes := flushes + 1;
      }
    }

    /**
     * A head above the high-water mark opens a stream unless it is refused; a body is queued while its
     * feeder runs and the window holds, and owed by the reader otherwise; REQ_END and RESET mark a
     * stream that is still registered. Nothing else changes.
     */
    method Dispatch(f: Frame, headOk: bool)
      modifies this
      ensures View() == RequestFlow.Dispatch(old(View()), f, headOk)
      ensures f.ReqHead? ==>
                View() == if f.id <= old(maxSeen) then old(View()).(fault := true)
                          else if !headOk then old(View()).(maxSeen := f.id, resets := old(resets) + [f.id])
                          else old(View()).(maxSeen := f.id, registered := old(registered) + {f.id},
                            feeders := if f.http then old(feeders)[f.id := Feeder([], 0, None, None, 0, false, false, false, Feeding, [], [], false)]
                                       else old(feeders))
      ensures f.ReqBody? ==>
                if f.id in old(registered) && f.id in old(feeders) && old(feeders)[f.id].phase in {Feeding, Leaving} then
                  var h := old(feeders)[f.id];
                  if h.queued + |f.data| <= 1048576
                  then View() == old(View()).(feeders := old(feeders)[f.id := h.(queue := h.queue + [f.data], queued := h.queued + |f.data|)])
                  else View() == old(View()).(feeders := old(feeders)[f.id := h.(cancelled := true)], readerHand := Some(|f.data|),
                                              resets := old(resets) + [f.id], fault := true)
                else View() == old(View()).(readerHand := Some(|f.data|))
      ensures f.ReqEnd? && f.id in old(registered) && f.id in old(feeders) ==>
                View() == old(View()).(feeders := old(feeders)[f.id := old(feeders)[f.id].(reqEnded := true)])
      ensures f.Reset? && f.id in old(registered) && f.id in old(feeders) ==>
                View() == old(View()).(feeders := old(feeders)[f.id := old(feeders)[f.id].(cancelled := true)])
      ensures (f.ReqEnd? || f.Reset?) && !(f.id in old(registered) && f.id in old(feeders)) ==> View() == old(View())
    {
      match f {
        case ReqHead(id, http) =>
          if id <= maxSeen {
            fault := true;
            return;
          }
          maxSeen := id;
          if !headOk {
            resets := resets + [id];
            return;
          }
          registered := registered + {id};
          if http {
            feeders := feeders[id := NewFeeder()];
          }
        case ReqBody(id, data) =>
          if id !in registered || id !in feeders || feeders[id].Fed() {
            readerHand := Some(|data|);
            return;
          }
          var h := feeders[id];
          if h.queued + |data| > STREAM_WINDOW {
            readerHand := Some(|data|);
            feeders := feeders[id := h.(cancelled := true)];
            resets := resets + [id];
            fault := true;
            return;
          }
          feeders := feeders[id := h.(queue := h.queue + [data], queued := h.queued + |data|)];
        case ReqEnd(id) =>
          if id in registered && id in feeders {
            feeders := feeders[id := feeders[id].(reqEnded := true)];
          }
        case Reset(id) =>
          if id in registered && id in feeders {
            feeders := feeders[id := feeders[id].(cancelled := true)];
          }
      }
    }

    /** The oldest chunk is taken under the lock: order, and what is owed for it, stay the same. */
    method TakeChunk(id: nat)
      requires CanPop(View(), id)
      modifies this
      ensures View() == Pop(old(View()), id)
      ensures Content(feeders[id]) == old(Content(feeders[id])) && Owed(feeders[id]) == old(Owed(feeders[id]))
      ensures old(FeederOk(feeders[id])) ==> FeederOk(feeders[id])
    {
      ChunkTaken(feeders[id]);
      var h := feeders[id];
      feeders := feeders[id := h.(cur := Some(h.queue[0]), queue := h.queue[1..])];
    }

    lemma ChunkTaken(h: Feeder)
      requires h.cur.None? && h.hand.None? && h.phase.Feeding? && h.queue != []
      ensures var t := h.(cur := Some(h.queue[0]), queue := h.queue[1..]);
        Content(t) == Content(h) && Owed(t) == Owed(h) && (FeederOk(h) ==> FeederOk(t))
    {
      assert h.drained + [] + (h.queue[0] + Flat(h.queue[1..])) == h.drained + h.queue[0] + Flat(h.queue[1..]);
    }

    /** The write to the app ends: `k` bytes were read, fewer than the chunk means it stopped reading. */
    method WriteChunk(id: nat, k: nat)
      requires CanWrite(View(), id)
      modifies this
      ensures View() == RequestFlow.Write(old(View()), id, k)
      ensures var h, g := old(feeders)[id], feeders[id]; var chunk := h.cur.value;
        && g.cur.None? && g.hand == Some(|chunk|) && g.queued == h.queued - |chunk| && g.drained == h.drained + chunk
        && g.discard == (h.discard || k < |chunk|)
        && g.got == (if h.discard then h.got else if k < |chunk| then h.got + chunk[..k] else h.got + chunk)
    {
      var h := feeders[id];
      var chunk := h.cur.value;
      if !h.discard {
        h := h.(got := h.got + chunk[..Min(k, |chunk|)], discard := k < |chunk|);
      }
      feeders := feeders[id := h.(cur := None, hand := Some(|chunk|), queued := h.queued - |chunk|,
                                  drained := h.drained + chunk)];
      assert old(feeders[id].discard) ==> old(feeders[id].got) + [] == old(feeders[id].got);
    }

    method GrantConsumed(id: nat)
      requires CanGrant(View(), id)
      modifies this
      ensures View() == GrantChunk(old(View()), id)
      ensures var u := old(feeders)[id].ungranted + old(feeders)[id].hand.value;
        if u < 262144 then feeders[id].ungranted == u
        else feeders[id].ungranted == 0 && ctrl != [] && ctrl[|ctrl| - 1] == Grant(id, u % 4294967296)
    {
      var h := feeders[id];
      GrantConn(h.hand.value);
      var ungranted := h.ungranted + h.hand.value;
      if ungranted >= STREAM_WINDOW / 4 {
        ctrl := ctrl + [Grant(id, U32(ungranted))];
        ungranted := 0;
      }
      feeders := feeders[id := h.(hand := None, ungranted := ungranted)];
    }

    /** One turn of feed's loop keeps the sum of what is queued, coalesced and granted. */
    method FeedChunk(id: nat, k: nat)
      requires CanPop(View(), id) && FeederOk(feeders[id]) && 0 < id
      requires connUngranted < CONN_WINDOW / 4 && connUngranted + feeders[id].queued <= CONN_WINDOW
      modifies this
      ensures View() == GrantChunk(RequestFlow.Write(Pop(old(View()), id), id, k), id)
      ensures FeederOk(feeders[id]) && feeders[id].queued <= old(feeders[id].queued)
      ensures connUngranted + feeders[id].queued <= CONN_WINDOW
      ensures connUngranted + GrantSum(ctrl, 0) + feeders[id].queued
           == old(connUngranted + GrantSum(ctrl, 0) + feeders[id].queued)
      ensures connUngranted < CONN_WINDOW / 4 && |feeders[id].queue| == old(|feeders[id].queue|) - 1
      ensures Content(feeders[id]) == old(Content(feeders[id])) && feeders[id].cur.None? && feeders[id].hand.None?
    {
      ghost var a := View();
      TakeChunk(id);
      ghost var h := feeders[id];
      PopContent(a.feeders[id], h);
      WriteChunk(id, k);
      WrittenContent(h, k);
      ghost var c := View();
      hide Flat, GrantSum, FeederOk, GrantChunk;
      WrittenOwes(a, c, id, k);
      GrantConsumed(id);
      GrantChunkLaw(c, id, 0);
      assert Content(feeders[id]) == Content(c.feeders[id]);
    }

    lemma WrittenOwes(a: Agent, c: Agent, id: nat, k: nat)
      requires CanPop(a, id) && FeederOk(a.feeders[id]) && c == RequestFlow.Write(Pop(a, id), id, k)
      ensures CanGrant(c, id) && FeederOk(c.feeders[id])
      ensures c.feeders[id].queued >= 0 && c.connUngranted == a.connUngranted && c.ctrl == a.ctrl
      ensures c.feeders[id].hand.value + c.feeders[id].queued == a.feeders[id].queued
      ensures c.feeders[id].queue == a.feeders[id].queue[1..] && c.feeders[id].cur.None?
      ensures Content(c.feeders[id]) == Content(a.feeders[id])
    {
      var h := a.feeders[id];
      var h' := h.(cur := Some(h.queue[0]), queue := h.queue[1..]);
      PopContent(h, h');
      WrittenContent(h', k);
    }

    /** The reader queues one chunk of the stream. */
    method ArriveOne(id: nat, chunk: Bytes)
      requires Accepts(View(), id) && FeederOk(feeders[id]) && feeders[id].queued + |chunk| <= STREAM_WINDOW
      modifies this
      ensures View() == old(View()).(feeders := feeders) && id in feeders && FeederOk(feeders[id])
      ensures feeders[id] == old(feeders[id]).(queue := old(feeders[id].queue) + [chunk], queued := old(feeders[id].queued) + |chunk|)
      ensures Content(feeders[id]) == old(Content(feeders[id])) + chunk
    {
      hide Content, Flat, FeederOk;
      EnqueuedFeeder(View(), id, chunk);
      EnqueueContent(feeders[id], chunk);
      Dispatch(ReqBody(id, chunk), true);
    }

    method Arrive(id: nat, chunks: seq<Bytes>)
      requires Accepts(View(), id) && FeederOk(feeders[id]) && feeders[id].queued + |Flat(chunks)| <= STREAM_WINDOW
      modifies this
      ensures View() == old(View()).(feeders := feeders) && id in feeders && FeederOk(feeders[id])
      ensures feeders[id] == old(feeders[id]).(queue := old(feeders[id].queue) + chunks, queued := old(feeders[id].queued) + |Flat(chunks)|)
      ensures Content(feeders[id]) == old(Content(feeders[id])) + Flat(chunks)
    {
      hide Content, Flat, FeederOk;
      FlatNone();
      assert Content(feeders[id]) + [] == Content(feeders[id]);
      for i := 0 to |chunks|
        invariant View() == old(View()).(feeders := feeders) && id in feeders && FeederOk(feeders[id])
        invariant feeders[id]
               == old(feeders[id]).(queue := old(feeders[id].queue) + chunks[..i], queued := old(feeders[id].queued) + |Flat(chunks[..i])|)
        invariant Content(feeders[id]) == old(Content(feeders[id])) + Flat(chunks[..i])
      {
        FlatNext(chunks, i);
        assert old(feeders[id].queue) + chunks[..i] + [chunks[i]] == old(feeders[id].queue) + chunks[..i + 1];
        assert old(Content(feeders[id])) + Flat(chunks[..i]) + chunks[i] == old(Content(feeders[id])) + Flat(chunks[..i + 1]);
        ArriveOne(id, chunks[i]);
      }
      assert chunks[..|chunks|] == chunks;
    }

    lemma FlatNext(q: seq<Bytes>, i: nat)
      requires i < |q|
      ensures Flat(q[..i + 1]) == Flat(q[..i]) + q[i] && |Flat(q[..i + 1])| <= |Flat(q)|
    {
      assert q[..i + 1] == q[..i] + [q[i]];
      AppendChunk(q[..i], q[i]);
      assert q == q[..i + 1] + q[i + 1..];
      FlatConcat(q[..i + 1], q[i + 1..]);
    }

    lemma FlatNone()
      ensures Flat([]) == []
    {
    }

    /** What one turn of the loop leaves for the next. */
    ghost predicate Between(id: nat)
      reads this
    {
      && id in feeders && 0 < id && feeders[id].phase.Feeding? && FeederOk(feeders[id])
      && feeders[id].cur.None? && feeders[id].hand.None? && feeders[id].queued <= STREAM_WINDOW
      && connUngranted < CONN_WINDOW / 4
    }

    /** Credit the stream's data stands for, wherever it is on the agent. */
    ghost function Standing(id: nat): int
      reads this
      requires id in feeders
    {
      connUngranted + GrantSum(ctrl, 0) + feeders[id].queued
    }

    method FeedTurn(id: nat, k: nat)
      requires Between(id) && feeders[id].queue != []
      modifies this
      ensures Between(id) && Standing(id) == old(Standing(id)) && Content(feeders[id]) == old(Content(feeders[id]))
      ensures feeders[id].queue == old(feeders[id].queue[1..]) && registered == old(registered)
      ensures feeders[id].reqEnded == old(feeders[id].reqEnded)
    {
      hide Content, Flat, FeederOk, GrantSum;
      ghost var a := View();
      FeedChunk(id, k);
      TurnKeeps(a, id, k);
    }

    lemma TurnKeeps(a: Agent, id: nat, k: nat)
      requires CanPop(a, id)
      ensures var b := GrantChunk(RequestFlow.Write(Pop(a, id), id, k), id);
        && b.feeders[id].phase == a.feeders[id].phase && b.feeders[id].queue == a.feeders[id].queue[1..]
        && b.registered == a.registered && b.feeders[id].reqEnded == a.feeders[id].reqEnded
    {
    }

    method Drain(id: nat, appReads: seq<nat>)
      requires Between(id)
      modifies this
      ensures Between(id) && Standing(id) == old(Standing(id)) && Content(feeders[id]) == old(Content(feeders[id]))
      ensures feeders[id].queue == [] && feeders[id].reqEnded == old(feeders[id].reqEnded)
    {
      hide Content, Flat, FeederOk, GrantSum, Standing;
      var turn := 0;
      while |feeders[id].queue| > 0
        invariant Between(id) && Standing(id) == old(Standing(id)) && Content(feeders[id]) == old(Content(feeders[id]))
        invariant feeders[id].reqEnded == old(feeders[id].reqEnded)
        decreases |feeders[id].queue|
      {
        FeedTurn(id, if turn < |appReads| then appReads[turn] else MAX_BODY_CHUNK);
        turn := turn + 1;
      }
    }

    /** Every batch fits the window when it arrives, one chunk having left the queue at each turn before. */
    ghost predicate Fit(queue: seq<Bytes>, arrivals: seq<seq<Bytes>>)
      decreases |arrivals|
    {
      arrivals == [] ||
        var q := queue + arrivals[0];
        |Flat(q)| <= STREAM_WINDOW && Fit(if q == [] then q else q[1..], arrivals[1..])
    }

    function FlatOver(arrivals: seq<seq<Bytes>>): Bytes {
      if arrivals == [] then [] else FlatOver(arrivals[..|arrivals| - 1]) + Flat(arrivals[|arrivals| - 1])
    }

    /**
     * feed from its start to its end while the reader queues `arrivals`, a batch before each turn, and
     * then the end or a cancellation: everything queued is taken in order, each of its bytes comes
     * back as connection credit exactly once, and only a clean end is an end of file.
     */
    method Feed(id: nat, appReads: seq<nat>, arrivals: seq<seq<Bytes>>, ended: bool)
      requires Accepts(View(), id) && Between(id) && !feeders[id].reqEnded && Fit(feeders[id].queue, arrivals)
      modifies this
      ensures id in feeders && feeders[id].phase.Gone?
      ensures feeders[id].drained == old(Content(feeders[id])) + FlatOver(arrivals)
      ensures feeders[id].eof == (ended && !feeders[id].discard)
      ensures connUngranted == 0
      ensures GrantSum(ctrl, 0) == old(Standing(id)) + |FlatOver(arrivals)|
    {
      FeedArrivals(id, appReads, arrivals);
      if ended {
        Dispatch(ReqEnd(id), true);
      } else {
        Dispatch(Reset(id), true);
      }
      Drain(id, if |arrivals| <= |appReads| then appReads[|arrivals|..] else []);
      Settle(id);
    }

    /** The exit: nothing is left in the queue, and whatever is coalesced is flushed. */
    method Settle(id: nat)
      requires Between(id) && feeders[id].queue == []
      modifies this
      ensures id in feeders && feeders[id].phase.Gone? && connUngranted == 0
      ensures feeders[id].drained == old(Content(feeders[id])) && feeders[id].eof == (old(feeders[id].reqEnded) && !feeders[id].discard)
      ensures GrantSum(ctrl, 0) == old(Standing(id))
    {
      var h := feeders[id];
      assert h.drained + [] + [] == h.drained;
      feeders := feeders[id := h.(phase := Gone, eof := h.reqEnded && !h.discard)];
      FlushConn();
    }

    method FeedArrivals(id: nat, appReads: seq<nat>, arrivals: seq<seq<Bytes>>)
      requires Accepts(View(), id) && Between(id) && !feeders[id].reqEnded && Fit(feeders[id].queue, arrivals)
      modifies this
      ensures Accepts(View(), id) && Between(id) && !feeders[id].reqEnded
      ensures Standing(id) == old(Standing(id)) + |FlatOver(arrivals)|
      ensures Content(feeders[id]) == old(Content(feeders[id])) + FlatOver(arrivals)
    {
      hide Content, Flat, GrantSum;
      var turn := 0;
      assert arrivals[0..] == arrivals && Content(feeders[id]) + [] == Content(feeders[id]);
      while turn < |arrivals|
        invariant 0 <= turn <= |arrivals|
        invariant Accepts(View(), id) && Between(id) && !feeders[id].reqEnded
        invariant Fit(feeders[id].queue, arrivals[turn..])
        invariant Standing(id) == old(Standing(id)) + |FlatOver(arrivals[..turn])|
        invariant Content(feeders[id]) == old(Content(feeders[id])) + FlatOver(arrivals[..turn])
      {
        assert arrivals[turn..][0] == arrivals[turn] && arrivals[turn..][1..] == arrivals[turn + 1..];
        assert arrivals[..turn + 1][..turn] == arrivals[..turn];
        ghost var content := Content(feeders[id]);
        Batch(id, arrivals[turn], if turn < |appReads| then appReads[turn] else MAX_BODY_CHUNK);
        turn := turn + 1;
      }
      assert arrivals[..|arrivals|] == arrivals;
    }

    /** A batch arrives and the loop turns once, or still waits for its first chunk. */
    method Batch(id: nat, chunks: seq<Bytes>, k: nat)
      requires Accepts(View(), id) && Between(id) && !feeders[id].reqEnded && |Flat(feeders[id].queue + chunks)| <= STREAM_WINDOW
      modifies this
      ensures Accepts(View(), id) && Between(id) && !feeders[id].reqEnded
      ensures Standing(id) == old(Standing(id)) + |Flat(chunks)|
      ensures Content(feeders[id]) == old(Content(feeders[id])) + Flat(chunks)
      ensures var q := old(feeders[id].queue) + chunks; feeders[id].queue == if q == [] then q else q[1..]
    {
      FlatConcat(feeders[id].queue, chunks);
      hide Content, Flat, GrantSum, FeederOk;
      BatchFits(feeders[id], chunks);
      Arrive(id, chunks);
      if |feeders[id].queue| > 0 {
        FeedTurn(id, k);
      }
    }

    lemma BatchFits(h: Feeder, chunks: seq<Bytes>)
      requires FeederOk(h) && h.cur.None? && |Flat(h.queue + chunks)| <= STREAM_WINDOW
      ensures h.queued + |Flat(chunks)| <= STREAM_WINDOW
    {
      FlatConcat(h.queue, chunks);
    }

    lemma {:induction false} FlatConcat(p: seq<Bytes>, q: seq<Bytes>)
      ensures Flat(p + q) == Flat(p) + Flat(q)
    {
      if p == [] {
        assert p + q == q;
      } else {
        assert (p + q)[1..] == p[1..] + q;
        FlatConcat(p[1..], q);
      }
    }
  }
}
