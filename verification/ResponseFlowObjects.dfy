/** The edge's mutable connection state: AgentConn and the HttpStreams in its map. */
module ResponseFlowObjects {
  import opened Limits
  import opened ResponseFlow
  import opened Sums
  import opened Windows
  import opened ResponseFlowSafety

  /** One agent connection at the edge; every method is one stretch without await. */
  class AgentConn {
    var held: int
    var connUngranted: nat
    var streams: map<nat, HttpStream>
    var wire: seq<Grant>
    var fault: bool

    ghost function View(): Edge
      reads this
    {
      Edge(held, connUngranted, streams, wire, fault)
    }

    constructor ()
      ensures View() == ResponseFlow.Start.edge
    {
      held, connUngranted, streams, wire, fault := 0, 0, map[], [], false;
    }

    /** conn.streams.size == 0: done streams have left the map. */
    method NoStreams() returns (none: bool)
      ensures none == AllDone(streams)
    {
      var left := streams.Keys;
      while left != {}
        invariant left <= streams.Keys
        invariant forall id :: id in streams && id !in left ==> streams[id].life.done
        decreases |left|
      {
        var id :| id in left;
        if !streams[id].life.done {
          return false;
        }
        left := left - {id};
      }
      return true;
    }

    method FlushConn()
      modifies this
      ensures View() == ResponseFlow.FlushConn(old(View()))
    {
      if connUngranted <= 0 {
        return;
      }
      var n := connUngranted;
      connUngranted := 0;
      held := if held < n then 0 else held - n;
      wire := wire + [Grant(0, U32(n))];
    }

    /** Coalesced up to a quarter window; a WINDOW at once when there, or when no stream is open. */
    method GrantConn(n: nat)
      modifies this
      ensures View() == ResponseFlow.GrantConn(old(View()), n)
      ensures streams == old(streams)
      ensures var sum := old(connUngranted) + n;
        if sum < 2097152 && exists id :: id in streams && !streams[id].life.done then
          connUngranted == sum && wire == old(wire)
        else
          connUngranted == 0 && (0 < sum < 0x1_0000_0000 ==> wire == old(wire) + [Grant(0, sum)])
    {
      connUngranted := connUngranted + n;
      var none := NoStreams();
      if connUngranted >= CONN_WINDOW / 4 || none {
        FlushConn();
      }
    }

    /**
     * The receive window faults exactly when the bytes the streams still hold, the coalesced ones and
     * the new ones exceed it; otherwise the new ones are now owed.
     */
    method Received(n: nat)
      modifies this
      ensures View() == ResponseFlow.Received(old(View()), n)
      ensures old(Booked(View(), 0)) ==>
                (fault <==> old(fault) || SumOver(streams, HeldOf) + connUngranted + n > CONN_WINDOW)
                && (fault || Booked(View(), n))
    {
      held := held + n;
      if held > CONN_WINDOW {
        fault := true;
      }
    }

    method Finish(id: nat)
      requires id in streams
      modifies this
      ensures View() == ResponseFlow.Finish(old(View()), id)
      ensures !old(streams[id]).life.done ==>
                var h := old(streams[id]);
                streams == old(streams)[id := h.(life := h.life.(done := true, log := h.life.log + [Done]))]
    {
      var h := streams[id];
      if h.life.done {
        return;
      }
      streams := streams[id := h.(life := Note(h.life, Done).(done := true))];
      var none := NoStreams();
      if none {
        FlushConn();
      }
    }

    /** An open stream is done, its head given if it was not, with a RESET exactly when asked. */
    method Reset(id: nat, notify: bool)
      requires id in streams
      modifies this
      ensures View() == ResponseFlow.Reset(old(View()), id, notify)
      ensures id in streams && streams == old(streams)[id := streams[id]]
      ensures var l := old(streams[id]).life;
        streams[id] == old(streams[id]).(life :=
          if l.done then l
          else l.(headDone := true, done := true,
                  log := l.log + (if notify then [ResetSent] else []) + (if l.headDone then [] else [HeadGiven]) + [Done]))
    {
      hide ResponseFlow.Finish;
      var h := streams[id];
      if h.life.done {
        assert streams[id := h] == streams;
        return;
      }
      var life := h.life;
      if notify {
        life := Note(life, ResetSent);
      }
      if !life.headDone {
        life := Note(life, HeadGiven).(headDone := true);
      }
      streams := streams[id := h.(life := life)];
      Finish(id);
      assert life.log + [Done] == h.life.log + (if notify then [ResetSent] else []) + (if h.life.headDone then [] else [HeadGiven]) + [Done];
    }

    lemma GrantTotal(e: Edge, n: nat)
      ensures ResponseFlow.GrantConn(e, n).streams == e.streams
    {
    }

    /** The bytes leave the stream; while it is open their credit is coalesced up to a quarter window. */
    method Consumed(id: nat, n: nat)
      requires id in streams
      modifies this
      ensures View() == ResponseFlow.Consumed(old(View()), id, n)
      ensures var h, sum := old(streams[id]), old(streams[id]).ungranted + n;
        if h.life.done || h.life.resEnded then streams == old(streams)[id := h.(held := h.held - n)]
        else if sum < 262144 then streams == old(streams)[id := h.(held := h.held - n, ungranted := sum)]
        else
          streams == old(streams)[id := h.(held := h.held - n, ungranted := 0)]
          && (sum < 0x1_0000_0000 ==> wire != [] && wire[|wire| - 1] == Grant(id, sum))
    {
      hide ResponseFlow.GrantConn;
      streams := streams[id := streams[id].(held := streams[id].held - n)];
      ghost var e := View();
      GrantConn(n);
      GrantTotal(e, n);
      var h := streams[id];
      if h.life.done || h.life.resEnded {
        return;
      }
      var ungranted := h.ungranted + n;
      if ungranted >= STREAM_WINDOW / 4 {
        wire := wire + [Grant(id, U32(ungranted))];
        ungranted := 0;
      }
      streams := streams[id := h.(ungranted := ungranted)];
    }

    method OnResHead(id: nat, head: Head)
      requires id in streams
      modifies this
      ensures View() == ResponseFlow.OnResHead(old(View()), id, head)
      ensures var h := old(streams[id]);
        id in streams &&
        if h.life.done then streams == old(streams)
        else if h.life.headDone || !head.valid || !(200 <= head.status <= 599 || (h.life.ws && head.status == 101)) then
          streams[id].life.done && streams[id].chain == h.chain
          && streams[id].life.log == h.life.log + [ResetSent] + (if h.life.headDone then [] else [HeadGiven]) + [Done]
        else if head.status == 101 then
          streams[id].life.done && streams[id].life.resEnded && streams[id].life.log == h.life.log + [HeadGiven, Done]
        else
          streams[id].life == h.life.(headDone := true, log := h.life.log + [HeadGiven])
          && streams[id].chain == if h.life.headMethod || head.status == 204 || head.status == 205 || head.status == 304 then h.chain
                                  else h.chain.(hasWriter := true, expected := head.length)
    {
      var h := streams[id];
      if h.life.headDone || h.life.done || !AcceptableHead(h.life, head) {
        Reset(id, true);
        return;
      }
      var life := Note(h.life, HeadGiven).(headDone := true);
      if head.status == 101 {
        streams := streams[id := h.(life := life.(resEnded := true))];
        Finish(id);
        return;
      }
      var chain := h.chain;
      if !NullBody(life, head.status) {
        chain := chain.(hasWriter := true, expected := head.length);
      }
      streams := streams[id := h.(life := life, chain := chain)];
    }

    method OnResBody(id: nat, data: Bytes)
      requires id in streams
      modifies this
      ensures View() == ResponseFlow.OnResBody(old(View()), id, data)
      ensures var h := old(streams[id]); var c, full := h.chain, h.held + |data| + h.ungranted > 1048576;
        var over := c.hasWriter && c.expected.Some? && c.bodyBytes + |data| > c.expected.value;
        id in streams &&
        if !h.life.headDone && !h.life.done then streams[id].life.done && ResetSent in streams[id].life.log && streams[id].chain == c
        else if h.life.resEnded || h.life.done then streams == old(streams)
        else if full || over then streams[id].life.done && ResetSent in streams[id].life.log && streams[id].chain.jobs == c.jobs
        else if !c.hasWriter then streams[id].life == h.life && streams[id].chain == c && streams[id].held == h.held
        else
          streams[id].life == h.life && streams[id].held == h.held + |data|
          && streams[id].chain == c.(jobs := c.jobs + [WriteJob(data)],
                                     bodyBytes := c.bodyBytes + if c.expected.Some? then |data| else 0)
    {
      hide ResponseFlow.Reset, ResponseFlow.Consumed, ResponseFlow.GrantConn;
      var h := streams[id];
      ghost var e := View();
      if !h.life.headDone || h.life.resEnded || h.life.done {
        GrantConn(|data|);
        if !h.life.headDone && !h.life.done {
          assert id in streams by { GrantTotal(e, |data|); }
          Reset(id, true);
        }
        return;
      }
      h := h.(held := h.held + |data|);
      if h.held + h.ungranted > STREAM_WINDOW {
        fault := true;
        ResetAndConsume(id, h, |data|);
        return;
      }
      if !h.chain.hasWriter {
        streams := streams[id := h];
        Consumed(id, |data|);
        return;
      }
      if h.chain.expected.Some? {
        h := h.(chain := h.chain.(bodyBytes := h.chain.bodyBytes + |data|));
        if h.chain.bodyBytes > h.chain.expected.value {
          ResetAndConsume(id, h, |data|);
          return;
        }
      }
      streams := streams[id := h.(chain := h.chain.(jobs := h.chain.jobs + [WriteJob(data)]))];
    }

    /** Stores the stream, resets it and drops the bytes it just received. */
    method ResetAndConsume(id: nat, h: HttpStream, n: nat)
      requires id in streams
      modifies this
      ensures id in ResponseFlow.Reset(With(old(View()), id, h), id, true).streams
      ensures View() == ResponseFlow.Consumed(ResponseFlow.Reset(With(old(View()), id, h), id, true), id, n)
      ensures id in streams && streams[id].chain == h.chain
      ensures !h.life.done ==> streams[id].life.done && ResetSent in streams[id].life.log
    {
      hide ResponseFlow.Reset, ResponseFlow.Consumed;
      streams := streams[id := h];
      ghost var e := View();
      Reset(id, true);
      ResetTotal(e, id);
      Consumed(id, n);
    }

    lemma ResetTotal(e: Edge, id: nat)
      requires id in e.streams
      ensures id in ResponseFlow.Reset(e, id, true).streams
    {
    }

    method OnResEnd(id: nat)
      requires id in streams
      modifies this
      ensures View() == ResponseFlow.OnResEnd(old(View()), id)
      ensures var h := old(streams[id]);
        id in streams &&
        if h.life.done then streams == old(streams)
        else if !h.life.headDone || h.life.resEnded then streams[id].life.done && ResetSent in streams[id].life.log && streams[id].chain == h.chain
        else
          streams[id].chain == h.chain.(jobs := h.chain.jobs + [CloseJob])
          && streams[id].life == h.life.(resEnded := true, reqEndSent := true,
                                         log := h.life.log + if h.life.reqEndSent then [] else [ReqEndSent])
    {
      var h := streams[id];
      if !h.life.headDone || h.life.resEnded || h.life.done {
        Reset(id, true);
        return;
      }
      var life := h.life.(resEnded := true);
      if !life.reqEndSent && !life.done {
        life := Note(life, ReqEndSent).(reqEndSent := true);
      }
      streams := streams[id := h.(life := life, chain := h.chain.(jobs := h.chain.jobs + [CloseJob]))];
    }

    /** Without a RESET the stream shows its head, if it was not given, and its end. */
    lemma GoneLogs(was: map<nat, HttpStream>, now: map<nat, HttpStream>)
      requires now.Keys == was.Keys
      requires forall id :: id in now ==> now[id] == was[id].(life := ResetLife(was[id].life, false))
      ensures forall id :: id in now && !was[id].life.done ==>
                now[id].life.log == was[id].life.log + (if was[id].life.headDone then [Done] else [HeadGiven, Done])
    {
    }

    /**
     * The agent is gone: each stream is reset once, without a RESET, whatever the order; no stream
     * stays open and no coalesced credit is kept.
     */
    method AgentGone()
      requires Booked(View(), 0) && Coalesced(View())
      modifies this
      ensures streams.Keys == old(streams.Keys) && AllDone(streams) && connUngranted == 0
      ensures forall id :: id in streams ==>
                streams[id] == old(streams[id]).(life := ResetLife(old(streams[id]).life, false))
      ensures forall id :: id in streams && !old(streams[id]).life.done ==>
                streams[id].life.log == old(streams[id]).life.log + (if old(streams[id]).life.headDone then [Done] else [HeadGiven, Done])
      ensures Booked(View(), 0) && EdgeSide(View()) == old(EdgeSide(View())) && fault == old(fault)
    {
      hide Booked, ResponseFlow.Reset, ResetLife, Finished, Broken, EdgeSide;
      var left := streams.Keys;
      while left != {}
        invariant left <= streams.Keys == old(streams.Keys)
        invariant forall id :: id in left ==> streams[id] == old(streams[id])
        invariant forall id :: id in streams && id !in left ==>
                    streams[id] == old(streams[id]).(life := ResetLife(old(streams[id]).life, false))
        invariant Booked(View(), 0) && Coalesced(View()) && EdgeSide(View()) == old(EdgeSide(View())) && fault == old(fault)
        decreases |left|
      {
        var id :| id in left;
        ghost var e := View();
        Reset(id, false);
        ResetLaw(e, id, false, 0);
        left := left - {id};
      }
      forall id | id in streams
        ensures streams[id].life.done
      {
        ResetDone(old(streams[id]).life, false);
      }
      GoneLogs(old(streams), streams);
    }
  }
}
