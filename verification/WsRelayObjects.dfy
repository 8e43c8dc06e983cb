/** The tunnel object's side of the relay: attachments, in-memory buffers and their loops. */
module WsRelayObjects {
  import opened Limits
  import opened WsRelay
  import opened WsRelaySafety

  class VisitorSockets {
    var visitors: map<nat, Visitor>
    var buffers: map<nat, seq<Bytes>>
    var buffered: int
    var out: seq<Frame>

    ghost function View(): Edge
      reads this
    {
      Edge(visitors, buffers, buffered, out)
    }

    constructor ()
      ensures View() == WsRelay.Start.edge && EdgeOk(View())
    {
      visitors, buffers, buffered, out := map[], map[], 0, [];
    }

    /** dropWsBuffer: takes the sizes off the total one by one. */
    method DropBuffer(id: nat)
      modifies this
      ensures View() == Unbuffered(old(View()), id)
    {
      var buffer := if id in buffers then buffers[id] else [];
      for i := 0 to |buffer|
        invariant View() == old(View()).(buffered := old(buffered) - Size(buffer[..i]))
      {
        buffered := buffered - |buffer[i]|;
        assert buffer[..i + 1] == buffer[..i] + [buffer[i]];
        SizeConcat(buffer[..i], [buffer[i]]);
        OneSize(buffer[i]);
      }
      assert buffer[..|buffer|] == buffer;
      buffers := buffers - {id};
    }

    method FailVisitor(id: nat)
      requires id in visitors
      modifies this
      ensures View() == Fail(old(View()), id)
      ensures visitors == old(visitors)[id := old(visitors[id]).(closed := true, pending := false)]
      ensures buffers == old(buffers) - {id} && out == old(out) + [WsClose(id)]
    {
      visitors := visitors[id := visitors[id].(closed := true, pending := false)];
      DropBuffer(id);
      out := out + [WsClose(id)];
    }

    /**
     * `served` is whether the visitor's agent socket is still there. An open visitor's message closes
     * it exactly when it is too big, unserved, or can neither be sent on nor buffered.
     */
    method OnVisitorMessage(id: nat, m: Bytes, served: bool)
      requires id in visitors
      modifies this
      ensures View() == if served then OnMessage(old(View()), id, m) else CloseByAgent(old(View()), id, true)
      ensures old(EdgeOk(View())) ==> EdgeOk(View())
      ensures var v, waiting := old(visitors[id]), if id in old(buffers) then old(buffers)[id] else [];
        var direct := v.outstanding < 8 && waiting == [];
        id in visitors &&
        if v.closed then visitors == old(visitors) && buffers == old(buffers) && out == old(out)
        else if !served || |m| > 1048576 || (!direct && (|waiting| >= 8 || old(buffered) + |m| > 8388608)) then
          visitors[id].closed && visitors[id].received == v.received && visitors[id].sent == v.sent
          && buffers == old(buffers) - {id} && out == old(out) + [WsClose(id)]
        else if direct then
          visitors[id] == v.(outstanding := v.outstanding + 1, received := v.received + [m], sent := v.sent + [m])
          && buffers == old(buffers) && out == old(out) + [WsMessage(id, m)]
        else
          visitors[id] == v.(pending := true, received := v.received + [m])
          && buffers == old(buffers)[id := waiting + [m]] && buffered == old(buffered) + |m| && out == old(out)
    {
      OutcomeKeeps(View(), id, m);
      var att := visitors[id];
      if att.closed {
        return;
      }
      if |m| > MAX_WS_MESSAGE {
        FailVisitor(id);
        return;
      }
      if !served {
        FailVisitor(id);
        return;
      }
      var buffer := if id in buffers then buffers[id] else [];
      if att.outstanding < WS_MSG_CREDIT && |buffer| == 0 {
        visitors := visitors[id := att.(outstanding := att.outstanding + 1, received := att.received + [m], sent := att.sent + [m])];
        out := out + [WsMessage(id, m)];
        return;
      }
      if |buffer| >= WS_MSG_CREDIT || buffered + |m| > WS_BUFFER_BUDGET {
        FailVisitor(id);
        return;
      }
      buffers := buffers[id := buffer + [m]];
      buffered := buffered + |m|;
      visitors := visitors[id := att.(pending := true, received := att.received + [m])];
    }

    lemma OutcomeKeeps(e: Edge, id: nat, m: Bytes)
      requires id in e.visitors
      ensures EdgeOk(e) ==> EdgeOk(OnMessage(e, id, m)) && EdgeOk(CloseByAgent(e, id, true))
    {
      hide EdgeOk, Moves, OnMessage;
      if EdgeOk(e) {
        MessageKeeps(e, id, m);
        if !e.visitors[id].closed {
          CloseKeeps(e, id, false, true);
        }
      }
    }

    lemma ReleaseOne(id: nat, all: seq<Bytes>, k: nat)
      requires k < |all|
      ensures all[..k + 1] == all[..k] + [all[k]] && all[k..][0] == all[k] && all[k..][1..] == all[k + 1..]
      ensures Size(all[..k + 1]) == Size(all[..k]) + |all[k]|
      ensures Frames(id, all[..k + 1]) == Frames(id, all[..k]) + [WsMessage(id, all[k])]
    {
      assert all[..k + 1] == all[..k] + [all[k]];
      SizeConcat(all[..k], [all[k]]);
      OneSize(all[k]);
    }

    lemma ReleaseNone(id: nat, all: seq<Bytes>)
      ensures all[..0] == [] && all[0..] == all && Size(all[..0]) == 0 && Frames(id, all[..0]) == []
    {
    }

    lemma ReleasedAll(att: Visitor, all: seq<Bytes>, n: nat, k: nat)
      requires k <= |all|
      requires var start := if att.outstanding < n then 0 else att.outstanding - n;
        (k == |all| || start + k >= WS_MSG_CREDIT) && (k > 0 ==> start + k <= WS_MSG_CREDIT)
      ensures k == Released(att, all, n)
    {
    }

    /** Lets buffered messages go one at a time while the acknowledged credit lasts. */
    method OnAckFrame(id: nat, n: nat)
      modifies this
      ensures View() == OnAck(old(View()), id, n)
      ensures id in old(visitors) ==>
        var v, waiting := old(visitors[id]), if id in old(buffers) then old(buffers)[id] else [];
        var left := if v.outstanding < n then 0 else v.outstanding - n;
        && id in visitors && v.sent <= visitors[id].sent
        && var k := |visitors[id].sent| - |v.sent|;
           && k <= |waiting| && visitors[id].sent == v.sent + waiting[..k] && visitors[id].outstanding == left + k
           && (if k == |waiting| then id !in buffers else left + k >= 8 && id in buffers && buffers[id] == waiting[k..])
           && (k > 0 ==> left + k <= 8) && visitors[id].closed == v.closed
    {
      hide Size, Frames, Released;
      if id !in visitors {
        return;
      }
      var att := visitors[id];
      var outstanding := if att.outstanding < n then 0 else att.outstanding - n;
      var buffer := if id in buffers then buffers[id] else [];
      ghost var all := buffer;
      ghost var start := outstanding;
      ghost var k := 0;
      var sent := att.sent;
      ReleaseNone(id, all);
      while |buffer| > 0 && outstanding < WS_MSG_CREDIT
        invariant 0 <= k <= |all| && buffer == all[k..]
        invariant outstanding == start + k && (k > 0 ==> outstanding <= WS_MSG_CREDIT)
        invariant sent == att.sent + all[..k]
        invariant View() == old(View()).(buffered := old(buffered) - Size(all[..k]), out := old(out) + Frames(id, all[..k]))
        decreases |buffer|
      {
        ReleaseOne(id, all, k);
        buffered := buffered - |buffer[0]|;
        outstanding := outstanding + 1;
        sent := sent + [buffer[0]];
        out := out + [WsMessage(id, buffer[0])];
        buffer := buffer[1..];
        k := k + 1;
      }
      assert k == Released(att, all, n) by { ReleasedAll(att, all, n, k); }
      if |buffer| == 0 {
        buffers := buffers - {id};
      } else {
        buffers := buffers[id := buffer];
      }
      visitors := visitors[id := att.(outstanding := outstanding, pending := |buffer| > 0, sent := sent)];
    }

    method CloseStream(id: nat, answer: bool)
      modifies this
      ensures View() == CloseByAgent(old(View()), id, answer)
      ensures if id in old(visitors) && !old(visitors[id]).closed then
                id in visitors && visitors[id].closed && id !in buffers && out == old(out) + if answer then [WsClose(id)] else []
              else visitors == old(visitors) && buffers == old(buffers) && out == old(out)
    {
      if id !in visitors || visitors[id].closed {
        return;
      }
      visitors := visitors[id := visitors[id].(closed := true, pending := false)];
      DropBuffer(id);
      if answer {
        out := out + [WsClose(id)];
      }
    }

    method OnVisitorClosed(id: nat)
      modifies this
      ensures View() == CloseByVisitor(old(View()), id)
      ensures if id in old(visitors) && !old(visitors[id]).closed then
                id in visitors && visitors[id].closed && id !in buffers && out == old(out) + [WsClose(id)]
              else visitors == old(visitors) && buffers == old(buffers) && out == old(out)
    {
      if id !in visitors || visitors[id].closed {
        return;
      }
      visitors := visitors[id := visitors[id].(closed := true)];
      DropBuffer(id);
      out := out + [WsClose(id)];
    }

    /** The constructor after hibernation: the buffers are gone, their visitors are told. */
    method WakeUp(order: seq<nat>)
      modifies this
      ensures View() == Wake(old(View()), order)
    {
      buffers, buffered := map[], 0;
      for i := 0 to |order|
        invariant View() == WakeOver(old(View()).(buffers := map[], buffered := 0), order[..i])
      {
        var id := order[i];
        assert order[..i + 1][..i] == order[..i] && order[..i + 1][i] == id;
        if id in visitors && visitors[id].pending && !visitors[id].closed {
          FailVisitor(id);
        }
      }
      assert order[..|order|] == order;
    }
  }

  /** The agent's stream: what the session reader queues, and pumpEdge's loop. */
  class LocalStream {
    var unacked: int
    var inbox: seq<Bytes>
    var delivered: seq<Bytes>
    var closing: bool
    var dropped: bool
    var over: bool
    var overrun: bool

    ghost function View(): Local
      reads this
    {
      Local(unacked, inbox, None, false, delivered, closing, dropped, over, overrun)
    }

    constructor ()
      ensures View() == Local(0, [], None, false, [], false, false, false, false)
    {
      unacked, inbox, delivered := 0, [], [];
      closing, dropped, over, overrun := false, false, false, false;
    }

    /**
     * The session reader's side: the tolerance is never exceeded, what was queued stays ahead of what
     * comes, and a message that is not queued is marked as dropped and closes the stream.
     */
    method OnFrame(f: Frame)
      modifies this
      ensures View() == OnLocalFrame(old(View()), f)
      ensures old(unacked) <= WS_MSG_TOLERANCE ==> unacked <= WS_MSG_TOLERANCE
      ensures delivered == old(delivered) && unacked - |inbox| == old(unacked - |inbox|)
      ensures f.WsClose? ==> inbox == old(inbox) && closing
      ensures f.WsMessage? ==> (inbox == old(inbox) + [f.data] <==> !old(over) && old(unacked) < 16)
      ensures f.WsMessage? ==>
                if inbox == old(inbox) then dropped && (closing || over) else inbox == old(inbox) + [f.data] && dropped == old(dropped)
    {
      match f {
        case WsMessage(_, data) =>
          if over {
            dropped := true;
            return;
          }
          if unacked >= WS_MSG_TOLERANCE {
            closing, dropped, overrun := true, true, true;
            return;
          }
          unacked := unacked + 1;
          inbox := inbox + [data];
        case WsClose(_) =>
          closing := true;
      }
    }

    /** The reader queues some frames: all their messages, or those up to the one beyond the tolerance. */
    method Receive(frames: seq<Frame>) returns (ghost accepted: seq<Bytes>)
      requires !over
      modifies this
      ensures inbox == old(inbox) + accepted && unacked == old(unacked) + |accepted|
      ensures accepted <= MessagesIn(frames) && (accepted == MessagesIn(frames) || dropped)
      ensures delivered == old(delivered) && !over && (old(closing) ==> closing) && (old(dropped) ==> dropped)
      ensures dropped && !old(dropped) ==> closing
    {
      accepted := [];
      for i := 0 to |frames|
        invariant inbox == old(inbox) + accepted && unacked == old(unacked) + |accepted|
        invariant accepted <= MessagesIn(frames[..i])
        invariant accepted == MessagesIn(frames[..i]) || (dropped && unacked >= WS_MSG_TOLERANCE)
        invariant delivered == old(delivered) && !over && (old(closing) ==> closing) && (old(dropped) ==> dropped)
        invariant dropped && !old(dropped) ==> closing
      {
        assert frames[..i + 1][..i] == frames[..i];
        ghost var before := inbox;
        OnFrame(frames[i]);
        if inbox != before {
          accepted := accepted + [frames[i].data];
        }
      }
      assert frames[..|frames|] == frames;
    }

    /** The oldest message is written to the app and acknowledged, unless a close was asked for or the write fails. */
    method WriteNext(ok: bool) returns (ack: bool)
      requires inbox != []
      modifies this
      ensures ack == (ok && !old(closing)) && inbox == old(inbox)[1..] && over == old(over)
      ensures delivered == old(delivered) + (if ack then [old(inbox)[0]] else [])
      ensures unacked == old(unacked) - (if ack then 1 else 0)
      ensures if ack then !closing && dropped == old(dropped) else closing && dropped
    {
      var msg := inbox[0];
      inbox := inbox[1..];
      ack := ok && !closing;
      if ack {
        delivered := delivered + [msg];
        unacked := unacked - 1;
      } else {
        closing, dropped := true, true;
      }
    }

    /**
     * The loop until nothing is left and nothing more arrives: `writes` says which local writes
     * succeed, `arrivals` what the reader queues before each turn (`queued` is what it accepted).
     * Exactly a prefix is delivered, one acknowledgement each; the first failure, or a close asked
     * for before, drops all the rest.
     */
    method PumpEdge(writes: seq<bool>, arrivals: seq<seq<Frame>>) returns (acks: nat, ghost queued: seq<Bytes>)
      requires !over
      modifies this
      ensures inbox == [] && acks <= |old(inbox) + queued|
      ensures delivered == old(delivered) + (old(inbox) + queued)[..acks]
      ensures unacked == old(unacked) + |queued| - acks
      ensures acks < |old(inbox) + queued| ==> dropped && closing
      ensures old(closing) ==> acks == 0
      ensures !closing ==> acks == |old(inbox) + queued|
      ensures !dropped ==> delivered == old(delivered) + old(inbox) + MessagesOver(arrivals)
    {
      hide MessagesIn, MessagesOver;
      acks, queued := 0, [];
      var turn := 0;
      NoArrivals(arrivals);
      ghost var taken: seq<Bytes> := [];
      while turn < |arrivals| || |inbox| > 0
        invariant taken + inbox == old(inbox) + queued && !over
        invariant acks <= |taken| && (acks < |taken| ==> closing && dropped)
        invariant delivered == old(delivered) + taken[..acks]
        invariant unacked == old(unacked) + |queued| - acks
        invariant old(closing) ==> closing && acks == 0
        invariant queued == MessagesOver(arrivals[..Min(turn, |arrivals|)]) || dropped
        decreases if turn < |arrivals| then |arrivals| - turn else 0, |inbox|
      {
        if turn < |arrivals| {
          NextArrivals(arrivals, turn);
          ghost var waiting := inbox;
          ghost var more := Receive(arrivals[turn]);
          assert taken + (waiting + more) == (taken + waiting) + more == old(inbox) + (queued + more);
          queued := queued + more;
        }
        if |inbox| > 0 {
          ghost var msg := inbox[0];
          TakeOne(taken, inbox, acks);
          var ack := WriteNext(if turn < |writes| then writes[turn] else true);
          acks := if ack then acks + 1 else acks;
          taken := taken + [msg];
        }
        turn := turn + 1;
      }
      assert taken + [] == taken;
    }
  }

  lemma TakeOne(taken: seq<Bytes>, inbox: seq<Bytes>, acks: nat)
    requires inbox != [] && acks <= |taken|
    ensures taken + inbox == (taken + [inbox[0]]) + inbox[1..]
    ensures acks == |taken| ==> (taken + [inbox[0]])[..acks + 1] == taken[..acks] + [inbox[0]]
    ensures (taken + [inbox[0]])[..acks] == taken[..acks]
  {
  }

  lemma NoArrivals(arrivals: seq<seq<Frame>>)
    ensures MessagesOver(arrivals[..0]) == [] && arrivals[..|arrivals|] == arrivals
  {
  }

  lemma NextArrivals(arrivals: seq<seq<Frame>>, turn: nat)
    requires turn < |arrivals|
    ensures MessagesOver(arrivals[..turn + 1]) == MessagesOver(arrivals[..turn]) + MessagesIn(arrivals[turn])
  {
    assert arrivals[..turn + 1][..turn] == arrivals[..turn];
  }

  function MessagesIn(frames: seq<Frame>): seq<Bytes> {
    if frames == [] then []
    else
      var f := frames[|frames| - 1];
      MessagesIn(frames[..|frames| - 1]) + if f.WsMessage? then [f.data] else []
  }

  function MessagesOver(arrivals: seq<seq<Frame>>): seq<Bytes> {
    if arrivals == [] then [] else MessagesOver(arrivals[..|arrivals| - 1]) + MessagesIn(arrivals[|arrivals| - 1])
  }
}
