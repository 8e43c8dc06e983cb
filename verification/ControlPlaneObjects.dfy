/** The tunnel object's mutable state and its loops over the accepted sockets. */
module ControlPlaneObjects {
  import opened Limits
  import opened ControlPlane
  import opened ControlPlaneSafety

  class TunnelObject {
    var gen: Option<nat>
    var suspended: bool
    var controlSeq: nat
    var epoch: nat
    var sockets: map<nat, Socket>
    var puts: nat

    ghost function View(): Object
      reads this
    {
      Object(gen, suspended, controlSeq, epoch, sockets, puts)
    }

    constructor ()
      ensures View() == ControlPlane.Start.tunnel && ObjectOk(View())
    {
      gen, suspended, controlSeq, epoch, sockets, puts := None, false, 0, 0, map[], 0;
    }

    /** Closes every socket the operation is about. */
    method CloseEach(scope: Scope)
      modifies this
      ensures View() == Drop(old(View()), scope)
    {
      hide Covers;
      var now := sockets;
      var left := now.Keys;
      while left != {}
        invariant left <= now.Keys == sockets.Keys
        invariant forall e :: e in left ==> now[e] == sockets[e]
        invariant forall e :: e in now && e !in left ==> now[e] == Dropped(sockets, scope)[e]
        decreases |left|
      {
        var e :| e in left;
        if Covers(scope, e, now[e]) {
          now := now[e := now[e].(open := false)];
        }
        left := left - {e};
      }
      assert now == Dropped(sockets, scope);
      sockets := now;
    }

    /** The OPEN agent socket with the latest epoch. */
    method CurrentAgent() returns (best: Option<nat>)
      requires forall e :: e in sockets ==> e <= epoch
      ensures best == Current(sockets, epoch)
    {
      best := None;
      var left := sockets.Keys;
      while left != {}
        invariant left <= sockets.Keys
        invariant best.Some? ==> OpenAt(sockets, best.value)
        invariant forall e: nat :: OpenAt(sockets, e) && e !in left ==> best.Some? && e <= best.value
        decreases |left|
      {
        var e :| e in left;
        left := left - {e};
        if sockets[e].open && (best.None? || e > best.value) {
          best := Some(e);
        }
      }
      CurrentIsLatest(sockets, epoch);
    }

    method AdoptGen(g: nat)
      modifies this
      ensures View() == Adopt(old(View()), g)
      ensures gen == Some(g) && !suspended
      ensures sockets.Keys == old(sockets.Keys)
      ensures forall e :: e in sockets ==> (sockets[e].open <==> old(sockets[e]).open && sockets[e].gen == g)
    {
      CloseEach(OtherGen(g));
      gen := Some(g);
      suspended := false;
    }

    /** Every OPEN agent but the latest drains. */
    lemma OnlyCurrentServes(o: Object)
      requires ObjectOk(o)
      ensures forall e :: e in o.sockets && o.sockets[e].open && !o.sockets[e].draining ==> Current(o.sockets, o.epoch) == Some(e)
    {
      hide Current;
      CurrentIsLatest(o.sockets, o.epoch);
      forall e | e in o.sockets && o.sockets[e].open && !o.sockets[e].draining
        ensures Current(o.sockets, o.epoch) == Some(e)
      {
        assert OpenAt(o.sockets, e);
      }
    }

    /**
     * Admitted if and only if not suspended and each OPEN agent that does not drain is the same
     * instance, dead, or evicted by force.
     */
    method AcceptAgent(g: nat, c: Connect, dead: bool) returns (accepted: bool)
      requires ObjectOk(View())
      modifies this
      ensures (View(), accepted) == Accept(old(View()), g, c, dead)
      ensures accepted <==> !old(suspended) && forall e :: e in old(sockets) && old(sockets[e]).open && !old(sockets[e]).draining ==>
                old(sockets[e]).instance == c.instance || dead || c.force
      ensures accepted ==> epoch == old(epoch) + 1 && epoch in sockets && sockets[epoch] == Socket(g, c.token, c.instance, true, false)
    {
      if suspended {
        return false;
      }
      var current := CurrentAgent();
      CurrentIsLatest(sockets, epoch);
      OnlyCurrentServes(View());
      if current.Some? {
        var att := sockets[current.value];
        if att.instance == c.instance {
          CloseEach(Epoch(current.value));
        } else if dead {
          CloseEach(Epoch(current.value));
        } else if att.draining {
        } else if c.force {
          CloseEach(Epoch(current.value));
        } else {
          return false;
        }
      }
      epoch := epoch + 1;
      sockets := sockets[epoch := Socket(g, c.token, c.instance, true, false)];
      return true;
    }

    /** connectAgent after its D1 read; the answer counts only if no control call came between. */
    method FinishConnect(c: Connect, dead: bool) returns (accepted: bool)
      requires ObjectOk(View()) && c.Answered?
      modifies this
      ensures (View(), accepted) == Finish(old(View()), c, dead)
      ensures ObjectOk(View())
    {
      FinishKeeps(View(), c, dead);
      if controlSeq != c.asked {
        return false;
      }
      if gen != Some(c.gen) {
        AdoptKeeps(View(), c.gen);
        AdoptGen(c.gen);
      }
      accepted := AcceptAgent(c.gen, c, dead);
    }

    method Goaway(g: Option<nat>) returns (matched: bool)
      modifies this
      ensures View() == OnGoaway(old(View()), g) && matched == (g.None? || gen.None? || g == gen)
      ensures matched ==> controlSeq == old(controlSeq) + 1 && forall e: nat :: !OpenAt(sockets, e)
    {
      if !(g.None? || gen.None? || g == gen) {
        return false;
      }
      controlSeq := controlSeq + 1;
      CloseEach(All);
      return true;
    }

    /**
     * setSuspended up to its storage await: every connect that asked before is void, and a suspended
     * object takes no agent; one whose suspension is lifted takes one again. Sockets stay as they are until the flag is stored.
     */
    method SetSuspendedFlag(value: bool, g: nat) returns (matched: bool)
      modifies this
      ensures View() == OnSetSuspended(old(View()), value, g) && matched == (gen.None? || gen == Some(g))
      ensures old(ObjectOk(View())) ==> ObjectOk(View())
      ensures matched ==>
                forall c: Connect, dead :: c.Answered? && c.asked <= old(controlSeq) ==> Finish(View(), c, dead) == (View(), false)
      ensures matched && !value && old(ObjectOk(View())) ==>
                forall c: Connect, dead :: c.Answered? && c.asked == controlSeq && c.force ==> Finish(View(), c, dead).1
      ensures matched && value ==> puts > 0 && forall h, c, dead :: Accept(View(), h, c, dead) == (View(), false)
    {
      if !(gen.None? || Some(g) == gen) {
        return false;
      }
      controlSeq := controlSeq + 1;
      suspended := value;
      if value {
        puts := puts + 1;
      }
      return true;
    }

    /** The rest of setSuspended(true): nothing stays open. */
    method SuspendedStored()
      requires puts > 0
      modifies this
      ensures View() == OnGoaway(old(View()).(puts := old(puts) - 1), None)
      ensures forall e: nat :: !OpenAt(sockets, e)
    {
      puts := puts - 1;
      var matched := Goaway(None);
    }

    method RevokeToken(token: Token)
      modifies this
      ensures View() == OnRevokeToken(old(View()), token)
      ensures sockets.Keys == old(sockets.Keys) && controlSeq == old(controlSeq)
      ensures forall e :: e in sockets ==> (sockets[e].open <==> old(sockets[e]).open && sockets[e].token != token)
    {
      CloseEach(OfToken(token));
    }

    method RevokeUser(user: nat)
      modifies this
      ensures View() == OnRevokeUser(old(View()), user)
      ensures sockets.Keys == old(sockets.Keys) && controlSeq == old(controlSeq) + 1
      ensures forall e :: e in sockets ==> (sockets[e].open <==> old(sockets[e]).open && sockets[e].token.user != user)
    {
      controlSeq := controlSeq + 1;
      CloseEach(OfUser(user));
    }
  }
}
