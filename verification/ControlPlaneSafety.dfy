/** What every interleaving of connects and control operations keeps. */
module ControlPlaneSafety {
  import opened Limits
  import opened ControlPlane

  // ---------------------------------------------------------------- invariant

  /**
   * Epochs are never reused, every OPEN socket carries the object's generation, every OPEN socket
   * but the latest drains, and a suspended object with no setSuspended under way has none.
   */
  ghost predicate ObjectOk(o: Object) {
    && (forall e :: e in o.sockets ==> e <= o.epoch)
    && (forall e: nat :: OpenAt(o.sockets, e) ==> o.gen == Some(o.sockets[e].gen))
    && (forall e: nat, f: nat :: OpenAt(o.sockets, e) && OpenAt(o.sockets, f) && e < f ==> o.sockets[e].draining)
    && (o.suspended && o.puts == 0 ==> forall e: nat :: !OpenAt(o.sockets, e))
  }

  /** Generation `gen` was handed out and the name's row does not carry it any more. */
  ghost predicate Retired(d: Store, gen: nat) {
    gen < d.nextGen && (d.reservation.Some? ==> d.reservation.value.gen != gen)
  }

  ghost predicate GensOk(s: State) {
    && (s.store.reservation.Some? ==> s.store.reservation.value.gen < s.store.nextGen)
    && (s.tunnel.gen.Some? ==> s.tunnel.gen.value < s.store.nextGen)
    && (forall id :: id in s.connects && s.connects[id].Answered? ==> s.connects[id].gen < s.store.nextGen)
    && (forall a :: a in s.store.outbox && a.Goaway? ==> Retired(s.store, a.gen))
  }

  ghost predicate SeqsOk(s: State) { forall id :: id in s.connects ==> s.connects[id].asked <= s.tunnel.controlSeq }

  /** Someone will still close the sockets of a revoked token, or record those of a valid one. */
  ghost predicate TokenOk(s: State, token: Token) {
    (exists e: nat :: OpenAt(s.tunnel.sockets, e) && s.tunnel.sockets[e].token == token) ==>
      || token in s.recording
      || (!Revoked(s.store, token) && token in s.store.sessions)
      || (Revoked(s.store, token) &&
            (token in s.revoking || RevokeToken(token) in s.store.outbox || RevokeUser(token.user) in s.store.outbox))
  }

  ghost predicate Inv(s: State) {
    ObjectOk(s.tunnel) && GensOk(s) && SeqsOk(s) && forall token :: TokenOk(s, token)
  }

  // ---------------------------------------------------------------- the object

  /** Current finds the OPEN socket of the highest epoch, and none only if there is none. */
  lemma {:induction false} CurrentIsLatest(sockets: map<nat, Socket>, n: nat)
    ensures match Current(sockets, n)
      case Some(e) => OpenAt(sockets, e) && e <= n && forall f: nat :: OpenAt(sockets, f) && f <= n ==> f <= e
      case None => forall f: nat :: OpenAt(sockets, f) ==> f > n
  {
    if !OpenAt(sockets, n) && n > 0 {
      CurrentIsLatest(sockets, n - 1);
    }
  }

  lemma DropKeeps(o: Object, scope: Scope)
    requires ObjectOk(o)
    ensures ObjectOk(Drop(o, scope))
    ensures forall e: nat :: OpenAt(Drop(o, scope).sockets, e) <==> OpenAt(o.sockets, e) && !Covers(scope, e, o.sockets[e])
    ensures forall e: nat :: OpenAt(Drop(o, scope).sockets, e) ==> Drop(o, scope).sockets[e] == o.sockets[e]
    ensures Drop(o, scope) == o.(sockets := Drop(o, scope).sockets)
  {
    var r := Drop(o, scope);
    assert forall e: nat :: OpenAt(r.sockets, e) <==> OpenAt(o.sockets, e) && !Covers(scope, e, o.sockets[e]);
  }

  lemma DeliverKeeps(o: Object, a: Action)
    requires ObjectOk(o)
    ensures ObjectOk(Deliver(o, a)) && Deliver(o, a).gen == o.gen
    ensures Deliver(o, a).controlSeq >= o.controlSeq
    ensures forall e: nat :: OpenAt(Deliver(o, a).sockets, e) ==> OpenAt(o.sockets, e) && Deliver(o, a).sockets[e] == o.sockets[e]
  {
    hide ObjectOk, Drop, Covers;
    match a
    case Goaway(_) => DropKeeps(o, All); SeqKeeps(Drop(o, All));
    case SetSuspended(suspended, gen) => SuspendKeeps(o, suspended, gen);
    case RevokeToken(token) => DropKeeps(o, OfToken(token));
    case RevokeUser(user) => DropKeeps(o, OfUser(user)); SeqKeeps(Drop(o, OfUser(user)));
  }

  lemma SeqKeeps(o: Object)
    requires ObjectOk(o)
    ensures forall n :: ObjectOk(o.(controlSeq := n))
  {
  }

  lemma SuspendKeeps(o: Object, suspended: bool, gen: nat)
    requires ObjectOk(o)
    ensures ObjectOk(OnSetSuspended(o, suspended, gen))
  {
  }

  lemma PutKeeps(o: Object)
    requires ObjectOk(o) && o.puts > 0
    ensures var r := OnGoaway(o.(puts := o.puts - 1), None); ObjectOk(r) && forall e: nat :: !OpenAt(r.sockets, e)
  {
  }

  lemma AdoptKeeps(o: Object, gen: nat)
    requires ObjectOk(o)
    ensures ObjectOk(Adopt(o, gen))
    ensures forall e: nat :: OpenAt(Adopt(o, gen).sockets, e) ==> OpenAt(o.sockets, e) && Adopt(o, gen).sockets[e] == o.sockets[e]
  {
  }

  /** A new socket may join once everything open is draining. */
  lemma AdmitKeeps(o: Object, gen: nat, c: Connect)
    requires ObjectOk(o) && o.gen == Some(gen) && !o.suspended
    requires forall e: nat :: OpenAt(o.sockets, e) ==> o.sockets[e].draining
    ensures var r := Admit(o, gen, c);
      && ObjectOk(r) && r.epoch !in o.sockets && OpenAt(r.sockets, r.epoch)
      && (forall e: nat :: OpenAt(r.sockets, e) && e != r.epoch ==> OpenAt(o.sockets, e) && r.sockets[e] == o.sockets[e])
  {
  }

  /** Admission under the replace rules: at most the new socket is open and not draining. */
  lemma AcceptKeeps(o: Object, gen: nat, c: Connect, dead: bool)
    requires ObjectOk(o) && o.gen == Some(gen)
    ensures var (r, accepted) := Accept(o, gen, c, dead);
      && ObjectOk(r) && r.gen == o.gen && r.controlSeq == o.controlSeq
      && (if accepted then r.epoch == o.epoch + 1 && r.epoch !in o.sockets && OpenAt(r.sockets, r.epoch)
                           && r.sockets[r.epoch] == Socket(gen, c.token, c.instance, true, false)
          else r == o)
      && (forall e: nat :: OpenAt(r.sockets, e) && !(accepted && e == r.epoch) ==> OpenAt(o.sockets, e) && r.sockets[e] == o.sockets[e])
  {
    hide Current, Drop;
    CurrentIsLatest(o.sockets, o.epoch);
    var current := Current(o.sockets, o.epoch);
    if !o.suspended && (current.None? || (OpenAt(o.sockets, current.value) && Keeps(o.sockets[current.value], c, dead))) {
      AdmitKeeps(o, gen, c);
    } else if !o.suspended {
      DropKeeps(o, Epoch(current.value));
      AdmitKeeps(Drop(o, Epoch(current.value)), gen, c);
    }
  }

  lemma FinishKeeps(o: Object, c: Connect, dead: bool)
    requires ObjectOk(o) && c.Answered?
    ensures var (r, accepted) := Finish(o, c, dead);
      && ObjectOk(r) && (r.gen == o.gen || r.gen == Some(c.gen)) && r.controlSeq == o.controlSeq
      && (accepted ==> o.controlSeq == c.asked && r.epoch == o.epoch + 1
                       && OpenAt(r.sockets, r.epoch) && r.sockets[r.epoch] == Socket(c.gen, c.token, c.instance, true, false))
      && (forall e: nat :: OpenAt(r.sockets, e) && !(accepted && e == r.epoch) ==> OpenAt(o.sockets, e) && r.sockets[e] == o.sockets[e])
  {
    hide ObjectOk, Accept;
    if o.controlSeq == c.asked {
      if o.gen == Some(c.gen) {
        AcceptKeeps(o, c.gen, c, dead);
      } else {
        AdoptKeeps(o, c.gen);
        AcceptKeeps(Adopt(o, c.gen), c.gen, c, dead);
      }
    }
  }

  // ---------------------------------------------------------------- steps

  lemma StepObject(s: State, step: Step)
    requires Inv(s)
    ensures ObjectOk(Do(s, step).tunnel)
  {
    hide ObjectOk, Drop, Deliver, Finish, OnGoaway, Authz, TokenOk, GensOk;
    match step
    case DoDeliver(a, finished) => DeliverKeeps(s.tunnel, a);
    case DoPut => if s.tunnel.puts > 0 { PutKeeps(s.tunnel); }
    case DoSetTrusted => SeqKeeps(s.tunnel);
    case DoFinish(id, dead) => if id in s.connects && s.connects[id].Answered? { FinishKeeps(s.tunnel, s.connects[id], dead); }
    case DoRevokeFresh(token) => DropKeeps(s.tunnel, OfToken(token));
    case DoDrain(e) => DrainKeeps(s.tunnel, e);
    case DoClose(e) => DropKeeps(s.tunnel, Epoch(e));
    case DoHibernate => SeqKeeps(s.tunnel);
    case _ =>
  }

  lemma DrainKeeps(o: Object, e: nat)
    requires ObjectOk(o)
    ensures OpenAt(o.sockets, e) ==> ObjectOk(o.(sockets := o.sockets[e := o.sockets[e].(draining := true)]))
  {
  }

  predicate SameGen(r: Option<Reservation>, q: Option<Reservation>) {
    r.Some? && q.Some? && r.value.gen == q.value.gen
  }

  lemma StoreGens(s: State, d: Store)
    requires GensOk(s) && s.store.nextGen <= d.nextGen
    requires d.reservation.Some? ==> d.reservation.value.gen < d.nextGen
    requires d.reservation.Some? ==> d.reservation.value.gen >= s.store.nextGen || SameGen(d.reservation, s.store.reservation)
    requires forall a :: a in d.outbox && a.Goaway? ==> a in s.store.outbox || Retired(d, a.gen)
    ensures GensOk(s.(store := d))
  {
  }

  predicate OfStore(step: Step) {
    step.DoReserve? || step.DoRelease? || step.DoSuspendName? || step.DoSuspendUser? || step.DoDeleteUser? || step.DoRevokeToken?
  }

  lemma StoreStep(s: State, step: Step, token: Token)
    requires Inv(s) && OfStore(step)
    ensures GensOk(Do(s, step)) && SeqsOk(Do(s, step)) && TokenOk(Do(s, step), token)
  {
    hide ObjectOk, TokenOk, HasTrace, Revoked, UserActive;
    StoreTokens(s, step, token);
    match step
    case DoReserve(user) => StoreGens(s, StoreReserve(s.store, user));
    case DoRelease => StoreGens(s, StoreRelease(s.store));
    case DoSuspendName(suspended) => StoreGens(s, StoreSuspendName(s.store, suspended));
    case DoSuspendUser(user, suspended) => StoreGens(s, StoreSuspendUser(s.store, user, suspended));
    case DoDeleteUser(user) => StoreGens(s, StoreDeleteUser(s.store, user));
    case DoRevokeToken(t) => StoreGens(s, StoreRevoke(s.store, t));
  }

  lemma StoreTokens(s: State, step: Step, token: Token)
    requires Inv(s) && OfStore(step)
    ensures TokenOk(Do(s, step), token)
  {
    hide ObjectOk, GensOk, SeqsOk;
    assert TokenOk(s, token);
  }

  /** The object lost sockets at most, and in-flight connects at most grew stale. */
  ghost predicate Quieter(o: Object, p: Object) {
    && p.gen == o.gen && p.controlSeq >= o.controlSeq
    && (forall e: nat :: OpenAt(p.sockets, e) ==> OpenAt(o.sockets, e) && p.sockets[e].token == o.sockets[e].token)
  }

  lemma QuieterGens(s: State, p: Object)
    requires Inv(s) && Quieter(s.tunnel, p)
    ensures GensOk(s.(tunnel := p)) && SeqsOk(s.(tunnel := p))
  {
    hide TokenOk, ObjectOk;
  }

  lemma QuieterToken(s: State, p: Object, token: Token)
    requires Inv(s) && Quieter(s.tunnel, p)
    ensures TokenOk(s.(tunnel := p), token)
  {
    hide ObjectOk, GensOk, SeqsOk, Revoked;
    assert TokenOk(s, token);
  }

  lemma DeliverStep(s: State, a: Action, finished: bool, token: Token)
    requires Inv(s)
    ensures var r := StepDeliver(s, a, finished); GensOk(r) && SeqsOk(r) && TokenOk(r, token)
  {
    hide ObjectOk, Deliver, TokenOk, Revoked;
    DeliverKeeps(s.tunnel, a);
    QuieterGens(s, Deliver(s.tunnel, a));
    QuieterToken(s, Deliver(s.tunnel, a), token);
    assert TokenOk(s, token);
    if a in s.store.outbox && finished {
      DeliverCloses(s.tunnel, a, token);
      DoneToken(s.(tunnel := Deliver(s.tunnel, a)), a, token);
    }
  }

  /** A row may go once it has done its work. */
  lemma DoneToken(s: State, a: Action, token: Token)
    requires TokenOk(s, token) && a in s.store.outbox
    requires a == RevokeToken(token) || a == RevokeUser(token.user) ==>
              forall e: nat :: OpenAt(s.tunnel.sockets, e) ==> s.tunnel.sockets[e].token != token
    ensures TokenOk(s.(store := s.store.(outbox := s.store.outbox - multiset{a})), token)
  {
  }

  lemma DeliverCloses(o: Object, a: Action, token: Token)
    ensures a == RevokeToken(token) || a == RevokeUser(token.user) ==>
              forall e: nat :: OpenAt(Deliver(o, a).sockets, e) ==> Deliver(o, a).sockets[e].token != token
  {
  }

  lemma RevokeFreshStep(s: State, t: Token, token: Token)
    requires Inv(s)
    ensures var r := StepRevokeFresh(s, t); GensOk(r) && SeqsOk(r) && TokenOk(r, token)
  {
    hide ObjectOk, Deliver, Drop, Revoked;
    var a := RevokeToken(t);
    DeliverKeeps(s.tunnel, a);
    DeliverCloses(s.tunnel, a, token);
    assert Deliver(s.tunnel, a) == OnRevokeToken(s.tunnel, t) by { DeliverIs(s.tunnel, t); }
    QuieterGens(s, Deliver(s.tunnel, a));
    QuieterToken(s, Deliver(s.tunnel, a), token);
    assert TokenOk(s, token);
  }

  lemma DeliverIs(o: Object, token: Token)
    ensures Deliver(o, RevokeToken(token)) == OnRevokeToken(o, token)
  {
  }

  lemma FinishStep(s: State, id: nat, dead: bool, token: Token)
    requires Inv(s)
    ensures var r := StepFinish(s, id, dead); GensOk(r) && SeqsOk(r) && TokenOk(r, token)
  {
    hide ObjectOk, Finish, Revoked;
    assert TokenOk(s, token);
    if id in s.connects && s.connects[id].Answered? {
      FinishKeeps(s.tunnel, s.connects[id], dead);
    }
  }

  lemma ConnectStep(s: State, step: Step, token: Token)
    requires Inv(s) && (step.DoAsk? || step.DoRead? || step.DoHibernate?)
    ensures GensOk(Do(s, step)) && SeqsOk(Do(s, step)) && TokenOk(Do(s, step), token)
  {
    hide ObjectOk, UserActive, Revoked, Drop;
    assert TokenOk(s, token);
  }

  lemma RecordStep(s: State, t: Token, token: Token)
    requires Inv(s)
    ensures var r := StepRecord(s, t); GensOk(r) && SeqsOk(r) && TokenOk(r, token)
  {
    hide ObjectOk;
    assert TokenOk(s, token);
  }

  lemma ObjectStep(s: State, step: Step, token: Token)
    requires Inv(s) && (step.DoPut? || step.DoSetTrusted? || step.DoDrain? || step.DoClose?)
    ensures GensOk(Do(s, step)) && SeqsOk(Do(s, step)) && TokenOk(Do(s, step), token)
  {
    hide ObjectOk, Drop, OnGoaway, TokenOk, GensOk, SeqsOk;
    var p := Do(s, step).tunnel;
    if step.DoPut? && s.tunnel.puts > 0 {
      PutKeeps(s.tunnel);
      PutFields(s.tunnel);
    } else if step.DoClose? {
      DropKeeps(s.tunnel, Epoch(step.epoch));
    }
    assert Quieter(s.tunnel, p);
    QuieterGens(s, p);
    QuieterToken(s, p, token);
  }

  lemma PutFields(o: Object)
    requires o.puts > 0
    ensures var r := OnGoaway(o.(puts := o.puts - 1), None); r.gen == o.gen && r.controlSeq == o.controlSeq + 1
  {
  }

  lemma StepKeepsOne(s: State, step: Step, token: Token)
    requires Inv(s)
    ensures GensOk(Do(s, step)) && SeqsOk(Do(s, step)) && TokenOk(Do(s, step), token)
  {
    hide Inv, GensOk, SeqsOk, TokenOk, StepDeliver, StepRevokeFresh, StepFinish, StepRecord;
    match step
    case DoDeliver(a, finished) => DeliverStep(s, a, finished, token);
    case DoFinish(id, dead) => FinishStep(s, id, dead, token);
    case DoRevokeFresh(t) => RevokeFreshStep(s, t, token);
    case DoRecord(t) => RecordStep(s, t, token);
    case _ =>
      if OfStore(step) {
        StoreStep(s, step, token);
      } else if step.DoPut? || step.DoSetTrusted? || step.DoDrain? || step.DoClose? {
        ObjectStep(s, step, token);
      } else {
        ConnectStep(s, step, token);
      }
  }

  // ---------------------------------------------------------------- runs

  lemma StepKeeps(s: State, step: Step)
    requires Inv(s)
    ensures Inv(Do(s, step))
  {
    hide ObjectOk, GensOk, SeqsOk, TokenOk, Do;
    StepObject(s, step);
    StepKeepsOne(s, step, Token(0, 0));
    forall token
      ensures TokenOk(Do(s, step), token)
    {
      StepKeepsOne(s, step, token);
    }
  }

  lemma {:induction false} RunKeeps(steps: seq<Step>)
    ensures Inv(Run(steps))
  {
    hide Do;
    if steps != [] {
      RunKeeps(steps[..|steps| - 1]);
      StepKeeps(Run(steps[..|steps| - 1]), steps[|steps| - 1]);
    }
  }
}
