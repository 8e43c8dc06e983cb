/** Who wins the races between connects and the control plane, for every interleaving. */
module ControlPlaneTheorems {
  import opened Limits
  import opened ControlPlane
  import opened ControlPlaneSafety

  // ---------------------------------------------------------------- sockets

  /** Every OPEN agent socket carries the object's generation, and every one but the latest drains. */
  lemma OneLiveAgent(steps: seq<Step>, e: nat)
    requires OpenAt(Run(steps).tunnel.sockets, e)
    ensures Run(steps).tunnel.gen == Some(Run(steps).tunnel.sockets[e].gen)
    ensures Current(Run(steps).tunnel.sockets, Run(steps).tunnel.epoch) != Some(e) ==> Run(steps).tunnel.sockets[e].draining
  {
    hide Run, Current, TokenOk, GensOk, SeqsOk;
    RunKeeps(steps);
    CurrentIsLatest(Run(steps).tunnel.sockets, Run(steps).tunnel.epoch);
  }

  /** Without --force a live agent of another instance is never replaced: the connect is refused and nothing changes. */
  lemma LiveAgentIsNotEvicted(steps: seq<Step>, id: nat, e: nat)
    requires var s := Run(steps);
      && id in s.connects && s.connects[id].Answered? && !s.connects[id].force && s.tunnel.gen == Some(s.connects[id].gen)
      && OpenAt(s.tunnel.sockets, e) && !s.tunnel.sockets[e].draining && s.tunnel.sockets[e].instance != s.connects[id].instance
    ensures StepFinish(Run(steps), id, false).tunnel == Run(steps).tunnel
    ensures StepFinish(Run(steps), id, false).recording == Run(steps).recording
  {
    hide Run, Current, TokenOk, GensOk, SeqsOk;
    RunKeeps(steps);
    CurrentIsLatest(Run(steps).tunnel.sockets, Run(steps).tunnel.epoch);
  }

  /** An accepted agent is the one OPEN socket that does not drain, under the generation D1 gave it. */
  lemma AcceptedAgentServesAlone(steps: seq<Step>, id: nat, dead: bool)
    requires id in Run(steps).connects && Run(steps).connects[id].Answered?
    requires StepFinish(Run(steps), id, dead).recording != Run(steps).recording
    ensures var s, r := Run(steps), StepFinish(Run(steps), id, dead);
      && r.tunnel.epoch == s.tunnel.epoch + 1 && OpenAt(r.tunnel.sockets, r.tunnel.epoch)
      && r.tunnel.sockets[r.tunnel.epoch].token == s.connects[id].token
      && r.tunnel.gen == Some(s.connects[id].gen)
      && forall e: nat :: OpenAt(r.tunnel.sockets, e) && e != r.tunnel.epoch ==> r.tunnel.sockets[e].draining
  {
    hide Run, Finish, TokenOk, GensOk, SeqsOk;
    RunKeeps(steps);
    FinishKeeps(Run(steps).tunnel, Run(steps).connects[id], dead);
  }

  predicate Live(o: Object, e: nat) { e in o.sockets && o.sockets[e].open }

  /** The agent that connects of the generation `gen` have to get past. */
  predicate Serves(o: Object, e: nat, gen: nat) { Live(o, e) && !o.sockets[e].draining && o.sockets[e].gen == gen }

  /**
   * The replace rules: an answered connect is admitted if and only if no control call came since it
   * asked, the object is not suspended (or held another generation), and the serving agent of its
   * generation, if there is one, is the same instance, dead, or evicted by force. A refused connect
   * changes nothing.
   */
  lemma ConnectVerdict(steps: seq<Step>, id: nat, dead: bool)
    requires id in Run(steps).connects && Run(steps).connects[id].Answered?
    ensures var s, c, r := Run(steps), Run(steps).connects[id], Do(Run(steps), DoFinish(id, dead));
      && r.store == s.store && r.connects == s.connects - {id} && r.revoking == s.revoking
      && if && c.asked == s.tunnel.controlSeq && (s.tunnel.gen != Some(c.gen) || !s.tunnel.suspended)
            && (forall e: nat :: Serves(s.tunnel, e, c.gen) ==> s.tunnel.sockets[e].instance == c.instance || dead || c.force)
         then
           && r.recording == s.recording + multiset{c.token} && r.tunnel.epoch == s.tunnel.epoch + 1
           && r.tunnel.epoch in r.tunnel.sockets && r.tunnel.sockets[r.tunnel.epoch] == Socket(c.gen, c.token, c.instance, true, false)
         else r.recording == s.recording && r.tunnel == s.tunnel
  {
    hide Run, Accept, Adopt, TokenOk, GensOk, SeqsOk, ObjectOk;
    RunKeeps(steps);
    var s, c := Run(steps), Run(steps).connects[id];
    if c.asked == s.tunnel.controlSeq {
      if s.tunnel.gen == Some(c.gen) {
        AcceptVerdict(s.tunnel, c.gen, c, dead);
      } else {
        AdoptKeeps(s.tunnel, c.gen);
        AdoptedIsEmpty(s.tunnel, c.gen);
        AcceptVerdict(Adopt(s.tunnel, c.gen), c.gen, c, dead);
      }
    }
  }

  lemma AcceptVerdict(o: Object, gen: nat, c: Connect, dead: bool)
    requires ObjectOk(o) && o.gen == Some(gen)
    ensures var (r, accepted) := Accept(o, gen, c, dead);
      if !o.suspended && (forall e: nat :: Serves(o, e, gen) ==> o.sockets[e].instance == c.instance || dead || c.force) then
        accepted && r.epoch == o.epoch + 1 && r.epoch in r.sockets && r.sockets[r.epoch] == Socket(gen, c.token, c.instance, true, false)
      else !accepted && r == o
  {
    hide Current, Drop;
    CurrentIsLatest(o.sockets, o.epoch);
    var current := Current(o.sockets, o.epoch);
    if current.None? {
      assert forall e: nat :: Live(o, e) ==> OpenAt(o.sockets, e);
    } else {
      DropKeeps(o, Epoch(current.value));
      assert Serves(o, current.value, gen) <==> !o.sockets[current.value].draining;
      assert forall e: nat :: Live(o, e) ==> OpenAt(o.sockets, e);
    }
  }

  lemma AdoptedIsEmpty(o: Object, gen: nat)
    requires ObjectOk(o) && o.gen != Some(gen)
    ensures var p := Adopt(o, gen); p.gen == Some(gen) && !p.suspended && p.epoch == o.epoch && forall e: nat :: !Live(p, e)
    ensures forall e: nat :: Live(o, e) ==> o.sockets[e].gen != gen
  {
    var p := Adopt(o, gen);
    forall e: nat | Live(o, e)
      ensures !Live(p, e) && o.sockets[e].gen != gen
    {
      assert OpenAt(o.sockets, e);
    }
  }

  /**
   * What admission closes: every socket of another generation, and the latest OPEN one unless it
   * drains for an agent of another instance that still answers.
   */
  lemma AdmissionCloses(steps: seq<Step>, id: nat, dead: bool, e: nat)
    requires id in Run(steps).connects && Run(steps).connects[id].Answered? && Live(Run(steps).tunnel, e)
    requires StepFinish(Run(steps), id, dead).recording != Run(steps).recording
    ensures var o, c := Run(steps).tunnel, Run(steps).connects[id];
      Live(StepFinish(Run(steps), id, dead).tunnel, e) <==>
        && o.sockets[e].gen == c.gen
        && ((exists f: nat :: f > e && Live(o, f)) || (o.sockets[e].instance != c.instance && !dead && o.sockets[e].draining))
  {
    hide Run, Accept, Adopt, TokenOk, GensOk, SeqsOk, ObjectOk;
    RunKeeps(steps);
    var s, c := Run(steps), Run(steps).connects[id];
    if s.tunnel.gen == Some(c.gen) {
      AcceptCloses(s.tunnel, c.gen, c, dead, e);
    } else {
      AdoptKeeps(s.tunnel, c.gen);
      AdoptedIsEmpty(s.tunnel, c.gen);
      AcceptKeeps(Adopt(s.tunnel, c.gen), c.gen, c, dead);
      OldEpoch(s.tunnel, e);
      assert !Live(Adopt(s.tunnel, c.gen), e);
    }
  }

  lemma OldEpoch(o: Object, e: nat)
    requires ObjectOk(o) && Live(o, e)
    ensures e <= o.epoch && OpenAt(o.sockets, e) && o.gen == Some(o.sockets[e].gen)
  {
    assert OpenAt(o.sockets, e);
  }

  lemma AcceptCloses(o: Object, gen: nat, c: Connect, dead: bool, e: nat)
    requires ObjectOk(o) && o.gen == Some(gen) && Live(o, e) && Accept(o, gen, c, dead).1
    ensures Live(Accept(o, gen, c, dead).0, e) <==>
      && o.sockets[e].gen == gen
      && ((exists f: nat :: f > e && Live(o, f)) || (o.sockets[e].instance != c.instance && !dead && o.sockets[e].draining))
  {
    hide Current;
    OldEpoch(o, e);
    CurrentIsLatest(o.sockets, o.epoch);
    var current := Current(o.sockets, o.epoch).value;
    if current == e {
      forall f: nat | Live(o, f)
        ensures f <= e
      {
        OldEpoch(o, f);
      }
    } else {
      assert Live(o, current);
    }
  }

  /** Once every setSuspended has completed, a suspended object has no OPEN agent socket. */
  lemma SuspendedMeansClosed(steps: seq<Step>, e: nat)
    requires Run(steps).tunnel.suspended && Run(steps).tunnel.puts == 0
    ensures !OpenAt(Run(steps).tunnel.sockets, e)
  {
    RunKeeps(steps);
  }

  /** A socket is what it was accepted as for good, and a closed one stays closed. */
  ghost predicate Lasting(o: Object, p: Object) {
    && o.epoch <= p.epoch
    && (forall e :: e in p.sockets && e !in o.sockets ==> e > o.epoch)
    && (forall e :: e in o.sockets ==>
          && e in p.sockets && p.sockets[e].gen == o.sockets[e].gen && p.sockets[e].token == o.sockets[e].token
          && p.sockets[e].instance == o.sockets[e].instance && (p.sockets[e].open ==> o.sockets[e].open))
  }

  lemma DropLasts(o: Object, scope: Scope)
    ensures Lasting(o, Drop(o, scope))
  {
  }

  lemma AcceptLasts(o: Object, gen: nat, c: Connect, dead: bool)
    requires ObjectOk(o)
    ensures Lasting(o, Accept(o, gen, c, dead).0)
  {
    hide Current;
  }

  lemma FinishLasts(o: Object, c: Connect, dead: bool)
    requires ObjectOk(o) && c.Answered?
    ensures Lasting(o, Finish(o, c, dead).0)
  {
    hide Accept, Lasting, ObjectOk, Adopt;
    AdoptKeeps(o, c.gen);
    AcceptLasts(o, c.gen, c, dead);
    AcceptLasts(Adopt(o, c.gen), c.gen, c, dead);
    AdoptLasts(o, Adopt(o, c.gen), c.gen);
    LastingAll(o, Adopt(o, c.gen), Accept(Adopt(o, c.gen), c.gen, c, dead).0);
    LastingSame(o);
  }

  lemma LastingSame(o: Object)
    ensures Lasting(o, o)
  {
  }

  lemma AdoptLasts(o: Object, p: Object, gen: nat)
    requires p == Adopt(o, gen)
    ensures Lasting(o, p)
  {
  }

  lemma LastingAll(o: Object, p: Object, q: Object)
    requires Lasting(o, p) && Lasting(p, q)
    ensures Lasting(o, q)
  {
  }

  lemma DeliverLasts(o: Object, a: Action)
    ensures Lasting(o, Deliver(o, a))
  {
    hide Drop;
    match a
    case RevokeToken(token) => DropLasts(o, OfToken(token));
    case RevokeUser(user) => DropLasts(o, OfUser(user));
    case _ => DropLasts(o, All);
  }

  lemma PutLasts(o: Object)
    requires o.puts > 0
    ensures Lasting(o, OnGoaway(o.(puts := o.puts - 1), None))
  {
    hide Drop;
    DropLasts(o.(puts := o.puts - 1), All);
  }

  lemma SeqLasts(o: Object)
    ensures forall n :: Lasting(o, o.(controlSeq := n))
  {
  }

  lemma DrainLasts(o: Object, e: nat)
    ensures OpenAt(o.sockets, e) ==> Lasting(o, o.(sockets := o.sockets[e := o.sockets[e].(draining := true)]))
  {
  }

  lemma AskLeaves(s: State, id: nat, token: Token, instance: nat, force: bool)
    ensures StepAsk(s, id, token, instance, force).tunnel == s.tunnel
  {
  }

  lemma ReadLeaves(s: State, id: nat)
    ensures StepRead(s, id).tunnel == s.tunnel
  {
    hide Authz;
  }

  lemma RecordLeaves(s: State, token: Token)
    ensures StepRecord(s, token).tunnel == s.tunnel
  {
    hide Revoked;
  }

  lemma StepLasts(s: State, step: Step)
    requires Inv(s)
    ensures Lasting(s.tunnel, Do(s, step).tunnel)
  {
    hide Finish, Drop, StoreReserve, StoreRelease, StoreSuspendName, StoreSuspendUser, StoreDeleteUser, StoreRevoke,
      GensOk, SeqsOk, TokenOk, ObjectOk, Authz, Deliver, OnGoaway, OnRevokeToken, Lasting, StepRead, StepAsk, StepRecord;
    LastingSame(s.tunnel);
    SeqLasts(s.tunnel);
    match step
    case DoDeliver(a, finished) => DeliverLasts(s.tunnel, a);
    case DoPut => if s.tunnel.puts > 0 { PutLasts(s.tunnel); }
    case DoFinish(id, dead) => if id in s.connects && s.connects[id].Answered? { FinishLasts(s.tunnel, s.connects[id], dead); }
    case DoRevokeFresh(token) => DeliverLasts(s.tunnel, RevokeToken(token)); DeliverIs(s.tunnel, token);
    case DoClose(e) => DropLasts(s.tunnel, Epoch(e));
    case DoDrain(e) => DrainLasts(s.tunnel, e);
    case DoAsk(id, token, instance, force) => AskLeaves(s, id, token, instance, force);
    case DoRead(id) => ReadLeaves(s, id);
    case DoRecord(token) => RecordLeaves(s, token);
    case _ =>
  }

  /** Epochs strictly increase and are never reused, over any continuation of any run. */
  lemma {:induction false} EpochsNeverReused(steps: seq<Step>, more: seq<Step>)
    ensures Lasting(Run(steps).tunnel, Run(steps + more).tunnel)
  {
    hide Do, Lasting;
    if more == [] {
      assert steps + more == steps;
      LastingSame(Run(steps).tunnel);
    } else {
      var init := more[..|more| - 1];
      assert (steps + more)[..|steps + more| - 1] == steps + init;
      EpochsNeverReused(steps, init);
      RunKeeps(steps + init);
      StepLasts(Run(steps + init), more[|more| - 1]);
      LastingAll(Run(steps).tunnel, Run(steps + init).tunnel, Run(steps + more).tunnel);
    }
  }

  // ---------------------------------------------------------------- who may not come back

  /** Whose sockets a control operation is about. */
  datatype Claim = OfGen(gen: nat) | OfOwner(user: nat) | OfSuspended(gen: nat)

  predicate Mine(c: Claim, gen: nat, token: Token) {
    match c
    case OfGen(g) => gen == g
    case OfOwner(user) => token.user == user
    case OfSuspended(g) => gen == g
  }

  /** D1 refuses every connect of the claim. */
  ghost predicate Barred(d: Store, c: Claim) {
    match c
    case OfGen(g) => Retired(d, g)
    case OfOwner(user) => !UserActive(d, user)
    case OfSuspended(g) => g < d.nextGen && (d.reservation.Some? && d.reservation.value.gen == g ==> !d.reservation.value.active)
  }

  /** A reinstatement: the only step that takes the bar away. */
  predicate Reinstates(step: Step, c: Claim) {
    match c
    case OfGen(_) => false
    case OfOwner(user) => step == DoSuspendUser(user, false)
    case OfSuspended(_) => step == DoSuspendName(false)
  }

  ghost predicate NoneOpen(o: Object, c: Claim) {
    forall e: nat :: OpenAt(o.sockets, e) ==> !Mine(c, o.sockets[e].gen, o.sockets[e].token)
  }

  /** A connect of the claim that has read D1 and that no control call has made stale. */
  predicate Fresh(s: State, c: Claim, id: nat) {
    && id in s.connects && s.connects[id].Answered? && s.connects[id].asked == s.tunnel.controlSeq
    && Mine(c, s.connects[id].gen, s.connects[id].token)
  }

  ghost predicate InFlight(s: State, c: Claim) { exists id: nat :: Fresh(s, c, id) }

  /** setSuspended(true) still has its goaway to come. */
  predicate GoawayToCome(o: Object, c: Claim) { c.OfSuspended? && o.puts > 0 }

  /** Nothing of the claim is open and nothing can open it any more. */
  ghost predicate Gone(s: State, c: Claim) {
    Barred(s.store, c) && (GoawayToCome(s.tunnel, c) || (NoneOpen(s.tunnel, c) && !InFlight(s, c)))
  }

  lemma BarredAnswersNone(d: Store, c: Claim, token: Token)
    requires Barred(d, c)
    ensures Authz(d, token.user).Some? ==> !Mine(c, Authz(d, token.user).value, token)
  {
  }

  lemma StoreGone(s: State, step: Step, c: Claim)
    requires Inv(s) && Gone(s, c) && OfStore(step) && !Reinstates(step, c)
    ensures Gone(Do(s, step), c)
  {
    hide Inv, HasTrace, Revoked, NoneOpen, Mine, InFlight;
    StoreBars(s.store, step, c);
    assert forall id :: Fresh(Do(s, step), c, id) ==> Fresh(s, c, id);
    SameFlight(s, Do(s, step), c);
  }

  lemma StoreBars(d: Store, step: Step, c: Claim)
    requires Barred(d, c) && OfStore(step) && !Reinstates(step, c)
    ensures forall s: State :: s.store == d ==> Barred(Do(s, step).store, c)
  {
    hide HasTrace, Revoked;
  }

  lemma SameFlight(s: State, r: State, c: Claim)
    requires forall id :: Fresh(r, c, id) ==> Fresh(s, c, id)
    ensures InFlight(r, c) ==> InFlight(s, c)
  {
    hide Fresh;
  }

  predicate SameOwner(r: State, s: State, e: nat)
    requires OpenAt(r.tunnel.sockets, e) && OpenAt(s.tunnel.sockets, e)
  {
    r.tunnel.sockets[e].gen == s.tunnel.sockets[e].gen && r.tunnel.sockets[e].token == s.tunnel.sockets[e].token
  }

  /** Calls on the object close sockets at most, and never refresh a connect. */
  lemma QuieterGone(s: State, r: State, c: Claim)
    requires Inv(s) && Gone(s, c) && r.connects == s.connects
    requires Barred(r.store, c) && r.tunnel.controlSeq >= s.tunnel.controlSeq && r.tunnel.puts >= s.tunnel.puts
    requires forall e: nat :: OpenAt(r.tunnel.sockets, e) ==> OpenAt(s.tunnel.sockets, e) && SameOwner(r, s, e)
    ensures Gone(r, c)
  {
    hide Barred, Mine, TokenOk, GensOk, ObjectOk;
    if !GoawayToCome(r.tunnel, c) {
      assert !GoawayToCome(s.tunnel, c);
      assert forall id :: Fresh(r, c, id) ==> Fresh(s, c, id);
    }
  }

  lemma DeliverGone(s: State, a: Action, finished: bool, c: Claim)
    requires Inv(s) && Gone(s, c)
    ensures Gone(StepDeliver(s, a, finished), c)
  {
    hide Deliver, Gone, Inv, ObjectOk;
    assert ObjectOk(s.tunnel) by { ObjectPart(s); }
    DeliverKeeps(s.tunnel, a);
    DeliverPuts(s.tunnel, a);
    BarredPart(s, c);
    QuieterGone(s, StepDeliver(s, a, finished), c);
  }

  lemma ObjectPart(s: State)
    requires Inv(s)
    ensures ObjectOk(s.tunnel)
  {
  }

  lemma BarredPart(s: State, c: Claim)
    requires Gone(s, c)
    ensures forall box :: Barred(s.store.(outbox := box), c)
    ensures Barred(s.store, c)
  {
  }

  lemma DeliverPuts(o: Object, a: Action)
    ensures Deliver(o, a).puts >= o.puts
  {
  }

  lemma FinishGone(s: State, id: nat, dead: bool, c: Claim)
    requires Inv(s) && Gone(s, c)
    ensures Gone(StepFinish(s, id, dead), c)
  {
    hide Finish, TokenOk, GensOk, Barred, Mine;
    if id in s.connects && s.connects[id].Answered? {
      FinishKeeps(s.tunnel, s.connects[id], dead);
      FinishPuts(s.tunnel, s.connects[id], dead);
      var r := StepFinish(s, id, dead);
      assert forall k :: Fresh(r, c, k) ==> Fresh(s, c, k);
      assert Mine(c, s.connects[id].gen, s.connects[id].token) && s.connects[id].asked == s.tunnel.controlSeq ==> Fresh(s, c, id);
    }
  }

  lemma FinishPuts(o: Object, c: Connect, dead: bool)
    requires c.Answered?
    ensures Finish(o, c, dead).0.puts == o.puts
  {
    hide Current;
  }

  lemma PutGone(s: State, c: Claim)
    requires Inv(s) && Gone(s, c)
    ensures Gone(StepPut(s), c)
  {
    hide TokenOk, GensOk, Barred, Mine, OnGoaway;
    if s.tunnel.puts > 0 {
      PutKeeps(s.tunnel);
      PutFields(s.tunnel);
      assert forall id :: !Fresh(StepPut(s), c, id);
    }
  }

  lemma ObjectGone(s: State, step: Step, c: Claim)
    requires Inv(s) && Gone(s, c) && (step.DoSetTrusted? || step.DoDrain? || step.DoClose? || step.DoRevokeFresh?)
    ensures Gone(Do(s, step), c)
  {
    hide Inv, Gone, Drop, Barred, ObjectOk;
    BarredPart(s, c);
    ObjectPart(s);
    if step.DoClose? {
      DropKeeps(s.tunnel, Epoch(step.epoch));
    } else if step.DoRevokeFresh? {
      DropKeeps(s.tunnel, OfToken(step.token));
    }
    QuieterGone(s, Do(s, step), c);
  }

  /** A step that leaves D1's bar and the sockets alone, and makes no connect fresh. */
  lemma StillGone(s: State, r: State, c: Claim)
    requires Gone(s, c) && Barred(r.store, c)
    requires r.tunnel == s.tunnel.(controlSeq := r.tunnel.controlSeq)
    requires forall id: nat :: Fresh(r, c, id) ==> Fresh(s, c, id)
    ensures Gone(r, c)
  {
    hide Barred, Mine;
    SameFlight(s, r, c);
    SameOpen(s.tunnel, r.tunnel, c);
  }

  lemma AskGone(s: State, id: nat, token: Token, instance: nat, force: bool, c: Claim)
    requires Gone(s, c)
    ensures Gone(StepAsk(s, id, token, instance, force), c)
  {
    hide Barred, Mine, Gone;
    BarredPart(s, c);
    StillGone(s, StepAsk(s, id, token, instance, force), c);
  }

  /** What a barred claim's connect reads is not its own. */
  lemma ReadGone(s: State, id: nat, c: Claim)
    requires Gone(s, c)
    ensures Gone(StepRead(s, id), c)
  {
    hide Barred, Mine, Gone, Authz;
    BarredPart(s, c);
    if id in s.connects {
      BarredAnswersNone(s.store, c, s.connects[id].token);
    }
    StillGone(s, StepRead(s, id), c);
  }

  lemma RecordGone(s: State, token: Token, c: Claim)
    requires Gone(s, c)
    ensures Gone(StepRecord(s, token), c)
  {
    hide Mine, Gone, Revoked;
    BarredPart(s, c);
    StillGone(s, StepRecord(s, token), c);
  }

  lemma HibernateGone(s: State, c: Claim)
    requires Gone(s, c)
    ensures Gone(StepHibernate(s), c)
  {
    hide Barred, Mine, Gone;
    BarredPart(s, c);
    StillGone(s, StepHibernate(s), c);
  }

  lemma SameOpen(o: Object, p: Object, c: Claim)
    requires p.sockets == o.sockets
    ensures NoneOpen(o, c) == NoneOpen(p, c)
  {
  }

  lemma StepGone(s: State, step: Step, c: Claim)
    requires Inv(s) && Gone(s, c) && !Reinstates(step, c)
    ensures Gone(Do(s, step), c)
  {
    hide Inv, Gone, StepDeliver, StepFinish, StepPut, StepRevokeFresh, StepDrain, StepClose, StepHibernate, StepAsk, StepRead, StepRecord;
    if OfStore(step) {
      StoreGone(s, step, c);
    } else if step.DoFinish? {
      FinishGone(s, step.id, step.dead, c);
    } else if step.DoDeliver? {
      DeliverGone(s, step.action, step.finished, c);
    } else if step.DoPut? {
      PutGone(s, c);
    } else if step.DoSetTrusted? || step.DoDrain? || step.DoClose? || step.DoRevokeFresh? {
      ObjectGone(s, step, c);
    } else if step.DoAsk? {
      AskGone(s, step.id, step.token, step.instance, step.force, c);
    } else if step.DoRead? {
      ReadGone(s, step.id, c);
    } else if step.DoRecord? {
      RecordGone(s, step.token, c);
    } else {
      HibernateGone(s, c);
    }
  }

  /** A continuation without a reinstatement. */
  predicate Keeps(more: seq<Step>, c: Claim) { forall i :: 0 <= i < |more| ==> !Reinstates(more[i], c) }

  lemma {:induction false} GoneForGood(steps: seq<Step>, more: seq<Step>, c: Claim)
    requires Gone(Run(steps), c) && Keeps(more, c)
    ensures Gone(Run(steps + more), c)
  {
    hide Do, Gone, Reinstates;
    if more == [] {
      assert steps + more == steps;
    } else {
      var init := more[..|more| - 1];
      assert (steps + more)[..|steps + more| - 1] == steps + init;
      GoneForGood(steps, init, c);
      RunKeeps(steps + init);
      StepGone(Run(steps + init), more[|more| - 1], c);
    }
  }

  // ---------------------------------------------------------------- goaway

  /** A fresh in-flight connect of a generation that is not the object's always gets in. */
  lemma StrangerGetsIn(s: State, id: nat, dead: bool)
    requires Inv(s) && id in s.connects && s.connects[id].Answered?
    requires s.connects[id].asked == s.tunnel.controlSeq && s.tunnel.gen != Some(s.connects[id].gen)
    ensures !NoneOpen(StepFinish(s, id, dead).tunnel, OfGen(s.connects[id].gen))
    ensures StepFinish(s, id, dead).tunnel.puts == s.tunnel.puts
  {
    hide Current, TokenOk, GensOk;
    var c := s.connects[id];
    var o := Adopt(s.tunnel, c.gen);
    CurrentIsLatest(o.sockets, o.epoch);
    assert forall e: nat :: !OpenAt(o.sockets, e);
    var r := StepFinish(s, id, dead).tunnel;
    assert r == Admit(o, c.gen, c);
    assert OpenAt(r.sockets, r.epoch) && r.sockets[r.epoch].gen == c.gen;
  }

  lemma RunSnoc(steps: seq<Step>, step: Step)
    ensures Run(steps + [step]) == Do(Run(steps), step)
  {
    assert (steps + [step])[..|steps|] == steps;
  }

  /**
   * A goaway for `gen` whose row has been delivered closes every socket of `gen` for good, whatever
   * connects are in flight or still to come, if and only if the object held that generation (or
   * none) or no fresh connect had read it: a generation the object has not adopted is ignored
   * without a controlSeq bump.
   */
  lemma GoawayWins(steps: seq<Step>, gen: nat, finished: bool)
    requires Goaway(gen) in Run(steps).store.outbox
    ensures (forall more :: NoneOpen(Run(steps + [DoDeliver(Goaway(gen), finished)] + more).tunnel, OfGen(gen)))
            <==> (GenMatches(Run(steps).tunnel, Some(gen)) || !InFlight(Run(steps), OfGen(gen)))
  {
    hide Run, Do, InFlight, NoneOpen, Inv;
    var s, step := Run(steps), DoDeliver(Goaway(gen), finished);
    var after := steps + [step];
    RunKeeps(steps);
    RunSnoc(steps, step);
    if GenMatches(s.tunnel, Some(gen)) || !InFlight(s, OfGen(gen)) {
      GoawayCloses(s, gen, finished);
      forall more
        ensures NoneOpen(Run(after + more).tunnel, OfGen(gen))
      {
        GoneForGood(after, more, OfGen(gen));
      }
    } else {
      var id := AFresh(s, OfGen(gen));
      GoawayMisses(s, gen, finished, id);
      RunSnoc(after, DoFinish(id, false));
      assert !NoneOpen(Run(after + [DoFinish(id, false)]).tunnel, OfGen(gen));
    }
  }

  lemma GoawayCloses(s: State, gen: nat, finished: bool)
    requires Inv(s) && Goaway(gen) in s.store.outbox
    requires GenMatches(s.tunnel, Some(gen)) || !InFlight(s, OfGen(gen))
    ensures Gone(Do(s, DoDeliver(Goaway(gen), finished)), OfGen(gen))
  {
    hide TokenOk;
    assert Retired(s.store, gen) by { assert Goaway(gen).Goaway?; }
    var r := Do(s, DoDeliver(Goaway(gen), finished));
    assert forall id :: Fresh(r, OfGen(gen), id) ==> Fresh(s, OfGen(gen), id) && !GenMatches(s.tunnel, Some(gen));
  }

  lemma AFresh(s: State, c: Claim) returns (id: nat)
    requires InFlight(s, c)
    ensures Fresh(s, c, id)
  {
    id :| Fresh(s, c, id);
  }

  lemma GoawayMisses(s: State, gen: nat, finished: bool, id: nat)
    requires Inv(s) && Goaway(gen) in s.store.outbox && !GenMatches(s.tunnel, Some(gen)) && Fresh(s, OfGen(gen), id)
    ensures var r := Do(s, DoDeliver(Goaway(gen), finished)); !NoneOpen(Do(r, DoFinish(id, false)).tunnel, OfGen(gen))
  {
    hide NoneOpen, ObjectOk, TokenOk, GensOk;
    var step := DoDeliver(Goaway(gen), finished);
    StepKeeps(s, step);
    StrangerGetsIn(Do(s, step), id, false);
  }

  const FIRST := Token(1, 1)
  const SECOND := Token(1, 2)

  /** User 1 serves generation 0. */
  const SERVING: State :=
    State(Store(Some(Reservation(1, 0, true)), 1, {}, {}, {}, {}, multiset{}),
          Object(Some(0), false, 0, 1, map[1 := Socket(0, FIRST, 1, true, false)], 0), map[], multiset{FIRST}, multiset{})

  /** The name was released and taken again; a connect has read generation 1, which is released too. */
  const RACING: State :=
    SERVING.(store := Store(None, 2, {}, {}, {}, {}, multiset{Goaway(0), Goaway(1)}),
             connects := map[2 := Answered(SECOND, 2, false, 0, 1)])

  lemma Serving()
    ensures Run([DoReserve(1)] + [DoAsk(1, FIRST, 1, false)] + [DoRead(1)] + [DoFinish(1, false)]) == SERVING
  {
    hide Run;
    RunEmpty();
    RunSnoc([], DoReserve(1));
    assert [] + [DoReserve(1)] == [DoReserve(1)];
    RunSnoc([DoReserve(1)], DoAsk(1, FIRST, 1, false));
    RunSnoc([DoReserve(1)] + [DoAsk(1, FIRST, 1, false)], DoRead(1));
    var s := Run([DoReserve(1)] + [DoAsk(1, FIRST, 1, false)] + [DoRead(1)]);
    assert s.connects == map[1 := Answered(FIRST, 1, false, 0, 0)];
    RunSnoc([DoReserve(1)] + [DoAsk(1, FIRST, 1, false)] + [DoRead(1)], DoFinish(1, false));
    assert s.connects - {1} == map[];
  }

  /** The same user has taken the name again and a second agent's connect has read its new generation. */
  const READ: State :=
    SERVING.(store := Store(Some(Reservation(1, 1, true)), 2, {}, {}, {}, {}, multiset{Goaway(0)}),
             connects := map[2 := Answered(SECOND, 2, false, 0, 1)])

  lemma Reading(steps: seq<Step>)
    requires Run(steps) == SERVING
    ensures Run(steps + [DoRelease] + [DoReserve(1)] + [DoAsk(2, SECOND, 2, false)] + [DoRead(2)]) == READ
  {
    hide Run;
    RunSnoc(steps, DoRelease);
    RunSnoc(steps + [DoRelease], DoReserve(1));
    RunSnoc(steps + [DoRelease] + [DoReserve(1)], DoAsk(2, SECOND, 2, false));
    RunSnoc(steps + [DoRelease] + [DoReserve(1)] + [DoAsk(2, SECOND, 2, false)], DoRead(2));
  }

  lemma Racing(steps: seq<Step>)
    requires Run(steps) == READ
    ensures Run(steps + [DoRelease]) == RACING
  {
    hide Run;
    RunSnoc(steps, DoRelease);
  }

  /**
   * The losing run: generation 0 serves, is released and the name taken again as generation 1; a
   * connect reads 1, the name is released once more, and the goaway for 1 arrives before that
   * connect finishes and before the goaway for 0.
   */
  lemma GoawayCanLose()
    ensures exists steps, more ::
      Goaway(1) in Run(steps).store.outbox && !NoneOpen(Run(steps + [DoDeliver(Goaway(1), true)] + more).tunnel, OfGen(1))
  {
    hide Run, NoneOpen, Inv, Do;
    Serving();
    var serving := [DoReserve(1)] + [DoAsk(1, FIRST, 1, false)] + [DoRead(1)] + [DoFinish(1, false)];
    Reading(serving);
    Racing(serving + [DoRelease] + [DoReserve(1)] + [DoAsk(2, SECOND, 2, false)] + [DoRead(2)]);
    var steps := serving + [DoRelease] + [DoReserve(1)] + [DoAsk(2, SECOND, 2, false)] + [DoRead(2)] + [DoRelease];
    assert Fresh(Run(steps), OfGen(1), 2);
    GoawayWins(steps, 1, true);
  }

  lemma RunEmpty()
    ensures Run([]) == Start
  {
  }

  // ---------------------------------------------------------------- users and suspensions

  /**
   * After a revokeUser delivered while the user is suspended or deleted, none of the user's sockets
   * is OPEN and no connect opens one, until the user is reinstated.
   */
  lemma RevokeUserWins(steps: seq<Step>, user: nat, finished: bool, more: seq<Step>)
    requires RevokeUser(user) in Run(steps).store.outbox && !UserActive(Run(steps).store, user)
    requires Keeps(more, OfOwner(user))
    ensures NoneOpen(Run(steps + [DoDeliver(RevokeUser(user), finished)] + more).tunnel, OfOwner(user))
  {
    hide Run, Do, NoneOpen, InFlight, Reinstates, Inv;
    var after := steps + [DoDeliver(RevokeUser(user), finished)];
    RunKeeps(steps);
    RunSnoc(steps, DoDeliver(RevokeUser(user), finished));
    RevokeUserCloses(Run(steps), user, finished);
    GoneForGood(after, more, OfOwner(user));
  }

  lemma RevokeUserCloses(s: State, user: nat, finished: bool)
    requires Inv(s) && RevokeUser(user) in s.store.outbox && !UserActive(s.store, user)
    ensures Gone(Do(s, DoDeliver(RevokeUser(user), finished)), OfOwner(user))
  {
    hide TokenOk, GensOk;
    var r := Do(s, DoDeliver(RevokeUser(user), finished));
    assert forall id :: !Fresh(r, OfOwner(user), id);
  }

  /**
   * After a setSuspended(true, gen) delivered while D1 keeps `gen` suspended, no socket of `gen` is
   * OPEN whenever no setSuspended is under way, until the name is reinstated; if and only if the
   * object held `gen` (or none), or another setSuspended was under way, or no fresh connect had read
   * `gen`.
   */
  lemma SuspensionWins(steps: seq<Step>, gen: nat, finished: bool)
    requires SetSuspended(true, gen) in Run(steps).store.outbox && Barred(Run(steps).store, OfSuspended(gen))
    ensures (forall more | Keeps(more, OfSuspended(gen)) :: Quiet(Run(steps + [DoDeliver(SetSuspended(true, gen), finished)] + more), gen))
            <==> (GenMatches(Run(steps).tunnel, Some(gen)) || Run(steps).tunnel.puts > 0 || !InFlight(Run(steps), OfSuspended(gen)))
  {
    hide Run, Do, InFlight, NoneOpen, Inv, Barred;
    var s, step := Run(steps), DoDeliver(SetSuspended(true, gen), finished);
    var after := steps + [step];
    RunKeeps(steps);
    RunSnoc(steps, step);
    if GenMatches(s.tunnel, Some(gen)) || s.tunnel.puts > 0 || !InFlight(s, OfSuspended(gen)) {
      SuspensionCloses(s, gen, finished);
      forall more | Keeps(more, OfSuspended(gen))
        ensures Quiet(Run(after + more), gen)
      {
        GoneForGood(after, more, OfSuspended(gen));
      }
    } else {
      var id := AFresh(s, OfSuspended(gen));
      SuspensionMisses(s, gen, finished, id);
      RunSnoc(after, DoFinish(id, false));
      assert Keeps([DoFinish(id, false)], OfSuspended(gen));
      assert !Quiet(Run(after + [DoFinish(id, false)]), gen);
    }
  }

  /** No setSuspended under way means no OPEN socket of `gen`. */
  ghost predicate Quiet(s: State, gen: nat) { s.tunnel.puts == 0 ==> NoneOpen(s.tunnel, OfSuspended(gen)) }

  lemma SuspensionCloses(s: State, gen: nat, finished: bool)
    requires Inv(s) && SetSuspended(true, gen) in s.store.outbox && Barred(s.store, OfSuspended(gen))
    requires GenMatches(s.tunnel, Some(gen)) || s.tunnel.puts > 0 || !InFlight(s, OfSuspended(gen))
    ensures Gone(Do(s, DoDeliver(SetSuspended(true, gen), finished)), OfSuspended(gen))
  {
    hide TokenOk, GensOk;
    var r := Do(s, DoDeliver(SetSuspended(true, gen), finished));
    if !GenMatches(s.tunnel, Some(gen)) && s.tunnel.puts == 0 {
      assert forall id :: Fresh(r, OfSuspended(gen), id) ==> Fresh(s, OfSuspended(gen), id);
    }
  }

  lemma SuspensionMisses(s: State, gen: nat, finished: bool, id: nat)
    requires Inv(s) && !GenMatches(s.tunnel, Some(gen)) && s.tunnel.puts == 0 && Fresh(s, OfSuspended(gen), id)
    ensures var r := Do(s, DoDeliver(SetSuspended(true, gen), finished)); !Quiet(Do(r, DoFinish(id, false)), gen)
  {
    hide ObjectOk, TokenOk, GensOk;
    var step := DoDeliver(SetSuspended(true, gen), finished);
    StepKeeps(s, step);
    var r := Do(s, step);
    StrangerGetsIn(r, id, false);
    var o := Do(r, DoFinish(id, false)).tunnel;
    assert NoneOpen(o, OfSuspended(gen)) ==> NoneOpen(o, OfGen(gen));
  }

  /** The name is suspended while a connect of its new generation has read D1. */
  const SUSPENDING: State :=
    READ.(store := Store(Some(Reservation(1, 1, false)), 2, {}, {}, {}, {}, multiset{Goaway(0), SetSuspended(true, 1)}))

  lemma Suspending(steps: seq<Step>)
    requires Run(steps) == READ
    ensures Run(steps + [DoSuspendName(true)]) == SUSPENDING
  {
    hide Run;
    RunSnoc(steps, DoSuspendName(true));
  }

  /**
   * The losing run: generation 0 serves, the name is released and taken again as generation 1; a
   * connect reads 1, the name is suspended, and the call arrives before that connect finishes and
   * before the goaway for 0.
   */
  lemma SuspensionCanLose()
    ensures exists steps, more :: var s := Run(steps + [DoDeliver(SetSuspended(true, 1), true)] + more);
      && SetSuspended(true, 1) in Run(steps).store.outbox && Barred(Run(steps).store, OfSuspended(1))
      && Keeps(more, OfSuspended(1)) && s.tunnel.puts == 0 && !NoneOpen(s.tunnel, OfSuspended(1))
  {
    hide Run, NoneOpen, Inv, Do, Keeps, Barred;
    Serving();
    var serving := [DoReserve(1)] + [DoAsk(1, FIRST, 1, false)] + [DoRead(1)] + [DoFinish(1, false)];
    Reading(serving);
    var reading := serving + [DoRelease] + [DoReserve(1)] + [DoAsk(2, SECOND, 2, false)] + [DoRead(2)];
    Suspending(reading);
    var steps := reading + [DoSuspendName(true)];
    assert Fresh(Run(steps), OfSuspended(1), 2);
    SuspendedIsBarred();
    SuspensionWins(steps, 1, true);
  }

  lemma SuspendedIsBarred()
    ensures Barred(SUSPENDING.store, OfSuspended(1))
  {
  }

  // ---------------------------------------------------------------- tokens

  /**
   * Token revocation has no gap: once every recordSession, its direct revocation and every outbox row
   * have finished, no OPEN agent socket carries a revoked token.
   */
  lemma RevocationHasNoGap(steps: seq<Step>, e: nat)
    requires Run(steps).recording == multiset{} && Run(steps).revoking == multiset{} && Run(steps).store.outbox == multiset{}
    requires OpenAt(Run(steps).tunnel.sockets, e)
    ensures !Revoked(Run(steps).store, Run(steps).tunnel.sockets[e].token)
    ensures Run(steps).tunnel.sockets[e].token in Run(steps).store.sessions
  {
    hide Run, ObjectOk, GensOk, SeqsOk;
    RunKeeps(steps);
    assert TokenOk(Run(steps), Run(steps).tunnel.sockets[e].token);
  }

  // ---------------------------------------------------------------- announcements

  predicate Announced(s: State, r: State, a: Action) { r.store.outbox == s.store.outbox + multiset{a} }

  /** The name is taken under a fresh generation, let go, suspended or reinstated. */
  ghost predicate NameAnnounced(s: State, r: State) {
    match (s.store.reservation, r.store.reservation)
    case (None, None) => true
    case (None, Some(now)) => now.gen == s.store.nextGen < r.store.nextGen && now.active
    case (Some(was), None) => Announced(s, r, Goaway(was.gen)) || Announced(s, r, RevokeUser(was.user))
    case (Some(was), Some(now)) =>
      && now.gen == was.gen && now.user == was.user
      && (now.active != was.active ==> Announced(s, r, SetSuspended(!now.active, was.gen)))
  }

  /** The name's owner is suspended. */
  ghost predicate OwnerAnnounced(s: State, r: State) {
    s.store.reservation.Some? && s.store.reservation.value.user in r.store.suspended - s.store.suspended
    ==> Announced(s, r, RevokeUser(s.store.reservation.value.user))
  }

  /** A token with a recorded session is revoked, or its user deleted. */
  ghost predicate TokenAnnounced(s: State, r: State, token: Token) {
    token in s.store.sessions && token.user !in s.store.deleted && token !in s.store.revoked ==>
      && (token in r.store.revoked ==> Announced(s, r, RevokeToken(token)))
      && (token.user in r.store.deleted ==> Announced(s, r, RevokeUser(token.user)))
  }

  /**
   * No change of the name, its owner or a token goes unannounced: the batch that makes it enqueues the
   * row that undoes what the object still holds of it, and rows leave only when delivered.
   */
  lemma ChangesAreAnnounced(s: State, step: Step, token: Token, a: Action)
    ensures NameAnnounced(s, Do(s, step)) && OwnerAnnounced(s, Do(s, step)) && TokenAnnounced(s, Do(s, step), token)
    ensures Do(s, step).store.outbox[a] < s.store.outbox[a] ==> step == DoDeliver(a, true)
  {
    hide Deliver, Finish, Drop, Authz, OnGoaway, StoreReserve, StoreRelease, StoreSuspendName, StoreSuspendUser, StoreDeleteUser,
      StoreRevoke, NameAnnounced, OwnerAnnounced, TokenAnnounced, StepRead, StepFinish, StepAsk;
    if OfStore(step) {
      BatchAnnounces(s, step, token, a);
    } else {
      StoreKept(s, step);
      QuietAnnounces(s, Do(s, step), token);
    }
  }

  lemma StoreKept(s: State, step: Step)
    requires !OfStore(step)
    ensures var d, r := s.store, Do(s, step).store;
      r == d.(outbox := r.outbox, sessions := r.sessions)
      && (r.outbox == d.outbox || (step.DoDeliver? && step.finished && r.outbox == d.outbox - multiset{step.action}))
  {
    hide Deliver, Finish, Drop, Revoked, Authz, OnGoaway;
  }

  lemma QuietAnnounces(s: State, r: State, token: Token)
    requires r.store == s.store.(outbox := r.store.outbox, sessions := r.store.sessions)
    ensures NameAnnounced(s, r) && OwnerAnnounced(s, r) && TokenAnnounced(s, r, token)
  {
  }

  lemma BatchAnnounces(s: State, step: Step, token: Token, a: Action)
    requires OfStore(step)
    ensures NameAnnounced(s, Do(s, step)) && OwnerAnnounced(s, Do(s, step)) && TokenAnnounced(s, Do(s, step), token)
    ensures Do(s, step).store.outbox[a] >= s.store.outbox[a]
  {
    hide NameAnnounced, OwnerAnnounced, TokenAnnounced, HasTrace, Revoked;
    NameBatch(s, step);
    OwnerBatch(s, step);
    TokenBatch(s, step, token);
  }

  lemma NameBatch(s: State, step: Step)
    requires OfStore(step)
    ensures NameAnnounced(s, Do(s, step))
  {
    hide Revoked;
  }

  lemma OwnerBatch(s: State, step: Step)
    requires OfStore(step)
    ensures OwnerAnnounced(s, Do(s, step))
  {
    hide HasTrace, Revoked;
  }

  lemma TokenBatch(s: State, step: Step, token: Token)
    requires OfStore(step)
    ensures TokenAnnounced(s, Do(s, step), token)
  {
  }

  /** Each batch makes its change, whatever D1 held before, and touches no other user or token. */
  lemma BatchesTakeEffect(s: State, step: Step)
    requires OfStore(step)
    ensures var d, r := s.store, Do(s, step).store;
      match step
      case DoReserve(user) => r.reservation == if d.reservation.None? then Some(Reservation(user, d.nextGen, true)) else d.reservation
      case DoRelease => r.reservation.None?
      case DoSuspendName(value) => d.reservation.Some? ==> r.reservation == Some(d.reservation.value.(active := !value))
      case DoSuspendUser(user, value) =>
        r.suspended == if user in d.deleted then d.suspended else if value then d.suspended + {user} else d.suspended - {user}
      case DoDeleteUser(user) =>
        if user in d.deleted || user in d.suspended then r == d
        else
          && r.deleted == d.deleted + {user} && (forall t :: t in r.sessions <==> t in d.sessions && t.user != user)
          && r.reservation == if d.reservation.Some? && d.reservation.value.user == user then None else d.reservation
      case DoRevokeToken(token) => r.revoked == if token.user in d.deleted then d.revoked else d.revoked + {token}
  {
    hide HasTrace;
  }

  /** A session is recorded, or found revoked since; a trust change voids the connects that asked before; an idle object forgets its count. */
  lemma StepsTakeEffect(s: State, token: Token)
    ensures token in s.recording ==>
      var r := Do(s, DoRecord(token));
      && r.recording == s.recording - multiset{token}
      && if token in s.store.revoked || token.user in s.store.deleted then r.revoking == s.revoking + multiset{token} && r.store == s.store
         else r.revoking == s.revoking && r.store == s.store.(sessions := s.store.sessions + {token})
    ensures Do(s, DoSetTrusted) == s.(tunnel := s.tunnel.(controlSeq := s.tunnel.controlSeq + 1))
    ensures s.connects == map[] && s.tunnel.puts == 0 ==> Do(s, DoHibernate).tunnel.controlSeq == 0
  {
  }

  /** A delivered call closes the sockets it is about and no others, and voids the connects that asked before it. */
  lemma DeliveryVerdict(s: State, a: Action, finished: bool, e: nat)
    requires a in s.store.outbox && Live(s.tunnel, e)
    ensures var o, p := s.tunnel, Do(s, DoDeliver(a, finished)).tunnel;
      match a
      case Goaway(gen) =>
        if o.gen == None || o.gen == Some(gen) then !Live(p, e) && p.controlSeq == o.controlSeq + 1 else p == o
      case SetSuspended(value, gen) =>
        if o.gen == None || o.gen == Some(gen)
        then Live(p, e) && p.suspended == value && p.controlSeq == o.controlSeq + 1 && p.puts == o.puts + if value then 1 else 0
        else p == o
      case RevokeToken(token) => (Live(p, e) <==> o.sockets[e].token != token) && p.controlSeq == o.controlSeq
      case RevokeUser(user) => (Live(p, e) <==> o.sockets[e].token.user != user) && p.controlSeq == o.controlSeq + 1
  {
  }

  /**
   * A lifted suspension is lifted: once setSuspended(false) was delivered, a connect of the name's
   * active owner that asks, reads D1 and finishes with no call in between is admitted.
   */
  lemma ReinstatedNameServes(steps: seq<Step>, gen: nat, id: nat, token: Token, instance: nat, dead: bool)
    requires SetSuspended(false, gen) in Run(steps).store.outbox && id !in Run(steps).connects
    requires var d := Run(steps).store;
      d.reservation == Some(Reservation(token.user, gen, true)) && token.user !in d.suspended && token.user !in d.deleted
    ensures var s := Run(steps + [DoDeliver(SetSuspended(false, gen), true)] + [DoAsk(id, token, instance, true)] + [DoRead(id)]);
      var r := Run(steps + [DoDeliver(SetSuspended(false, gen), true)] + [DoAsk(id, token, instance, true)] + [DoRead(id)] + [DoFinish(id, dead)]);
      && r.recording == s.recording + multiset{token} && r.tunnel.epoch in r.tunnel.sockets
      && r.tunnel.sockets[r.tunnel.epoch] == Socket(gen, token, instance, true, false)
  {
    hide Run, StepFinish;
    var lifted := steps + [DoDeliver(SetSuspended(false, gen), true)];
    var asked := lifted + [DoAsk(id, token, instance, true)];
    RunSnoc(steps, DoDeliver(SetSuspended(false, gen), true));
    RunSnoc(lifted, DoAsk(id, token, instance, true));
    RunSnoc(asked, DoRead(id));
    RunSnoc(asked + [DoRead(id)], DoFinish(id, dead));
    var s := Run(asked + [DoRead(id)]);
    assert id in s.connects && s.connects[id] == Answered(token, instance, true, s.tunnel.controlSeq, gen);
    ConnectVerdict(asked + [DoRead(id)], id, dead);
  }

  /** A connect learns the generation of the name exactly when its user owns it and both are active. */
  lemma ReadVerdict(s: State, id: nat)
    requires id in s.connects && s.connects[id].Asked?
    ensures var c, r, d := s.connects[id], Do(s, DoRead(id)).connects, s.store;
      if d.reservation.Some? && d.reservation.value.user == c.token.user && d.reservation.value.active
         && c.token.user !in d.suspended && c.token.user !in d.deleted
      then r == s.connects[id := Answered(c.token, c.instance, c.force, c.asked, d.reservation.value.gen)]
      else r == s.connects - {id}
  {
  }
}
