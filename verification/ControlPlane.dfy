/**
 * Admission of agent sockets to one tunnel object, racing the control plane.
 *
 * D1 (`Store`), the outbox, connects in flight and the tunnel object are interleaved; a step is one
 * D1 statement batch or one stretch of the object's code without await. Outbox rows are delivered in
 * any order and any number of times. Everything is about the object's one name.
 */
module ControlPlane {
  import opened Limits

  // ---------------------------------------------------------------- state

  datatype Token = Token(user: nat, serial: nat)

  datatype Reservation = Reservation(user: nat, gen: nat, active: bool)

  datatype Action = Goaway(gen: nat) | SetSuspended(suspended: bool, gen: nat) | RevokeToken(token: Token) | RevokeUser(user: nat)

  /** D1 as far as this name is concerned; generations are fresh, `nextGen` being the next one. */
  datatype Store = Store(reservation: Option<Reservation>, nextGen: nat, suspended: set<nat>, deleted: set<nat>,
                         revoked: set<Token>, sessions: set<Token>, outbox: multiset<Action>)

  /** An agent socket with its attachment. */
  datatype Socket = Socket(gen: nat, token: Token, instance: nat, open: bool, draining: bool)

  /** `puts` counts setSuspended(true) calls still awaiting storage. */
  datatype Object = Object(gen: Option<nat>, suspended: bool, controlSeq: nat, epoch: nat, sockets: map<nat, Socket>, puts: nat)

  /** A connect in the object before and after its D1 read, with controlSeq as it was; a refused one is forgotten. */
  datatype Connect =
    | Asked(token: Token, instance: nat, force: bool, asked: nat)
    | Answered(token: Token, instance: nat, force: bool, asked: nat, gen: nat)

  /** `recording` and `revoking`: recordSession calls before their insert, and before their revokeToken. */
  datatype State = State(store: Store, tunnel: Object, connects: map<nat, Connect>, recording: multiset<Token>,
                         revoking: multiset<Token>)

  const Start := State(Store(None, 0, {}, {}, {}, {}, multiset{}), Object(None, false, 0, 0, map[], 0), map[], multiset{}, multiset{})

  // ---------------------------------------------------------------- the object

  /** Which sockets an operation closes. */
  datatype Scope = All | OtherGen(gen: nat) | OfToken(token: Token) | OfUser(user: nat) | Epoch(epoch: nat)

  predicate Covers(scope: Scope, epoch: nat, s: Socket) {
    match scope
    case All => true
    case OtherGen(gen) => s.gen != gen
    case OfToken(token) => s.token == token
    case OfUser(user) => s.token.user == user
    case Epoch(e) => epoch == e
  }

  function Dropped(sockets: map<nat, Socket>, scope: Scope): (r: map<nat, Socket>) {
    map e | e in sockets :: if Covers(scope, e, sockets[e]) then sockets[e].(open := false) else sockets[e]
  }

  function Drop(o: Object, scope: Scope): Object { o.(sockets := Dropped(o.sockets, scope)) }

  predicate OpenAt(sockets: map<nat, Socket>, e: nat) { e in sockets && sockets[e].open }

  /** The OPEN socket of the highest epoch up to `n`. */
  function Current(sockets: map<nat, Socket>, n: nat): Option<nat> {
    if OpenAt(sockets, n) then Some(n) else if n == 0 then None else Current(sockets, n - 1)
  }

  predicate GenMatches(o: Object, gen: Option<nat>) { gen.None? || o.gen.None? || gen == o.gen }

  function OnGoaway(o: Object, gen: Option<nat>): Object {
    if GenMatches(o, gen) then Drop(o, All).(controlSeq := o.controlSeq + 1) else o
  }

  /** setSuspended up to its await; the goaway comes after. */
  function OnSetSuspended(o: Object, suspended: bool, gen: nat): Object {
    if !GenMatches(o, Some(gen)) then o
    else o.(controlSeq := o.controlSeq + 1, suspended := suspended, puts := if suspended then o.puts + 1 else o.puts)
  }

  function OnRevokeToken(o: Object, token: Token): Object { Drop(o, OfToken(token)) }

  function OnRevokeUser(o: Object, user: nat): Object { Drop(o, OfUser(user)).(controlSeq := o.controlSeq + 1) }

  function Deliver(o: Object, a: Action): Object {
    match a
    case Goaway(gen) => OnGoaway(o, Some(gen))
    case SetSuspended(suspended, gen) => OnSetSuspended(o, suspended, gen)
    case RevokeToken(token) => OnRevokeToken(o, token)
    case RevokeUser(user) => OnRevokeUser(o, user)
  }

  function Adopt(o: Object, gen: nat): Object { Drop(o, OtherGen(gen)).(gen := Some(gen), suspended := false) }

  function Admit(o: Object, gen: nat, c: Connect): Object {
    o.(epoch := o.epoch + 1, sockets := o.sockets[o.epoch + 1 := Socket(gen, c.token, c.instance, true, false)])
  }

  /** The replace rules; `dead` says the current agent answers no ping or never said HELLO. */
  predicate MayReplace(current: Socket, c: Connect, dead: bool) {
    current.instance == c.instance || dead || current.draining || c.force
  }

  /** A draining agent of another instance keeps its socket to finish its streams. */
  predicate Keeps(current: Socket, c: Connect, dead: bool) { current.instance != c.instance && !dead && current.draining }

  function Accept(o: Object, gen: nat, c: Connect, dead: bool): (r: (Object, bool)) {
    if o.suspended then (o, false)
    else match Current(o.sockets, o.epoch)
      case None => (Admit(o, gen, c), true)
      case Some(e) =>
        if OpenAt(o.sockets, e) && !MayReplace(o.sockets[e], c, dead) then (o, false)
        else if OpenAt(o.sockets, e) && Keeps(o.sockets[e], c, dead) then (Admit(o, gen, c), true)
        else (Admit(Drop(o, Epoch(e)), gen, c), true)
  }

  /** connectAgent after its D1 read. */
  function Finish(o: Object, c: Connect, dead: bool): (Object, bool)
    requires c.Answered?
  {
    if o.controlSeq != c.asked then (o, false)
    else Accept(if o.gen == Some(c.gen) then o else Adopt(o, c.gen), c.gen, c, dead)
  }

  // ---------------------------------------------------------------- D1

  predicate UserActive(d: Store, user: nat) { user !in d.suspended && user !in d.deleted }

  /** The generation `user` may connect to now. */
  function Authz(d: Store, user: nat): Option<nat> {
    if d.reservation.Some? && d.reservation.value.user == user && d.reservation.value.active && UserActive(d, user)
    then Some(d.reservation.value.gen) else None
  }

  predicate Revoked(d: Store, token: Token) { token in d.revoked || token.user in d.deleted }

  function Push(d: Store, a: Action): Store { d.(outbox := d.outbox + multiset{a}) }

  /** A name is reserved, by its owner, by a rename to it or by an admin. */
  function StoreReserve(d: Store, user: nat): Store {
    if d.reservation.Some? then d
    else d.(reservation := Some(Reservation(user, d.nextGen, true)), nextGen := d.nextGen + 1)
  }

  /** Renamed away, removed or blocked: the row goes and its goaway is enqueued in the same batch. */
  function StoreRelease(d: Store): Store {
    if d.reservation.None? then d else Push(d.(reservation := None), Goaway(d.reservation.value.gen))
  }

  function StoreSuspendName(d: Store, suspended: bool): Store {
    if d.reservation.None? || d.reservation.value.active != suspended then d
    else Push(d.(reservation := Some(d.reservation.value.(active := !suspended))), SetSuspended(suspended, d.reservation.value.gen))
  }

  function StoreSuspendUser(d: Store, user: nat, suspended: bool): Store {
    if user in d.deleted || (user in d.suspended) == suspended then d
    else if !suspended then d.(suspended := d.suspended - {user})
    else
      var d1 := d.(suspended := d.suspended + {user});
      if d.reservation.Some? && d.reservation.value.user == user then Push(d1, RevokeUser(user)) else d1
  }

  predicate HasTrace(d: Store, user: nat) {
    (exists t :: t in d.sessions && t.user == user) || (d.reservation.Some? && d.reservation.value.user == user)
  }

  /** The account delete batch: tokens revoked, revokeUser enqueued, sessions and names gone. */
  function StoreDeleteUser(d: Store, user: nat): Store {
    if !UserActive(d, user) then d
    else
      var d1 := if HasTrace(d, user) then Push(d, RevokeUser(user)) else d;
      d1.(deleted := d.deleted + {user},
          sessions := (set t | t in d.sessions && t.user != user),
          reservation := if d.reservation.Some? && d.reservation.value.user == user then None else d.reservation)
  }

  function StoreRevoke(d: Store, token: Token): Store {
    if Revoked(d, token) then d
    else
      var d1 := d.(revoked := d.revoked + {token});
      if token in d.sessions then Push(d1, RevokeToken(token)) else d1
  }

  // ---------------------------------------------------------------- the whole system

  function StepDeliver(s: State, a: Action, finished: bool): State {
    if a !in s.store.outbox then s
    else
      s.(tunnel := Deliver(s.tunnel, a),
         store := if finished then s.store.(outbox := s.store.outbox - multiset{a}) else s.store)
  }

  /** setSuspended(true) after its await. */
  function StepPut(s: State): State {
    if s.tunnel.puts == 0 then s else s.(tunnel := OnGoaway(s.tunnel.(puts := s.tunnel.puts - 1), None))
  }

  function StepSetTrusted(s: State): State { s.(tunnel := s.tunnel.(controlSeq := s.tunnel.controlSeq + 1)) }

  function StepAsk(s: State, id: nat, token: Token, instance: nat, force: bool): State {
    if id in s.connects then s
    else s.(connects := s.connects[id := Asked(token, instance, force, s.tunnel.controlSeq)])
  }

  function StepRead(s: State, id: nat): State {
    if id !in s.connects || s.connects[id].Answered? then s
    else
      var c := s.connects[id];
      match Authz(s.store, c.token.user)
      case None => s.(connects := s.connects - {id})
      case Some(gen) => s.(connects := s.connects[id := Answered(c.token, c.instance, c.force, c.asked, gen)])
  }

  function StepFinish(s: State, id: nat, dead: bool): State {
    if id !in s.connects || s.connects[id].Asked? then s
    else
      var c := s.connects[id];
      var (o, accepted) := Finish(s.tunnel, c, dead);
      s.(tunnel := o, connects := s.connects - {id},
         recording := if accepted then s.recording + multiset{c.token} else s.recording)
  }

  /** The guarded insert of recordSession, or the revocation it found out about. */
  function StepRecord(s: State, token: Token): State {
    if token !in s.recording then s
    else if Revoked(s.store, token) then
      s.(recording := s.recording - multiset{token}, revoking := s.revoking + multiset{token})
    else s.(recording := s.recording - multiset{token}, store := s.store.(sessions := s.store.sessions + {token}))
  }

  function StepRevokeFresh(s: State, token: Token): State {
    if token !in s.revoking then s
    else s.(revoking := s.revoking - multiset{token}, tunnel := OnRevokeToken(s.tunnel, token))
  }

  function StepDrain(s: State, e: nat): State {
    if OpenAt(s.tunnel.sockets, e)
    then s.(tunnel := s.tunnel.(sockets := s.tunnel.sockets[e := s.tunnel.sockets[e].(draining := true)])) else s
  }

  /** The agent went away or broke the protocol. */
  function StepClose(s: State, e: nat): State { s.(tunnel := Drop(s.tunnel, Epoch(e))) }

  /** Hibernation forgets controlSeq; sockets and storage survive, and nothing is in flight. */
  function StepHibernate(s: State): State {
    if s.connects == map[] && s.tunnel.puts == 0 then s.(tunnel := s.tunnel.(controlSeq := 0)) else s
  }

  datatype Step =
    | DoReserve(user: nat)
    | DoRelease
    | DoSuspendName(suspended: bool)
    | DoSuspendUser(user: nat, suspended: bool)
    | DoDeleteUser(user: nat)
    | DoRevokeToken(token: Token)
    | DoDeliver(action: Action, finished: bool)
    | DoPut
    | DoSetTrusted
    | DoAsk(id: nat, token: Token, instance: nat, force: bool)
    | DoRead(id: nat)
    | DoFinish(id: nat, dead: bool)
    | DoRecord(token: Token)
    | DoRevokeFresh(token: Token)
    | DoDrain(epoch: nat)
    | DoClose(epoch: nat)
    | DoHibernate

  function Do(s: State, step: Step): State {
    match step
    case DoReserve(user) => s.(store := StoreReserve(s.store, user))
    case DoRelease => s.(store := StoreRelease(s.store))
    case DoSuspendName(suspended) => s.(store := StoreSuspendName(s.store, suspended))
    case DoSuspendUser(user, suspended) => s.(store := StoreSuspendUser(s.store, user, suspended))
    case DoDeleteUser(user) => s.(store := StoreDeleteUser(s.store, user))
    case DoRevokeToken(token) => s.(store := StoreRevoke(s.store, token))
    case DoDeliver(a, finished) => StepDeliver(s, a, finished)
    case DoPut => StepPut(s)
    case DoSetTrusted => StepSetTrusted(s)
    case DoAsk(id, token, instance, force) => StepAsk(s, id, token, instance, force)
    case DoRead(id) => StepRead(s, id)
    case DoFinish(id, dead) => StepFinish(s, id, dead)
    case DoRecord(token) => StepRecord(s, token)
    case DoRevokeFresh(token) => StepRevokeFresh(s, token)
    case DoDrain(e) => StepDrain(s, e)
    case DoClose(e) => StepClose(s, e)
    case DoHibernate => StepHibernate(s)
  }

  /** The state after a run; a step that is not enabled changes nothing. */
  function Run(steps: seq<Step>): State {
    if steps == [] then Start else Do(Run(steps[..|steps| - 1]), steps[|steps| - 1])
  }
}
