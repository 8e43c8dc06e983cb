/** Which answer each name operation gives, and who may end a reservation or a hold. */
module NameTablesVerdicts {
  import opened Limits
  import opened NameTables
  import opened NameTablesSafety

  /** An unexpired hold of somebody else, or a block. */
  predicate HeldAgainst(t: Tables, n: nat, user: nat) { n in t.holds && t.holds[n].until > t.now && t.holds[n].owner != Some(user) }

  function MyNames(t: Tables, user: nat): set<nat> { set n | n in t.names && t.names[n].user == user }

  /** The user's unexpired holds on other names. */
  function MyHolds(t: Tables, user: nat, except: nat): set<nat> {
    set n | n in t.holds && n != except && t.holds[n].owner == Some(user) && t.holds[n].until > t.now
  }

  predicate MyActive(t: Tables, user: nat, n: nat) { n in t.names && t.names[n].user == user && t.names[n].active }

  /** The user's first name by age, then by name. */
  ghost predicate MyOldest(t: Tables, user: nat, n: nat) {
    n in t.names && t.names[n].user == user &&
    forall m :: m in t.names && t.names[m].user == user && m != n ==>
      t.names[n].created < t.names[m].created || (t.names[n].created == t.names[m].created && n < m)
  }

  lemma OldestIsFirst(t: Tables, user: nat, n: nat)
    requires IsOldest(t, user, n)
    ensures MyOldest(t, user, n)
  {
    forall m | m in t.names && t.names[m].user == user && m != n
      ensures t.names[n].created < t.names[m].created || (t.names[n].created == t.names[m].created && n < m)
    {
      assert Owns(t, user, m) && Before(t, n, m);
    }
  }

  predicate InGoodStanding(t: Tables, user: nat) { user in t.users && t.users[user].status == Active }

  lemma SameCounts(t: Tables, user: nat, n: nat)
    ensures NamesOf(t, user) == MyNames(t, user)
    ensures HoldCount(t, user, n) == |MyHolds(t, user, n)|
    ensures HeldForOther(t, n, user) == HeldAgainst(t, n, user)
  {
    assert HoldsOf(t, user) - {n} == MyHolds(t, user, n);
  }

  // ---------------------------------------------------------------- connecting

  /** The owner is let in or turned away by the two statuses, a former owner is told where the name went, nobody else learns anything. */
  lemma ConnectVerdict(t: Tables, user: nat, n: nat)
    ensures Connect(t, user, n) ==
      if n in t.names && t.names[n].user == user then
        if t.names[n].active && user in t.users && t.users[user].status == Active then Granted(t.names[n].gen) else Forbidden
      else if n in t.holds && t.holds[n].owner == Some(user) && t.holds[n].until > t.now then
        match t.holds[n].hint
        case Some(m) => Moved(m)
        case None => Removed
      else Unknown
  {
  }

  /**
   * A rename goes through exactly when the name is the user's and unchanged since it was read, the user
   * is active, the target is free, and the hold it leaves fits. Its old name then answers Moved to the
   * new one, which is granted under a fresh generation, as do all the user's hints that led to the old
   * name; nobody else is told anything. Otherwise nothing changes.
   */
  lemma RenameVerdict(steps: seq<Step>, user: nat, from: nat, target: nat, seen: nat)
    ensures var t, r := Run(steps), Do(Run(steps), DoRename(user, from, target, seen));
      if && from != target && MyActive(t, user, from) && t.names[from].gen == seen && InGoodStanding(t, user)
         && target !in t.names && !HeldAgainst(t, target, user) && |MyHolds(t, user, from)| < 20
      then
        && Connect(r, user, from) == Moved(target)
        && Connect(r, user, target) == Granted(t.nextGen) && t.nextGen > seen
        && r.names == (t.names - {from})[target := t.names[from].(gen := t.nextGen)]
        && (forall k :: k != from && k != target && Connect(t, user, k) == Moved(from) ==> Connect(r, user, k) == Moved(target))
        && (forall other :: other != user ==> Connect(r, other, from) == Unknown)
      else r == t
  {
    hide Run, Inv, Rename, HoldCount, HoldsOf, MyHolds, Connect;
    RunKeeps(steps);
    SameCounts(Run(steps), user, from);
    SameCounts(Run(steps), user, target);
    if CanRename(Run(steps), user, from, target, seen) && target !in Run(steps).names {
      RenameAnswers(Run(steps), user, from, target, seen);
    } else {
      RenameRefused(Run(steps), user, from, target, seen);
    }
  }

  lemma RenameRefused(t: Tables, user: nat, from: nat, target: nat, seen: nat)
    requires !CanRename(t, user, from, target, seen) || target in t.names
    ensures Rename(t, user, from, target, seen) == t
  {
  }

  lemma RenameAnswers(t: Tables, user: nat, from: nat, target: nat, seen: nat)
    requires Inv(t) && CanRename(t, user, from, target, seen) && target !in t.names
    ensures var r := Rename(t, user, from, target, seen);
      && Connect(r, user, from) == Moved(target)
      && Connect(r, user, target) == Granted(t.nextGen) && t.nextGen > seen
      && r.names == (t.names - {from})[target := t.names[from].(gen := t.nextGen)]
      && (forall k :: k != from && k != target && Connect(t, user, k) == Moved(from) ==> Connect(r, user, k) == Moved(target))
      && (forall other :: other != user ==> Connect(r, other, from) == Unknown)
  {
    hide DefaultsOk, HoldCapOk, HintsEnd, HoldCount, HeldForOther;
  }

  /** A free name goes to an active user below quota, as the default if it is the first; a hold of their own is used up. */
  lemma ReserveVerdict(steps: seq<Step>, user: nat, n: nat)
    ensures var t, r := Run(steps), Do(Run(steps), DoReserve(user, n));
      if InGoodStanding(t, user) && |MyNames(t, user)| < t.users[user].maxNames && n !in t.names && !HeldAgainst(t, n, user) then
        && r.names == t.names[n := Row(user, t.nextGen, MyNames(t, user) == {}, true, t.now)]
        && r.nextGen == t.nextGen + 1 && r.users == t.users && r.now == t.now
        && r.holds == (if n in t.holds && t.holds[n].owner == Some(user) then t.holds - {n} else t.holds)
        && Connect(r, user, n) == Granted(t.nextGen)
      else r == t
  {
    hide Run, Reserve, NamesOf, MyNames, Connect;
    SameCounts(Run(steps), user, n);
    ReserveAnswers(Run(steps), user, n);
  }

  lemma ReserveAnswers(t: Tables, user: nat, n: nat)
    ensures var r := Reserve(t, user, n);
      if CanReserve(t, user, n) && n !in t.names then
        && r.names == t.names[n := Row(user, t.nextGen, NamesOf(t, user) == {}, true, t.now)]
        && r.nextGen == t.nextGen + 1 && r.users == t.users && r.now == t.now
        && r.holds == (if n in t.holds && t.holds[n].owner == Some(user) then t.holds - {n} else t.holds)
        && Connect(r, user, n) == Granted(t.nextGen)
      else r == t
  {
    hide NamesOf;
  }

  /** A removed name answers Removed to its former owner for a year, or Unknown if it left no hold. */
  lemma RemoveVerdict(steps: seq<Step>, user: nat, n: nat, noHold: bool)
    ensures var t, r := Run(steps), Do(Run(steps), DoRemove(user, n, noHold));
      if MyActive(t, user, n) && (noHold || |MyHolds(t, user, n)| < 20) then
        && r.names.Keys == t.names.Keys - {n}
        && r.holds == (if noHold then t.holds else t.holds[n := Hold(Some(user), t.now + 31536000, None)])
        && (!noHold ==> Connect(r, user, n) == Removed)
        && (noHold ==> Connect(r, user, n) == Unknown)
      else r.names.Keys == t.names.Keys && r.holds == t.holds
  {
    hide Run, DefaultsOk, HoldCapOk, HintsEnd, GensOk, Promoted, HoldCount;
    RunKeeps(steps);
    var t := Run(steps);
    SameCounts(t, user, n);
    PromotedFrame(if !CanRemove(t, user, n, noHold) then t else t.(names := t.names - {n},
      holds := if noHold then t.holds else t.holds[n := Hold(Some(user), t.now + HOLD_SECONDS, None)]), user);
  }

  // ---------------------------------------------------------------- who may end what

  /** The reservation of `n` stays with its user, generation, status and age. */
  predicate Kept(t: Tables, r: Tables, n: nat)
    requires n in t.names
  {
    n in r.names && r.names[n] == t.names[n].(isDefault := r.names[n].isDefault)
  }

  /** A reservation ends or changes by its owner's rename or removal, the owner's deletion, or an admin's hand; by nothing else. */
  lemma ReservationsLast(t: Tables, step: Step, n: nat)
    requires n in t.names && !Kept(t, Do(t, step), n)
    ensures match step
      case DoRename(user, from, _, _) => user == t.names[n].user && from == n && t.names[n].active
      case DoRemove(user, name, _) => user == t.names[n].user && name == n && t.names[n].active
      case DoDeleteAccount(user) => user == t.names[n].user && InGoodStanding(t, user)
      case DoBlock(name) => name == n
      case DoSuspendName(name, suspended) => name == n && t.names[n].active == suspended
      case _ => false
  {
    hide Promoted, HoldCount, Repointed, HoldsOf;
    match step
    case DoRemove(user, name, noHold) =>
      PromotedFrame(if !CanRemove(t, user, name, noHold) then t else t.(names := t.names - {name},
        holds := if noHold then t.holds else t.holds[name := Hold(Some(user), t.now + HOLD_SECONDS, None)]), user);
    case DoBlock(name) =>
      if OwnerOf(t, name).Some? {
        PromotedFrame(t.(names := t.names - {name}), OwnerOf(t, name).value);
      }
    case _ =>
  }

  /** The hold on `n` stays with its owner and end. */
  predicate StillHeld(t: Tables, r: Tables, n: nat)
    requires n in t.holds
  {
    n in r.holds && r.holds[n] == t.holds[n].(hint := r.holds[n].hint)
  }

  /** An unexpired hold ends by its owner taking the name back, or an admin's hand; by nothing else. */
  lemma HoldsLast(steps: seq<Step>, step: Step, n: nat)
    requires n in Run(steps).holds && Run(steps).holds[n].until > Do(Run(steps), step).now
    requires !StillHeld(Run(steps), Do(Run(steps), step), n)
    ensures match step
      case DoReserve(user, name) => name == n && Run(steps).holds[n].owner == Some(user)
      case DoRename(user, _, target, _) => target == n && Run(steps).holds[n].owner == Some(user)
      case DoBlock(name) => name == n
      case DoRelease(name) => name == n
      case DoAdminReserve(name, _) => name == n
      case _ => false
  {
    hide Run, DefaultsOk, HoldCapOk, HintsEnd, GensOk, Promoted, HoldCount, HoldsOf;
    RunKeeps(steps);
    var t := Run(steps);
    assert n in t.names ==> !Held(t, n);
    match step
    case DoRemove(user, name, noHold) =>
      PromotedFrame(if !CanRemove(t, user, name, noHold) then t else t.(names := t.names - {name},
        holds := if noHold then t.holds else t.holds[name := Hold(Some(user), t.now + HOLD_SECONDS, None)]), user);
    case DoBlock(name) =>
      if OwnerOf(t, name).Some? {
        PromotedFrame(t.(names := t.names - {name}), OwnerOf(t, name).value);
      }
    case _ =>
  }

  /** What an admin, the clock and the retention cron do, and do no more of. */
  lemma AdminVerdict(t: Tables, step: Step)
    ensures var r := Do(t, step);
      match step
      case DoAddUser(user, max) => r == t.(users := if user in t.users then t.users else t.users[user := Account(Active, max)])
      case DoSuspendName(n, suspended) =>
        r == t.(names := r.names) && r.names.Keys == t.names.Keys
        && forall k :: k in t.names ==> r.names[k] == if k == n then t.names[k].(active := !suspended) else t.names[k]
      case DoSuspendUser(user, suspended) =>
        r == t.(users := r.users) && r.users.Keys == t.users.Keys
        && forall k :: k in t.users ==>
             if k == user && t.users[k].status != Deleted then r.users[k] == t.users[k].(status := if suspended then Suspended else Active)
             else r.users[k] == t.users[k]
      case DoSetMaxNames(user, max) =>
        r == t.(users := r.users) && r.users.Keys == t.users.Keys
        && forall k :: k in t.users ==> r.users[k] == if k == user then t.users[k].(maxNames := max) else t.users[k]
      case DoRelease(n) => r == t.(holds := t.holds - {n})
      case DoAdminReserve(n, user) =>
        if n in t.names then r == t
        else r.names == t.names[n := Row(user, t.nextGen, MyNames(t, user) == {}, true, t.now)] && r.holds == t.holds - {n}
      case DoRetention =>
        r == t.(holds := r.holds)
        && (forall k :: k in r.holds <==> k in t.holds && (t.holds[k].until > t.now || t.holds[k].owner == None))
        && (forall k :: k in r.holds ==> r.holds[k] == t.holds[k])
      case DoTick(seconds) => r == t.(now := t.now + seconds)
      case _ => true
  {
    hide Promoted, Repointed, HoldCount, HoldsOf, Rename, Reserve, Remove, Block, DeleteAccount, SetDefault;
    if step.DoAdminReserve? {
      SameCounts(t, step.user, step.n);
    }
  }
}
