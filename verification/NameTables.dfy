/**
 * The name tables: reservations, released names (holds) and accounts.
 *
 * Each function is the meaning of one D1 batch, all of it or (on a UNIQUE violation) none of it.
 * Names are natural numbers in their sort order, generations are fresh numbers. What a request read
 * before its batch (a generation, the hold count, a name's owner) is a parameter.
 */
module NameTables {
  import opened Limits

  const HOLD_SECONDS: int := 365 * 24 * 3600
  const BLOCK_SECONDS: int := 100 * 365 * 24 * 3600
  const MAX_HOLDS: int := 20

  datatype Row = Row(user: nat, gen: nat, isDefault: bool, active: bool, created: int)

  /** A hold for its previous owner, or for nobody (`__blocked__`); `hint` is renamed_to. */
  datatype Hold = Hold(owner: Option<nat>, until: int, hint: Option<nat>)

  datatype Status = Active | Suspended | Deleted

  datatype Account = Account(status: Status, maxNames: int)

  datatype Tables = Tables(names: map<nat, Row>, holds: map<nat, Hold>, users: map<nat, Account>, nextGen: nat, now: nat)

  const Start := Tables(map[], map[], map[], 0, 0)

  predicate Owns(t: Tables, user: nat, n: nat) { n in t.names && t.names[n].user == user }

  function NamesOf(t: Tables, user: nat): set<nat> { set n | n in t.names && t.names[n].user == user }

  predicate Held(t: Tables, n: nat) { n in t.holds && t.holds[n].until > t.now }

  predicate HeldForOther(t: Tables, n: nat, user: nat) { Held(t, n) && t.holds[n].owner != Some(user) }

  function HoldsOf(t: Tables, user: nat): set<nat> { set n | n in t.holds && t.holds[n].owner == Some(user) && t.holds[n].until > t.now }

  function HoldCount(t: Tables, user: nat, except: nat): nat { |HoldsOf(t, user) - {except}| }

  predicate ActiveUser(t: Tables, user: nat) { user in t.users && t.users[user].status == Active }

  predicate DeletedUser(t: Tables, user: nat) { user in t.users && t.users[user].status == Deleted }

  /** A hold of `user` on `n` goes. */
  function Consume(t: Tables, n: nat, user: nat): map<nat, Hold> {
    if n in t.holds && t.holds[n].owner == Some(user) then t.holds - {n} else t.holds
  }

  // ---------------------------------------------------------------- the oldest name

  /** ORDER BY created_at, name. */
  predicate Before(t: Tables, n: nat, m: nat)
    requires n in t.names && m in t.names
  {
    t.names[n].created < t.names[m].created || (t.names[n].created == t.names[m].created && n <= m)
  }

  ghost predicate IsOldest(t: Tables, user: nat, n: nat) { Owns(t, user, n) && forall m :: Owns(t, user, m) ==> Before(t, n, m) }

  lemma {:induction false} OldestAmong(t: Tables, candidates: set<nat>) returns (n: nat)
    requires candidates != {} && candidates <= t.names.Keys
    ensures n in candidates && forall m :: m in candidates ==> Before(t, n, m)
    decreases |candidates|
  {
    n :| n in candidates;
    var rest := candidates - {n};
    assert forall m :: m in candidates ==> m == n || m in rest;
    if rest != {} {
      var k := OldestAmong(t, rest);
      forall m | m in candidates
        ensures Before(t, if Before(t, k, n) then k else n, m)
      {
        assert m == n || m in rest;
      }
      n := if Before(t, k, n) then k else n;
    }
  }

  lemma OldestExists(t: Tables, user: nat)
    requires NamesOf(t, user) != {}
    ensures exists n :: IsOldest(t, user, n)
  {
    var n := OldestAmong(t, NamesOf(t, user));
    assert IsOldest(t, user, n) by {
      forall m | Owns(t, user, m)
        ensures Before(t, n, m)
      {
        assert m in NamesOf(t, user);
      }
    }
  }

  ghost function Oldest(t: Tables, user: nat): (n: nat)
    requires NamesOf(t, user) != {}
    ensures IsOldest(t, user, n)
  {
    OldestExists(t, user);
    var n :| IsOldest(t, user, n);
    n
  }

  ghost predicate HasDefault(t: Tables, user: nat) { exists n :: Owns(t, user, n) && t.names[n].isDefault }

  /** Promotes the oldest remaining name when the user has names but no default. */
  ghost function Promoted(t: Tables, user: nat): Tables {
    if NamesOf(t, user) == {} || HasDefault(t, user) then t
    else var n := Oldest(t, user); t.(names := t.names[n := t.names[n].(isDefault := true)])
  }

  // ---------------------------------------------------------------- owner operations

  predicate CanReserve(t: Tables, user: nat, n: nat) {
    ActiveUser(t, user) && |NamesOf(t, user)| < t.users[user].maxNames && !HeldForOther(t, n, user)
  }

  function Reserve(t: Tables, user: nat, n: nat): Tables {
    if !CanReserve(t, user, n) || n in t.names then t
    else
      t.(names := t.names[n := Row(user, t.nextGen, NamesOf(t, user) == {}, true, t.now)], nextGen := t.nextGen + 1,
         holds := Consume(t, n, user))
  }

  /** `seen` is the generation read before the batch. */
  predicate CanRename(t: Tables, user: nat, from: nat, target: nat, seen: nat) {
    && from != target && Owns(t, user, from) && t.names[from].active && t.names[from].gen == seen
    && ActiveUser(t, user) && !HeldForOther(t, target, user) && HoldCount(t, user, from) < MAX_HOLDS
  }

  /** Hints of the user's holds on `from` now say `target`. */
  function Repointed(holds: map<nat, Hold>, user: nat, from: nat, target: nat): map<nat, Hold> {
    map k | k in holds ::
      if holds[k].owner == Some(user) && holds[k].hint == Some(from) then holds[k].(hint := Some(target)) else holds[k]
  }

  function Rename(t: Tables, user: nat, from: nat, target: nat, seen: nat): Tables {
    if !CanRename(t, user, from, target, seen) || target in t.names then t
    else
      t.(names := (t.names - {from})[target := t.names[from].(gen := t.nextGen)], nextGen := t.nextGen + 1,
         holds := Repointed(Consume(t, target, user)[from := Hold(Some(user), t.now + HOLD_SECONDS, Some(target))], user, from, target))
  }

  /** `noHold` is the decision taken on the hold count read before the batch. */
  predicate CanRemove(t: Tables, user: nat, n: nat, noHold: bool) {
    Owns(t, user, n) && t.names[n].active && (noHold || HoldCount(t, user, n) < MAX_HOLDS)
  }

  ghost function Remove(t: Tables, user: nat, n: nat, noHold: bool): Tables {
    Promoted(
      if !CanRemove(t, user, n, noHold) then t
      else
        t.(names := t.names - {n},
           holds := if noHold then t.holds else t.holds[n := Hold(Some(user), t.now + HOLD_SECONDS, None)]),
      user)
  }

  function SetDefault(t: Tables, user: nat, n: nat): Tables {
    if !Owns(t, user, n) then t
    else t.(names := map k | k in t.names :: if t.names[k].user == user then t.names[k].(isDefault := k == n) else t.names[k])
  }

  // ---------------------------------------------------------------- admin operations

  /** `seenOwner` is the owner read before the batch. */
  ghost function Block(t: Tables, n: nat, seenOwner: Option<nat>): Tables {
    var t1 := t.(names := t.names - {n});
    var t2 := if seenOwner.Some? then Promoted(t1, seenOwner.value) else t1;
    t2.(holds := t2.holds[n := Hold(None, t.now + BLOCK_SECONDS, None)])
  }

  function OwnerOf(t: Tables, n: nat): Option<nat> { if n in t.names then Some(t.names[n].user) else None }

  function Release(t: Tables, n: nat): Tables { t.(holds := t.holds - {n}) }

  function AdminReserve(t: Tables, n: nat, user: nat): Tables {
    if n in t.names then t
    else
      t.(names := t.names[n := Row(user, t.nextGen, NamesOf(t, user) == {}, true, t.now)], nextGen := t.nextGen + 1,
         holds := t.holds - {n})
  }

  /** A deleted account's names are held a year, a suspended one for nobody. */
  function ReleasedHolds(t: Tables, user: nat): map<nat, Hold> {
    map n | n in NamesOf(t, user) :: Hold(if t.names[n].active then Some(user) else None, t.now + HOLD_SECONDS, None)
  }

  function DeleteAccount(t: Tables, user: nat): Tables {
    if !ActiveUser(t, user) then t
    else
      t.(users := t.users[user := t.users[user].(status := Deleted)],
         holds := t.holds + ReleasedHolds(t, user),
         names := t.names - NamesOf(t, user))
  }

  function SuspendName(t: Tables, n: nat, suspended: bool): Tables {
    if n in t.names && t.names[n].active == suspended then t.(names := t.names[n := t.names[n].(active := !suspended)]) else t
  }

  function SuspendUser(t: Tables, user: nat, suspended: bool): Tables {
    if user in t.users && t.users[user].status == (if suspended then Active else Suspended)
    then t.(users := t.users[user := t.users[user].(status := if suspended then Suspended else Active)]) else t
  }

  function SetMaxNames(t: Tables, user: nat, max: int): Tables {
    if user in t.users then t.(users := t.users[user := t.users[user].(maxNames := max)]) else t
  }

  function AddUser(t: Tables, user: nat, max: int): Tables {
    if user in t.users then t else t.(users := t.users[user := Account(Active, max)])
  }

  /** The retention cron drops expired holds, blocks excepted. */
  function Retention(t: Tables): Tables {
    t.(holds := map n | n in t.holds && (t.holds[n].until > t.now || t.holds[n].owner.None?) :: t.holds[n])
  }

  // ---------------------------------------------------------------- connecting

  datatype Answer = Granted(gen: nat) | Forbidden | Moved(to: nat) | Removed | Unknown

  function Connect(t: Tables, user: nat, n: nat): Answer {
    if Owns(t, user, n) then
      if t.names[n].active && ActiveUser(t, user) then Granted(t.names[n].gen) else Forbidden
    else if Held(t, n) && t.holds[n].owner == Some(user) then
      if t.holds[n].hint.Some? then Moved(t.holds[n].hint.value) else Removed
    else Unknown
  }

  // ---------------------------------------------------------------- runs

  datatype Step =
    | DoAddUser(user: nat, max: int)
    | DoReserve(user: nat, n: nat)
    | DoRename(user: nat, from: nat, target: nat, seen: nat)
    | DoRemove(user: nat, n: nat, noHold: bool)
    | DoSetDefault(user: nat, n: nat)
    | DoBlock(n: nat)
    | DoRelease(n: nat)
    | DoAdminReserve(n: nat, user: nat)
    | DoDeleteAccount(user: nat)
    | DoSuspendName(n: nat, suspended: bool)
    | DoSuspendUser(user: nat, suspended: bool)
    | DoSetMaxNames(user: nat, max: int)
    | DoRetention
    | DoTick(seconds: nat)

  ghost function Do(t: Tables, step: Step): Tables {
    match step
    case DoAddUser(user, max) => AddUser(t, user, max)
    case DoReserve(user, n) => Reserve(t, user, n)
    case DoRename(user, from, target, seen) => Rename(t, user, from, target, seen)
    case DoRemove(user, n, noHold) => Remove(t, user, n, noHold)
    case DoSetDefault(user, n) => SetDefault(t, user, n)
    case DoBlock(n) => Block(t, n, OwnerOf(t, n))
    case DoRelease(n) => Release(t, n)
    case DoAdminReserve(n, user) => AdminReserve(t, n, user)
    case DoDeleteAccount(user) => DeleteAccount(t, user)
    case DoSuspendName(n, suspended) => SuspendName(t, n, suspended)
    case DoSuspendUser(user, suspended) => SuspendUser(t, user, suspended)
    case DoSetMaxNames(user, max) => SetMaxNames(t, user, max)
    case DoRetention => Retention(t)
    case DoTick(seconds) => t.(now := t.now + seconds)
  }

  /** The tables after a run of batches; time never goes back. */
  ghost function Run(steps: seq<Step>): Tables {
    if steps == [] then Start else Do(Run(steps[..|steps| - 1]), steps[|steps| - 1])
  }
}
