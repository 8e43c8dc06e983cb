/** The repository of names, statement by statement, and the client that follows rename hints. */
module NameTablesObjects {
  import opened Limits
  import opened NameTables
  import opened NameTablesSafety
  import opened NameTablesVerdicts

  datatype Outcome = Changed | SameName | NameTaken | NameOnHold | HoldQuota | QuotaExceeded | NotFound | NameSuspended

  function ReserveOutcome(t: Tables, user: nat, n: nat): Outcome {
    if CanReserve(t, user, n) then if n in t.names then NameTaken else Changed
    else if HeldForOther(t, n, user) then NameOnHold else QuotaExceeded
  }

  function RenameOutcome(t: Tables, user: nat, from: nat, target: nat): Outcome {
    if from == target then SameName
    else if !Owns(t, user, from) then NotFound
    else if !t.names[from].active then NameSuspended
    else if CanRename(t, user, from, target, t.names[from].gen) then if target in t.names then NameTaken else Changed
    else if HeldForOther(t, target, user) then NameOnHold
    else if HoldCount(t, user, from) >= MAX_HOLDS then HoldQuota
    else NotFound
  }

  function RemoveOutcome(t: Tables, user: nat, n: nat): Outcome {
    if !Owns(t, user, n) then NotFound else if !t.names[n].active then NameSuspended else Changed
  }

  lemma OldestUnique(t: Tables, user: nat, n: nat, m: nat)
    requires IsOldest(t, user, n) && IsOldest(t, user, m)
    ensures n == m
  {
    assert Before(t, n, m) && Before(t, m, n);
  }

  class NameRepo {
    var names: map<nat, Row>
    var holds: map<nat, Hold>
    var users: map<nat, Account>
    var nextGen: nat
    var now: nat

    ghost function View(): Tables
      reads this
    {
      Tables(names, holds, users, nextGen, now)
    }

    constructor ()
      ensures View() == NameTables.Start
    {
      names, holds, users, nextGen, now := map[], map[], map[], 0, 0;
    }

    method IsHeldForOther(n: nat, user: nat) returns (held: bool)
      ensures held == HeldForOther(View(), n, user)
    {
      held := n in holds && holds[n].until > now && holds[n].owner != Some(user);
    }

    method CountHolds(user: nat, except: nat) returns (count: nat)
      ensures count == HoldCount(View(), user, except)
    {
      var found := {};
      var left := holds.Keys;
      while left != {}
        invariant left <= holds.Keys
        invariant forall n :: n in found <==> n in HoldsOf(View(), user) && n != except && n !in left
        decreases |left|
      {
        var n :| n in left;
        if holds[n].owner == Some(user) && holds[n].until > now && n != except {
          found := found + {n};
        }
        left := left - {n};
      }
      ghost var all := HoldsOf(View(), user) - {except};
      assert forall n :: n in found <==> n in all;
      assert found == all;
      return |found|;
    }

    /** DELETE of the caller's own hold, gated on the row this batch wrote. */
    method ConsumeHold(n: nat, user: nat, gen: nat)
      modifies this`holds
      ensures holds == if n in names && names[n].user == user && names[n].gen == gen
                       then Consume(old(View()), n, user) else old(holds)
    {
      if n in names && names[n].user == user && names[n].gen == gen && n in holds && holds[n].owner == Some(user) {
        holds := holds - {n};
      }
    }

    method Reserve(user: nat, n: nat) returns (outcome: Outcome)
      requires GensOk(View())
      modifies this
      ensures View() == NameTables.Reserve(old(View()), user, n).(nextGen := old(nextGen) + 1)
      ensures outcome == ReserveOutcome(old(View()), user, n)
      ensures outcome ==
        if HeldAgainst(old(View()), n, user) then NameOnHold
        else if !InGoodStanding(old(View()), user) || |MyNames(old(View()), user)| >= old(users)[user].maxNames then QuotaExceeded
        else if n in old(names) then NameTaken
        else Changed
    {
      var gen := nextGen;
      nextGen := nextGen + 1;
      var changes := 0;
      var held := IsHeldForOther(n, user);
      var mine := set k | k in names && names[k].user == user;
      assert mine == NamesOf(old(View()), user);
      if user in users && users[user].status == Active && |mine| < users[user].maxNames && !held {
        if n in names {
          return NameTaken;
        }
        names := names[n := Row(user, gen, mine == {}, true, now)];
        changes := 1;
      }
      ConsumeHold(n, user, gen);
      if changes == 1 {
        return Changed;
      }
      return if held then NameOnHold else QuotaExceeded;
    }

    /** UPDATE released_names SET renamed_to = target WHERE renamed_to = from, for this user. */
    method RepointHints(user: nat, from: nat, target: nat)
      modifies this`holds
      ensures holds == Repointed(old(holds), user, from, target)
    {
      var left := holds.Keys;
      while left != {}
        invariant left <= holds.Keys == old(holds).Keys
        invariant forall k :: k in left ==> holds[k] == old(holds)[k]
        invariant forall k :: k in holds && k !in left ==> holds[k] == Repointed(old(holds), user, from, target)[k]
        decreases |left|
      {
        var k :| k in left;
        if holds[k].owner == Some(user) && holds[k].hint == Some(from) {
          holds := holds[k := holds[k].(hint := Some(target))];
        }
        left := left - {k};
      }
    }

    /** The batch: every statement after the UPDATE acts only if the row with this call's generation is there. */
    method RenameBatch(user: nat, from: nat, target: nat, seen: nat) returns (outcome: Outcome)
      requires GensOk(View()) && from != target && Owns(View(), user, from) && names[from].active && names[from].gen == seen
      modifies this
      ensures var can := CanRename(old(View()), user, from, target, seen);
        outcome == if can then if target in old(names) then NameTaken else Changed else NotFound
      ensures outcome != Changed ==> View() == old(View()).(nextGen := nextGen)
      ensures outcome == Changed ==> View() == NameTables.Rename(old(View()), user, from, target, seen)
    {
      hide GensOk, Repointed, HoldsOf;
      assert target in names ==> names[target].gen < nextGen by { FreshGen(View()); }
      var held := IsHeldForOther(target, user);
      var count := CountHolds(user, from);
      var gen := nextGen;
      nextGen := nextGen + 1;
      var changes := 0;
      if user in users && users[user].status == Active && !held && count < MAX_HOLDS {
        if target in names {
          return NameTaken;
        }
        names := (names - {from})[target := names[from].(gen := gen)];
        changes := 1;
      }
      if target in names && names[target].user == user && names[target].gen == gen {
        holds := holds[from := Hold(Some(user), now + HOLD_SECONDS, Some(target))];
      }
      ConsumeHold(target, user, gen);
      if target in names && names[target].user == user && names[target].gen == gen {
        assert holds == Consume(old(View()), target, user)[from := Hold(Some(user), now + HOLD_SECONDS, Some(target))];
        RepointHints(user, from, target);
      }
      return if changes == 1 then Changed else NotFound;
    }

    lemma FreshGen(t: Tables)
      requires GensOk(t)
      ensures forall n :: n in t.names ==> t.names[n].gen < t.nextGen
    {
    }

    method Rename(user: nat, from: nat, target: nat) returns (outcome: Outcome)
      requires GensOk(View())
      modifies this
      ensures outcome == RenameOutcome(old(View()), user, from, target)
      ensures outcome ==
        if from == target then SameName
        else if from !in old(names) || old(names)[from].user != user then NotFound
        else if !old(names)[from].active then NameSuspended
        else if HeldAgainst(old(View()), target, user) then NameOnHold
        else if |MyHolds(old(View()), user, from)| >= 20 then HoldQuota
        else if !InGoodStanding(old(View()), user) then NotFound
        else if target in old(names) then NameTaken
        else Changed
      ensures outcome != Changed ==> View() == old(View()).(nextGen := nextGen)
      ensures outcome == Changed ==> View() == NameTables.Rename(old(View()), user, from, target, old(names)[from].gen)
    {
      hide GensOk, Repointed, NameTables.Rename;
      SameCounts(View(), user, from);
      SameCounts(View(), user, target);
      if from == target {
        return SameName;
      }
      if from !in names || names[from].user != user {
        return NotFound;
      }
      if !names[from].active {
        return NameSuspended;
      }
      outcome := RenameBatch(user, from, target, names[from].gen);
      if outcome == NotFound {
        var held := IsHeldForOther(target, user);
        var count := CountHolds(user, from);
        outcome := if held then NameOnHold else if count >= MAX_HOLDS then HoldQuota else NotFound;
      }
    }

    /** Promotes the oldest name of a user who has names but no default. */
    method Promote(user: nat)
      modifies this`names
      ensures View() == Promoted(old(View()), user)
      ensures if (exists n :: n in old(names) && old(names)[n].user == user)
                 && (forall n :: n in old(names) && old(names)[n].user == user ==> !old(names)[n].isDefault) then
                exists n :: MyOldest(old(View()), user, n) && names == old(names)[n := old(names)[n].(isDefault := true)]
              else names == old(names)
    {
      var best: Option<nat> := None;
      var left := names.Keys;
      while left != {}
        invariant left <= names.Keys
        invariant forall n :: Owns(View(), user, n) && n !in left ==> !names[n].isDefault
        invariant best.Some? ==> Owns(View(), user, best.value) && best.value !in left
        invariant forall n :: Owns(View(), user, n) && n !in left ==> best.Some? && Before(View(), best.value, n)
        decreases |left|
      {
        var n :| n in left;
        left := left - {n};
        if names[n].user == user {
          if names[n].isDefault {
            assert Owns(View(), user, n) && n in NamesOf(View(), user);
            return;
          }
          if best.None? || names[n].created < names[best.value].created
             || (names[n].created == names[best.value].created && n <= best.value) {
            best := Some(n);
          }
        }
      }
      if best.Some? {
        assert best.value in NamesOf(View(), user) && !HasDefault(View(), user);
        assert IsOldest(View(), user, best.value);
        OldestIsFirst(View(), user, best.value);
        OldestUnique(View(), user, best.value, Oldest(View(), user));
        names := names[best.value := names[best.value].(isDefault := true)];
      } else {
        assert forall n :: n in names ==> !Owns(View(), user, n);
        assert NamesOf(View(), user) == {};
      }
    }

    method Remove(user: nat, n: nat) returns (outcome: Outcome)
      requires NoHoldOnReserved(View())
      modifies this
      ensures outcome == RemoveOutcome(old(View()), user, n)
      ensures outcome ==
        if n !in old(names) || old(names)[n].user != user then NotFound
        else if !old(names)[n].active then NameSuspended
        else Changed
      ensures View() == NameTables.Remove(old(View()), user, n, HoldCount(old(View()), user, n) >= MAX_HOLDS)
    {
      var until := now + HOLD_SECONDS;
      var count := CountHolds(user, n);
      var noHold := count >= MAX_HOLDS;
      if n in names && names[n].user == user && names[n].active && !noHold && count < MAX_HOLDS {
        holds := holds[n := Hold(Some(user), until, None)];
      }
      var gate := noHold || (n in holds && holds[n].owner == Some(user) && holds[n].until == until);
      var changes := 0;
      if n in names && names[n].user == user && names[n].active && gate {
        names := names - {n};
        changes := 1;
      }
      PromotedFrame(View(), user);
      Promote(user);
      if changes == 1 {
        return Changed;
      }
      if n !in names || names[n].user != user {
        return NotFound;
      }
      return if !names[n].active then NameSuspended else NotFound;
    }

    method SetDefault(user: nat, n: nat) returns (outcome: Outcome)
      modifies this
      ensures View() == NameTables.SetDefault(old(View()), user, n)
      ensures outcome == if n in old(names) && old(names)[n].user == user then Changed else NotFound
      ensures outcome == Changed ==> names.Keys == old(names).Keys && forall k :: k in names ==>
        names[k] == old(names)[k].(isDefault := if old(names)[k].user == user then k == n else old(names)[k].isDefault)
    {
      if n !in names || names[n].user != user {
        return NotFound;
      }
      var left := names.Keys;
      while left != {}
        invariant left <= names.Keys == old(names).Keys
        invariant forall k :: k in left ==> names[k] == old(names)[k]
        invariant forall k :: k in names && k !in left ==>
                    names[k] == if old(names)[k].user == user then old(names)[k].(isDefault := false) else old(names)[k]
        invariant holds == old(holds) && users == old(users) && nextGen == old(nextGen) && now == old(now)
        decreases |left|
      {
        var k :| k in left;
        if names[k].user == user && names[k].isDefault {
          names := names[k := names[k].(isDefault := false)];
        }
        left := left - {k};
      }
      names := names[n := names[n].(isDefault := true)];
      assert names == NameTables.SetDefault(old(View()), user, n).names;
      return Changed;
    }

    /** The holds once the user's names outside `left` are held. */
    ghost function HeldBut(t: Tables, user: nat, left: set<nat>): map<nat, Hold> {
      t.holds + map n | n in NamesOf(t, user) && n !in left :: ReleasedHolds(t, user)[n]
    }

    lemma HoldOne(t: Tables, user: nat, left: set<nat>, n: nat)
      requires n in left && n in t.names
      ensures HeldBut(t, user, left - {n})
           == if t.names[n].user == user
              then HeldBut(t, user, left)[n := Hold(if t.names[n].active then Some(user) else None, t.now + HOLD_SECONDS, None)]
              else HeldBut(t, user, left)
    {
    }

    lemma HoldNoneOrAll(t: Tables, user: nat)
      ensures HeldBut(t, user, t.names.Keys) == t.holds
      ensures HeldBut(t, user, {}) == t.holds + ReleasedHolds(t, user)
    {
      assert (map n | n in NamesOf(t, user) && n !in {} :: ReleasedHolds(t, user)[n]) == ReleasedHolds(t, user);
    }

    /** INSERT OR REPLACE INTO released_names ... SELECT FROM reservations, for one user. */
    method HoldNames(user: nat)
      modifies this`holds
      ensures holds == old(holds) + ReleasedHolds(old(View()), user)
    {
      hide HeldBut, ReleasedHolds;
      ghost var t := View();
      HoldNoneOrAll(t, user);
      var held := holds;
      var left := names.Keys;
      while left != {}
        invariant left <= names.Keys && held == HeldBut(t, user, left)
        decreases |left|
      {
        var n :| n in left;
        HoldOne(t, user, left, n);
        left := left - {n};
        if names[n].user == user {
          held := held[n := Hold(if names[n].active then Some(user) else None, now + HOLD_SECONDS, None)];
        }
      }
      holds := held;
    }

    /** DELETE FROM reservations WHERE user_id = user. */
    method DropNames(user: nat)
      modifies this`names
      ensures names == old(names) - NamesOf(old(View()), user)
    {
      var kept := names;
      var left := names.Keys;
      while left != {}
        invariant left <= names.Keys && kept.Keys <= names.Keys && forall k :: k in kept ==> kept[k] == names[k]
        invariant forall k :: k in names ==> (k in kept <==> k in left || names[k].user != user)
        decreases |left|
      {
        var n :| n in left;
        left := left - {n};
        if names[n].user == user {
          kept := kept - {n};
        }
      }
      assert kept == names - NamesOf(View(), user);
      names := kept;
    }

    /** Every statement after the first acts only if this call deleted the account. */
    method DeleteAccount(user: nat) returns (outcome: Outcome)
      modifies this
      ensures View() == NameTables.DeleteAccount(old(View()), user)
      ensures outcome == if user in old(users) && old(users)[user].status == Active then Changed else NotFound
      ensures outcome == Changed ==>
        && user in users && users[user].status == Deleted
        && (forall k :: k in old(names) ==>
              if old(names)[k].user != user then k in names && names[k] == old(names)[k]
              else k !in names && k in holds
                   && holds[k] == Hold(if old(names)[k].active then Some(user) else None, now + 31536000, None))
    {
      hide ReleasedHolds;
      if user !in users || users[user].status != Active {
        return NotFound;
      }
      ghost var t := View();
      users := users[user := users[user].(status := Deleted)];
      assert ReleasedHolds(View(), user) == ReleasedHolds(t, user) by { SameReleased(t, View(), user); }
      assert NamesOf(View(), user) == NamesOf(t, user);
      HoldNames(user);
      assert NamesOf(View(), user) == NamesOf(t, user);
      DropNames(user);
      ReleasedRows(t, user);
      return Changed;
    }

    lemma ReleasedRows(t: Tables, user: nat)
      ensures var held := ReleasedHolds(t, user); forall k :: k in t.names && t.names[k].user == user ==>
        k in held && held[k] == Hold(if t.names[k].active then Some(user) else None, t.now + 31536000, None)
      ensures forall k :: k in t.names ==> (k in NamesOf(t, user) <==> t.names[k].user == user)
    {
    }

    lemma SameReleased(t: Tables, r: Tables, user: nat)
      requires r.names == t.names && r.now == t.now
      ensures ReleasedHolds(r, user) == ReleasedHolds(t, user)
    {
      assert NamesOf(r, user) == NamesOf(t, user);
    }

    /** The owner is read first; nothing stops the name from changing hands before the batch. */
    method Block(n: nat, seenOwner: Option<nat>)
      modifies this
      ensures View() == NameTables.Block(old(View()), n, seenOwner)
      ensures names.Keys == old(names).Keys - {n} && n in holds && holds[n] == Hold(None, now + 3153600000, None)
    {
      names := names - {n};
      if seenOwner.Some? {
        Promote(seenOwner.value);
      }
      holds := holds[n := Hold(None, now + BLOCK_SECONDS, None)];
    }
  }

  const MAX_RENAME_HOPS: int := 3

  /** The client's reconnect loop over rename hints. */
  class Client {
    var name: nat
    var renameHops: nat

    constructor (n: nat)
      ensures name == n && renameHops == 0
    {
      name, renameHops := n, 0;
    }

    /**
     * Against tables that do not change, the loop ends after at most one hint: the budget is never
     * exhausted and the last answer is no hint.
     */
    method Settle(repo: NameRepo, user: nat) returns (answer: Answer, exhausted: bool)
      requires HintsEnd(repo.holds) && renameHops == 0
      modifies this
      ensures !exhausted && renameHops <= 1
      ensures answer == Connect(repo.View(), user, name) && !answer.Moved?
      ensures name == (if Connect(repo.View(), user, old(name)).Moved? then Connect(repo.View(), user, old(name)).to else old(name))
    {
      ghost var t := repo.View();
      while true
        invariant repo.View() == t && HintsEnd(t.holds)
        invariant renameHops <= 1 && (renameHops == 0 ==> name == old(name))
        invariant renameHops == 1 ==> Connect(t, user, old(name)).Moved? && name == Connect(t, user, old(name)).to
        decreases 1 - renameHops
      {
        answer := Connect(Tables(repo.names, repo.holds, repo.users, repo.nextGen, repo.now), user, name);
        if !answer.Moved? {
          return answer, false;
        }
        assert renameHops == 1 ==> PointsTo(t.holds, old(name), name);
        renameHops := renameHops + 1;
        if renameHops > MAX_RENAME_HOPS {
          return answer, true;
        }
        name := answer.to;
      }
    }
  }
}
