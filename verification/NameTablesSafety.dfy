/** What every run of name operations keeps, and what a reconnecting client sees. */
module NameTablesSafety {
  import opened Limits
  import opened NameTables
  import opened Sets

  // ---------------------------------------------------------------- invariant

  predicate DefaultPair(t: Tables, n: nat, m: nat) {
    n in t.names && m in t.names && t.names[n].user == t.names[m].user && t.names[n].isDefault && t.names[m].isDefault
  }

  ghost predicate AtMostOneDefault(t: Tables) {
    forall n, m :: DefaultPair(t, n, m) ==> n == m
  }

  ghost predicate SomeDefault(t: Tables) { forall n :: n in t.names ==> HasDefault(t, t.names[n].user) }

  /** A user with names has exactly one default. */
  ghost predicate DefaultsOk(t: Tables) { AtMostOneDefault(t) && SomeDefault(t) }

  /** No reserved name has an active hold. */
  ghost predicate NoHoldOnReserved(t: Tables) { forall n :: n in t.names ==> !Held(t, n) }

  ghost predicate HoldCapOk(t: Tables) { forall user :: !DeletedUser(t, user) ==> |HoldsOf(t, user)| <= MAX_HOLDS }

  predicate PointsTo(holds: map<nat, Hold>, a: nat, b: nat) {
    a in holds && b in holds && holds[a].owner.Some? && holds[b].owner == holds[a].owner && holds[a].hint == Some(b)
  }

  /** No hold of a user points at a name on which the same user has a hint. */
  ghost predicate HintsEnd(holds: map<nat, Hold>) {
    forall a, b :: PointsTo(holds, a, b) ==> holds[b].hint.None?
  }

  ghost predicate GensOk(t: Tables) { forall n :: n in t.names ==> t.names[n].gen < t.nextGen }

  ghost predicate Inv(t: Tables) { DefaultsOk(t) && NoHoldOnReserved(t) && HoldCapOk(t) && HintsEnd(t.holds) && GensOk(t) }

  // ---------------------------------------------------------------- sets

  lemma InsertCount(a: set<nat>, b: set<nat>, n: nat)
    requires a <= b + {n}
    ensures |a| <= |b - {n}| + 1
  {
    SubsetCount(a, (b - {n}) + {n});
  }

  // ---------------------------------------------------------------- defaults

  /** One new row, the default exactly if it is its user's only one. */
  lemma InsertDefaults(t: Tables, r: Tables, n: nat, row: Row)
    requires DefaultsOk(t) && n !in t.names && row.isDefault == (NamesOf(t, row.user) == {}) && r.names == t.names[n := row]
    ensures DefaultsOk(r)
  {
    InsertAtMostOne(t, r, n, row);
    InsertSome(t, r, n, row);
  }

  lemma InsertAtMostOne(t: Tables, r: Tables, n: nat, row: Row)
    requires DefaultsOk(t) && n !in t.names && row.isDefault == (NamesOf(t, row.user) == {}) && r.names == t.names[n := row]
    ensures AtMostOneDefault(r)
  {
    forall a, b | DefaultPair(r, a, b)
      ensures a == b
    {
      assert a != n && b != n ==> DefaultPair(t, a, b);
      assert a != n && row.user == t.names[a].user ==> a in NamesOf(t, row.user);
      assert b != n && row.user == t.names[b].user ==> b in NamesOf(t, row.user);
    }
  }

  lemma InsertSome(t: Tables, r: Tables, n: nat, row: Row)
    requires DefaultsOk(t) && n !in t.names && row.isDefault == (NamesOf(t, row.user) == {}) && r.names == t.names[n := row]
    ensures SomeDefault(r)
  {
    forall a | a in r.names
      ensures HasDefault(r, r.names[a].user)
    {
      assert a != n ==> a in NamesOf(t, t.names[a].user);
      if NamesOf(t, r.names[a].user) == {} {
        assert Owns(r, row.user, n) && r.names[n].isDefault;
      } else {
        var b :| b in NamesOf(t, r.names[a].user);
        var d := Default(t, b);
        assert Owns(r, r.names[a].user, d) && r.names[d].isDefault;
      }
    }
  }

  lemma Default(t: Tables, n: nat) returns (d: nat)
    requires SomeDefault(t) && n in t.names
    ensures Owns(t, t.names[n].user, d) && t.names[d].isDefault
  {
    d :| Owns(t, t.names[n].user, d) && t.names[d].isDefault;
  }

  /** Removing rows keeps at most one default; promotion gives the owner one again. */
  lemma PromotedDefaults(t: Tables, user: nat)
    requires AtMostOneDefault(t) && forall n :: n in t.names && t.names[n].user != user ==> HasDefault(t, t.names[n].user)
    ensures DefaultsOk(Promoted(t, user))
  {
    var r := Promoted(t, user);
    if NamesOf(t, user) == {} {
      forall n | n in t.names
        ensures HasDefault(t, t.names[n].user)
      {
        assert t.names[n].user == user ==> n in NamesOf(t, user);
      }
    } else if HasDefault(t, user) {
    } else {
      var n := Oldest(t, user);
      assert Owns(r, user, n) && r.names[n].isDefault;
      forall m | m in r.names
        ensures HasDefault(r, r.names[m].user)
      {
        if r.names[m].user != user {
          var d :| Owns(t, t.names[m].user, d) && t.names[d].isDefault;
          assert Owns(r, r.names[m].user, d) && r.names[d].isDefault;
        }
      }
      forall a, b | DefaultPair(r, a, b)
        ensures a == b
      {
        assert r.names[a].user != user ==> DefaultPair(t, a, b);
        assert Owns(t, user, a) && t.names[a].isDefault ==> HasDefault(t, user);
        assert Owns(t, user, b) && t.names[b].isDefault ==> HasDefault(t, user);
      }
    }
  }

  /** Deleting one row leaves every other user's default in place. */
  lemma DeleteOne(t: Tables, r: Tables, n: nat)
    requires DefaultsOk(t) && r.names == t.names - {n}
    ensures AtMostOneDefault(r)
    ensures forall m :: m in r.names && !(n in t.names && t.names[n].user == r.names[m].user) ==> HasDefault(r, r.names[m].user)
  {
    assert forall a, b :: DefaultPair(r, a, b) ==> DefaultPair(t, a, b);
    forall m | m in r.names && !(n in t.names && t.names[n].user == r.names[m].user)
      ensures HasDefault(r, r.names[m].user)
    {
      var d := Default(t, m);
      assert Owns(r, r.names[m].user, d) && r.names[d].isDefault;
    }
  }

  lemma PromotedFrame(t: Tables, user: nat)
    ensures var r := Promoted(t, user);
      && r == t.(names := r.names) && r.names.Keys == t.names.Keys
      && forall n :: n in t.names ==> r.names[n] == t.names[n].(isDefault := r.names[n].isDefault)
  {
  }

  // ---------------------------------------------------------------- defaults, operation by operation

  lemma ReserveDefaults(t: Tables, user: nat, n: nat)
    requires Inv(t)
    ensures DefaultsOk(Reserve(t, user, n)) && DefaultsOk(AdminReserve(t, n, user))
  {
    hide DefaultsOk;
    if n !in t.names {
      var row := Row(user, t.nextGen, NamesOf(t, user) == {}, true, t.now);
      InsertDefaults(t, AdminReserve(t, n, user), n, row);
      if CanReserve(t, user, n) {
        InsertDefaults(t, Reserve(t, user, n), n, row);
      }
    }
  }

  lemma RenameDefaults(t: Tables, user: nat, from: nat, target: nat, seen: nat)
    requires Inv(t)
    ensures DefaultsOk(Rename(t, user, from, target, seen))
  {
    hide HoldCapOk, HintsEnd, NoHoldOnReserved, GensOk, CanRename;
    var r := Rename(t, user, from, target, seen);
    if r != t {
      assert from in t.names && t.names[from].user == user && target !in t.names by { RenameOwns(t, user, from, target, seen); }
      forall n, m | DefaultPair(r, n, m)
        ensures n == m
      {
        assert DefaultPair(t, if n == target then from else n, if m == target then from else m);
      }
      forall n | n in r.names
        ensures HasDefault(r, r.names[n].user)
      {
        var d := Default(t, if n == target then from else n);
        var e := if d == from then target else d;
        assert Owns(r, r.names[n].user, e) && r.names[e].isDefault;
      }
    }
  }

  lemma RenameOwns(t: Tables, user: nat, from: nat, target: nat, seen: nat)
    ensures CanRename(t, user, from, target, seen) ==> Owns(t, user, from)
  {
  }

  lemma RemoveDefaults(t: Tables, user: nat, n: nat, noHold: bool)
    requires Inv(t)
    ensures DefaultsOk(Remove(t, user, n, noHold))
  {
    hide HoldCapOk, HintsEnd, NoHoldOnReserved, GensOk, Promoted;
    if CanRemove(t, user, n, noHold) {
      var r := t.(names := t.names - {n},
        holds := if noHold then t.holds else t.holds[n := Hold(Some(user), t.now + HOLD_SECONDS, None)]);
      DeleteOne(t, r, n);
      PromotedDefaults(r, user);
    } else {
      PromotedDefaults(t, user);
    }
  }

  lemma SetDefaultDefaults(t: Tables, user: nat, n: nat)
    requires Inv(t)
    ensures DefaultsOk(SetDefault(t, user, n))
  {
    hide HoldCapOk, HintsEnd, NoHoldOnReserved, GensOk;
    var r := SetDefault(t, user, n);
    if Owns(t, user, n) {
      assert forall a, b :: DefaultPair(r, a, b) && r.names[a].user != user ==> DefaultPair(t, a, b);
      assert Owns(r, user, n) && r.names[n].isDefault;
      forall m | m in r.names
        ensures HasDefault(r, r.names[m].user)
      {
        if r.names[m].user != user {
          var d := Default(t, m);
          assert Owns(r, r.names[m].user, d) && r.names[d].isDefault;
        }
      }
    }
  }

  /** Nobody else of the blocked name's owner is left without a default. */
  ghost predicate OwnerNoticed(t: Tables, n: nat, seenOwner: Option<nat>) {
    || n !in t.names
    || seenOwner == Some(t.names[n].user)
    || !t.names[n].isDefault
    || NamesOf(t, t.names[n].user) == {n}
  }

  /**
   * The owner of a blocked name is read outside the batch. The default invariant survives exactly
   * when that read named the current owner, or nothing depended on it: the name was not reserved,
   * not a default, or its owner's only one.
   */
  lemma BlockKeepsDefaultsExactlyWhen(t: Tables, n: nat, seenOwner: Option<nat>)
    requires DefaultsOk(t)
    ensures DefaultsOk(Block(t, n, seenOwner)) <==> OwnerNoticed(t, n, seenOwner)
  {
    hide DefaultsOk, Promoted;
    assert DefaultsOk(t) ==> AtMostOneDefault(t) by { DefaultParts(t); }
    var r := t.(names := t.names - {n});
    DeleteOne(t, r, n);
    if OwnerNoticed(t, n, seenOwner) {
      BlockKeeps(t, n, seenOwner);
    } else {
      BlockBreaks(t, n, seenOwner);
    }
  }

  lemma RunSnoc(steps: seq<Step>, step: Step)
    ensures Run(steps + [step]) == Do(Run(steps), step)
  {
    assert (steps + [step])[..|steps|] == steps;
  }

  /**
   * A read that was true and went stale: name 1 was free when the admin looked, then user 1 reserved
   * names 1 and 2. Blocking name 1 leaves user 1 with a name and no default.
   */
  lemma StaleBlockLosesDefault()
    ensures exists steps, k: nat :: k <= |steps| && !DefaultsOk(Block(Run(steps), 1, OwnerOf(Run(steps[..k]), 1)))
  {
    hide Run, DefaultsOk, Block;
    var r0 := [] + [DoAddUser(1, 5)];
    var r1 := r0 + [DoReserve(1, 1)];
    var steps := r1 + [DoReserve(1, 2)];
    RunEmpty();
    RunSnoc([], DoAddUser(1, 5));
    RunSnoc(r0, DoReserve(1, 1));
    assert NamesOf(Run(r0), 1) == {} && NamesOf(Run(r1), 1) == {1};
    RunSnoc(r1, DoReserve(1, 2));
    RunKeeps(steps);
    assert steps[..1] == r0;
    assert 2 in NamesOf(Run(steps), 1);
    BlockKeepsDefaultsExactlyWhen(Run(steps), 1, OwnerOf(Run(steps[..1]), 1));
  }

  lemma RunEmpty()
    ensures Run([]) == Start
  {
  }

  lemma DefaultParts(t: Tables)
    ensures DefaultsOk(t) <==> AtMostOneDefault(t) && SomeDefault(t)
  {
  }

  lemma SameNames(t: Tables, r: Tables)
    requires t.names == r.names
    ensures DefaultsOk(t) == DefaultsOk(r)
  {
    assert forall a, b :: DefaultPair(t, a, b) == DefaultPair(r, a, b);
    forall user
      ensures HasDefault(t, user) == HasDefault(r, user)
    {
      if HasDefault(t, user) {
        var n :| Owns(t, user, n) && t.names[n].isDefault;
        assert Owns(r, user, n) && r.names[n].isDefault;
      }
      if HasDefault(r, user) {
        var n :| Owns(r, user, n) && r.names[n].isDefault;
        assert Owns(t, user, n) && t.names[n].isDefault;
      }
    }
  }

  lemma BlockKeeps(t: Tables, n: nat, seenOwner: Option<nat>)
    requires DefaultsOk(t) && OwnerNoticed(t, n, seenOwner)
    ensures DefaultsOk(Block(t, n, seenOwner))
  {
    hide Promoted;
    var r := t.(names := t.names - {n});
    DeleteOne(t, r, n);
    if n in t.names && seenOwner != Some(t.names[n].user) {
      forall m | m in r.names
        ensures HasDefault(r, r.names[m].user)
      {
        if r.names[m].user == t.names[n].user {
          assert m in NamesOf(t, t.names[n].user);
          var d := Default(t, m);
          assert Owns(r, r.names[m].user, d) && r.names[d].isDefault;
        }
      }
    }
    var p := if seenOwner.Some? then Promoted(r, seenOwner.value) else r;
    if seenOwner.Some? {
      PromotedDefaults(r, seenOwner.value);
    }
    assert DefaultsOk(p);
    SameNames(p, Block(t, n, seenOwner));
  }

  lemma BlockBreaks(t: Tables, n: nat, seenOwner: Option<nat>)
    requires DefaultsOk(t) && !OwnerNoticed(t, n, seenOwner)
    ensures !DefaultsOk(Block(t, n, seenOwner))
  {
    hide Promoted;
    var user := t.names[n].user;
    var r := t.(names := t.names - {n});
    var p := if seenOwner.Some? then Promoted(r, seenOwner.value) else r;
    if seenOwner.Some? {
      PromotedFrame(r, seenOwner.value);
      PromotedOthers(r, seenOwner.value);
    }
    assert forall m :: m in r.names ==> p.names[m].user == r.names[m].user && (r.names[m].user == user ==> p.names[m] == r.names[m]);
    assert n in NamesOf(t, user);
    assert NamesOf(t, user) - {n} == {} ==> NamesOf(t, user) == {n};
    var m :| m in NamesOf(t, user) - {n};
    assert !HasDefault(p, user) by {
      forall d | Owns(p, user, d)
        ensures !p.names[d].isDefault
      {
        assert d in r.names && d != n && p.names[d] == r.names[d];
        assert !DefaultPair(t, n, d);
      }
    }
    assert m in p.names && p.names[m].user == user;
    assert !SomeDefault(p);
    SameNames(p, Block(t, n, seenOwner));
  }

  lemma PromotedOthers(t: Tables, user: nat)
    ensures var r := Promoted(t, user);
      r.names.Keys == t.names.Keys && forall m :: m in t.names && t.names[m].user != user ==> r.names[m] == t.names[m]
  {
  }

  lemma DeleteDefaults(t: Tables, user: nat)
    requires Inv(t)
    ensures DefaultsOk(DeleteAccount(t, user))
  {
    hide HoldCapOk, HintsEnd, NoHoldOnReserved, GensOk;
    var r := DeleteAccount(t, user);
    if ActiveUser(t, user) {
      assert forall a, b :: DefaultPair(r, a, b) ==> DefaultPair(t, a, b);
      forall m | m in r.names
        ensures HasDefault(r, r.names[m].user)
      {
        assert m !in NamesOf(t, user);
        var d := Default(t, m);
        assert d !in NamesOf(t, user);
        assert Owns(r, r.names[m].user, d) && r.names[d].isDefault;
      }
    }
  }

  lemma SuspendNameDefaults(t: Tables, n: nat, suspended: bool)
    requires Inv(t)
    ensures DefaultsOk(SuspendName(t, n, suspended))
  {
    hide HoldCapOk, HintsEnd, NoHoldOnReserved, GensOk;
    var r := SuspendName(t, n, suspended);
    assert forall a, b :: DefaultPair(r, a, b) ==> DefaultPair(t, a, b);
    forall m | m in r.names
      ensures HasDefault(r, r.names[m].user)
    {
      var d := Default(t, m);
      assert Owns(r, r.names[m].user, d) && r.names[d].isDefault;
    }
  }

  lemma StepDefaults(t: Tables, step: Step)
    requires Inv(t)
    ensures DefaultsOk(Do(t, step))
  {
    hide DefaultsOk, Reserve, Rename, Remove, SetDefault, Block, AdminReserve, DeleteAccount, SuspendName, NoHoldOnReserved, HoldCapOk, HintsEnd, GensOk;
    match step
    case DoReserve(user, n) => ReserveDefaults(t, user, n);
    case DoRename(user, from, target, seen) => RenameDefaults(t, user, from, target, seen);
    case DoRemove(user, n, noHold) => RemoveDefaults(t, user, n, noHold);
    case DoSetDefault(user, n) => SetDefaultDefaults(t, user, n);
    case DoBlock(n) => BlockKeeps(t, n, OwnerOf(t, n));
    case DoAdminReserve(n, user) => ReserveDefaults(t, user, n);
    case DoDeleteAccount(user) => DeleteDefaults(t, user);
    case DoSuspendName(n, suspended) => SuspendNameDefaults(t, n, suspended);
    case _ => SameNames(t, Do(t, step));
  }

  // ---------------------------------------------------------------- holds

  lemma PromotedHolds(t: Tables, user: nat)
    requires NoHoldOnReserved(t)
    ensures NoHoldOnReserved(Promoted(t, user))
  {
    PromotedFrame(t, user);
  }

  lemma StepNoHold(t: Tables, step: Step)
    requires Inv(t)
    ensures NoHoldOnReserved(Do(t, step))
  {
    hide DefaultsOk, HoldCapOk, HintsEnd, GensOk, Promoted, HoldsOf, HoldCount, NamesOf, ActiveUser;
    match step
    case DoRemove(user, n, noHold) =>
      var r := if CanRemove(t, user, n, noHold) then
        t.(names := t.names - {n}, holds := if noHold then t.holds else t.holds[n := Hold(Some(user), t.now + HOLD_SECONDS, None)])
        else t;
      PromotedHolds(r, user);
    case DoBlock(n) =>
      var r := t.(names := t.names - {n});
      if OwnerOf(t, n).Some? {
        PromotedFrame(r, OwnerOf(t, n).value);
      }
    case DoDeleteAccount(user) => DeleteNoHold(t, user);
    case _ =>
  }

  lemma DeleteNoHold(t: Tables, user: nat)
    requires NoHoldOnReserved(t)
    ensures NoHoldOnReserved(DeleteAccount(t, user))
  {
  }

  // ---------------------------------------------------------------- the hold cap

  lemma FewerHolds(t: Tables, r: Tables)
    requires HoldCapOk(t)
    requires forall user :: DeletedUser(t, user) ==> DeletedUser(r, user)
    requires forall user :: HoldsOf(r, user) <= HoldsOf(t, user)
    ensures HoldCapOk(r)
  {
    forall user | !DeletedUser(r, user)
      ensures |HoldsOf(r, user)| <= MAX_HOLDS
    {
      SubsetCount(HoldsOf(r, user), HoldsOf(t, user));
    }
  }

  /** One more hold for a user below the cap, on a name whose own hold does not count. */
  lemma OneMoreHold(t: Tables, r: Tables, user: nat, n: nat)
    requires HoldCapOk(t) && HoldCount(t, user, n) < MAX_HOLDS
    requires forall u :: DeletedUser(t, u) ==> DeletedUser(r, u)
    requires forall u :: HoldsOf(r, u) <= HoldsOf(t, u) + (if u == user then {n} else {})
    ensures HoldCapOk(r)
  {
    forall u | !DeletedUser(r, u)
      ensures |HoldsOf(r, u)| <= MAX_HOLDS
    {
      if u == user {
        InsertCount(HoldsOf(r, u), HoldsOf(t, u), n);
      } else {
        assert HoldsOf(r, u) <= HoldsOf(t, u);
        SubsetCount(HoldsOf(r, u), HoldsOf(t, u));
      }
    }
  }

  lemma RenameCap(t: Tables, user: nat, from: nat, target: nat, seen: nat)
    requires Inv(t)
    ensures HoldCapOk(Rename(t, user, from, target, seen))
  {
    hide DefaultsOk, HintsEnd, GensOk, NoHoldOnReserved, HoldCapOk, NamesOf;
    var r := Rename(t, user, from, target, seen);
    assert HoldCapOk(t);
    if r != t {
      OneMoreHold(t, r, user, from);
    }
  }

  lemma RemoveCap(t: Tables, user: nat, n: nat, noHold: bool)
    requires Inv(t)
    ensures HoldCapOk(Remove(t, user, n, noHold))
  {
    hide DefaultsOk, HintsEnd, GensOk, NoHoldOnReserved, HoldCapOk, NamesOf, Promoted;
    assert HoldCapOk(t);
    var q := if CanRemove(t, user, n, noHold) then
      t.(names := t.names - {n}, holds := if noHold then t.holds else t.holds[n := Hold(Some(user), t.now + HOLD_SECONDS, None)])
      else t;
    PromotedFrame(q, user);
    var r := Promoted(q, user);
    assert r.holds == q.holds && r.users == t.users && r.now == t.now;
    if CanRemove(t, user, n, noHold) && !noHold {
      OneMoreHold(t, r, user, n);
    } else {
      FewerHolds(t, r);
    }
  }

  lemma DeleteCap(t: Tables, user: nat)
    requires Inv(t)
    ensures HoldCapOk(DeleteAccount(t, user))
  {
    hide DefaultsOk, HintsEnd, GensOk, NoHoldOnReserved;
    var r := DeleteAccount(t, user);
    if ActiveUser(t, user) {
      forall u | !DeletedUser(r, u)
        ensures |HoldsOf(r, u)| <= MAX_HOLDS
      {
        assert u != user;
        assert HoldsOf(r, u) <= HoldsOf(t, u);
        SubsetCount(HoldsOf(r, u), HoldsOf(t, u));
      }
    }
  }

  lemma StepCap(t: Tables, step: Step)
    requires Inv(t)
    ensures HoldCapOk(Do(t, step))
  {
    hide DefaultsOk, HintsEnd, GensOk, NoHoldOnReserved, HoldCapOk, Promoted, Rename, Remove, DeleteAccount, HoldCount, NamesOf;
    assert HoldCapOk(t);
    match step
    case DoRename(user, from, target, seen) => RenameCap(t, user, from, target, seen);
    case DoRemove(user, n, noHold) => RemoveCap(t, user, n, noHold);
    case DoDeleteAccount(user) => DeleteCap(t, user);
    case DoBlock(n) =>
      if OwnerOf(t, n).Some? {
        PromotedFrame(t.(names := t.names - {n}), OwnerOf(t, n).value);
      }
      FewerHolds(t, Do(t, step));
    case _ => FewerHolds(t, Do(t, step));
  }

  // ---------------------------------------------------------------- hints

  /** Dropping holds, or replacing one by a hold without a hint, makes no chain. */
  lemma NoNewHint(holds: map<nat, Hold>, rest: map<nat, Hold>)
    requires HintsEnd(holds)
    requires forall n :: n in rest ==> (n in holds && rest[n] == holds[n]) || rest[n].hint.None?
    ensures HintsEnd(rest)
  {
    forall a, b | PointsTo(rest, a, b)
      ensures rest[b].hint.None?
    {
      if b in holds && rest[b] == holds[b] {
        assert PointsTo(holds, a, b);
      }
    }
  }

  /** After a rename every hint of the user ends at the new name, which the user holds no more. */
  lemma RenameHints(t: Tables, user: nat, from: nat, target: nat)
    requires HintsEnd(t.holds) && from != target
    ensures HintsEnd(Repointed(Consume(t, target, user)[from := Hold(Some(user), t.now + HOLD_SECONDS, Some(target))], user, from, target))
  {
    var mid := Consume(t, target, user)[from := Hold(Some(user), t.now + HOLD_SECONDS, Some(target))];
    var r := Repointed(mid, user, from, target);
    forall a, b | PointsTo(r, a, b)
      ensures r[b].hint.None?
    {
      if r[a].owner == Some(user) {
        assert b != target;
        assert a != from && b != from;
        assert PointsTo(t.holds, a, b);
      } else {
        assert a != from && b != from;
        assert PointsTo(t.holds, a, b);
      }
    }
  }

  lemma StepHints(t: Tables, step: Step)
    requires Inv(t)
    ensures HintsEnd(Do(t, step).holds)
  {
    hide DefaultsOk, HoldCapOk, GensOk, NoHoldOnReserved, HintsEnd, Promoted, Repointed, HoldCount, NamesOf, HoldsOf;
    match step
    case DoRename(user, from, target, seen) =>
      if CanRename(t, user, from, target, seen) {
        RenameHints(t, user, from, target);
      }
    case DoRemove(user, n, noHold) =>
      var q := if CanRemove(t, user, n, noHold) then
        t.(names := t.names - {n}, holds := if noHold then t.holds else t.holds[n := Hold(Some(user), t.now + HOLD_SECONDS, None)])
        else t;
      PromotedFrame(q, user);
      NoNewHint(t.holds, q.holds);
    case DoBlock(n) =>
      if OwnerOf(t, n).Some? {
        PromotedFrame(t.(names := t.names - {n}), OwnerOf(t, n).value);
      }
      NoNewHint(t.holds, Do(t, step).holds);
    case DoDeleteAccount(user) => DeleteHints(t, user);
    case _ => NoNewHint(t.holds, Do(t, step).holds);
  }

  lemma DeleteHints(t: Tables, user: nat)
    requires HintsEnd(t.holds)
    ensures HintsEnd(DeleteAccount(t, user).holds)
  {
    hide HintsEnd;
    if ActiveUser(t, user) {
      NoNewHint(t.holds, DeleteAccount(t, user).holds);
    }
  }

  lemma StepGens(t: Tables, step: Step)
    requires Inv(t)
    ensures GensOk(Do(t, step)) && Do(t, step).nextGen >= t.nextGen
  {
    hide DefaultsOk, HoldCapOk, NoHoldOnReserved, HintsEnd, Promoted, Repointed, HoldCount, HoldsOf;
    match step
    case DoRemove(user, n, noHold) =>
      PromotedFrame(if !CanRemove(t, user, n, noHold) then t else
        t.(names := t.names - {n}, holds := if noHold then t.holds else t.holds[n := Hold(Some(user), t.now + HOLD_SECONDS, None)]), user);
    case DoBlock(n) =>
      if OwnerOf(t, n).Some? {
        PromotedFrame(t.(names := t.names - {n}), OwnerOf(t, n).value);
      }
    case _ =>
  }

  // ---------------------------------------------------------------- runs

  lemma StepKeeps(t: Tables, step: Step)
    requires Inv(t)
    ensures Inv(Do(t, step))
  {
    hide Do, DefaultsOk, HoldCapOk, NoHoldOnReserved, HintsEnd, GensOk;
    StepDefaults(t, step);
    StepNoHold(t, step);
    StepCap(t, step);
    StepHints(t, step);
    StepGens(t, step);
  }

  lemma {:induction false} RunKeeps(steps: seq<Step>)
    ensures Inv(Run(steps))
  {
    hide Do;
    if steps == [] {
      assert forall user :: HoldsOf(Start, user) == {};
    } else {
      RunKeeps(steps[..|steps| - 1]);
      StepKeeps(Run(steps[..|steps| - 1]), steps[|steps| - 1]);
    }
  }

  /**
   * After any run of name operations: a user with names has exactly one default, no reserved name
   * has an active hold, and a user who is not deleted has at most MAX_HOLDS active holds.
   */
  lemma TablesStayConsistent(steps: seq<Step>, user: nat)
    ensures var t := Run(steps);
      && (NamesOf(t, user) != {} ==> exists d :: Owns(t, user, d) && t.names[d].isDefault
                                       && forall n :: Owns(t, user, n) && t.names[n].isDefault ==> n == d)
      && (forall n :: Owns(t, user, n) ==> !Held(t, n))
      && (!DeletedUser(t, user) ==> |HoldsOf(t, user)| <= MAX_HOLDS)
  {
    hide Run, HintsEnd, GensOk;
    RunKeeps(steps);
    var t := Run(steps);
    if NamesOf(t, user) != {} {
      var n :| n in NamesOf(t, user);
      var d := Default(t, n);
      forall m | Owns(t, user, m) && t.names[m].isDefault
        ensures m == d
      {
        assert DefaultPair(t, m, d);
      }
    }
  }

  /** `r` gives away no name that `t` had: every row is an old one of the same user. */
  ghost predicate NoNewOwners(t: Tables, r: Tables) { forall n :: n in r.names ==> n in t.names && r.names[n].user == t.names[n].user }

  lemma KeepsOwners(t: Tables, step: Step)
    requires !step.DoReserve? && !step.DoRename? && !step.DoAdminReserve?
    ensures NoNewOwners(t, Do(t, step))
  {
    hide Promoted, ReleasedHolds, HoldCount;
    match step
    case DoRemove(user, name, noHold) =>
      PromotedFrame(if !CanRemove(t, user, name, noHold) then t else t.(names := t.names - {name},
        holds := if noHold then t.holds else t.holds[name := Hold(Some(user), t.now + HOLD_SECONDS, None)]), user);
    case DoBlock(name) =>
      if OwnerOf(t, name).Some? {
        PromotedFrame(t.(names := t.names - {name}), OwnerOf(t, name).value);
      }
    case _ =>
  }

  lemma ReserveQuota(t: Tables, user: nat, n: nat)
    requires CanReserve(t, user, n) && n !in t.names
    ensures |NamesOf(Reserve(t, user, n), user)| <= t.users[user].maxNames
  {
    assert NamesOf(Reserve(t, user, n), user) == NamesOf(t, user) + {n};
  }

  /** A name changes hands only against nobody else's active hold (an admin excepted), and reserving stays in quota. */
  lemma NewNamesRespectHolds(steps: seq<Step>, step: Step, n: nat)
    requires n in Do(Run(steps), step).names
    requires n in Run(steps).names ==> Run(steps).names[n].user != Do(Run(steps), step).names[n].user
    ensures var t, r := Run(steps), Do(Run(steps), step); var user := r.names[n].user;
      && n !in t.names
      && (!step.DoAdminReserve? ==> !HeldForOther(t, n, user) && ActiveUser(t, user))
      && (step.DoReserve? ==> |NamesOf(r, user)| <= t.users[user].maxNames)
  {
    hide Run, Promoted, Repointed, HoldCount, Remove, Block, SetDefault, DeleteAccount, SuspendName, SuspendUser, SetMaxNames,
      AddUser, Retention, Release;
    var t := Run(steps);
    if step.DoReserve? {
      if CanReserve(t, step.user, step.n) && step.n !in t.names {
        ReserveQuota(t, step.user, step.n);
      }
    } else if !step.DoRename? && !step.DoAdminReserve? {
      KeepsOwners(t, step);
    }
  }

  /** A stale hint leads to a name without one: hints never chain for the user they are shown to. */
  lemma HintsNeverChain(steps: seq<Step>, user: nat, n: nat)
    requires Connect(Run(steps), user, n).Moved?
    ensures !Connect(Run(steps), user, Connect(Run(steps), user, n).to).Moved?
  {
    hide Run, DefaultsOk, HoldCapOk, GensOk, NoHoldOnReserved;
    RunKeeps(steps);
    var t := Run(steps);
    var m := Connect(t, user, n).to;
    assert m in t.holds && t.holds[m].owner == Some(user) ==> PointsTo(t.holds, n, m);
  }
}
