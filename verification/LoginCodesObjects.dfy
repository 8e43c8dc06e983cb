/** Issuing and verifying codes over the login_codes and email_budget tables, statement by statement. */
module LoginCodesObjects {
  import opened Limits
  import opened LoginCodes
  import opened Sets

  class CodeTables {
    var codes: map<nat, Code>
    var sent: map<int, nat>

    constructor ()
      ensures codes == map[] && sent == map[]
    {
      codes, sent := map[], map[];
    }

    /** SELECT COUNT(*) of the codes sent to a mailbox since a time. */
    method CountMailbox(mailbox: nat, since: int) returns (count: nat)
      ensures count == |ToMailbox(codes, mailbox, since)|
    {
      var found := {};
      var left := codes.Keys;
      while left != {}
        invariant left <= codes.Keys
        invariant found == set id | id in codes.Keys - left && codes[id].slot.mailbox == mailbox && codes[id].slot.created > since
        decreases |left|
      {
        var id :| id in left;
        if codes[id].slot.mailbox == mailbox && codes[id].slot.created > since {
          found := found + {id};
        }
        left := left - {id};
      }
      assert found == ToMailbox(codes, mailbox, since);
      return |found|;
    }

    method CountPrefix(prefix: nat, since: int) returns (count: nat)
      ensures count == |FromPrefix(codes, prefix, since)|
    {
      var found := {};
      var left := codes.Keys;
      while left != {}
        invariant left <= codes.Keys
        invariant found == set id | id in codes.Keys - left && codes[id].slot.prefix == prefix && codes[id].slot.created > since
        decreases |left|
      {
        var id :| id in left;
        if codes[id].slot.prefix == prefix && codes[id].slot.created > since {
          found := found + {id};
        }
        left := left - {id};
      }
      assert found == FromPrefix(codes, prefix, since);
      return |found|;
    }

    /** The guarded insert and the budget row it is counted in; None when a cap refused it. */
    method ReserveCodeSlot(id: nat, slot: Slot, purpose: Purpose, secret: nat, budget: nat) returns (count: Option<nat>)
      requires id !in codes
      modifies this
      ensures var t := Tables(old(codes), old(sent), 0);
        if MayIssue(t, slot, budget) then
          && Tables(codes, sent, 0) == Issue(t, id, slot, purpose, secret)
          && count == Some(SentOn(t, DayOf(slot.created)) + 1) && count.value <= budget
        else codes == old(codes) && sent == old(sent) && count.None?
      ensures count.Some? <==>
                && |set k | k in old(codes) && old(codes)[k].slot.mailbox == slot.mailbox && old(codes)[k].slot.created > slot.created - 3600| < 5
                && |set k | k in old(codes) && old(codes)[k].slot.mailbox == slot.mailbox && old(codes)[k].slot.created > slot.created - 86400| < 10
                && |set k | k in old(codes) && old(codes)[k].slot.prefix == slot.prefix && old(codes)[k].slot.created > slot.created - 86400| < 30
                && (if slot.created / 86400 in old(sent) then old(sent)[slot.created / 86400] else 0) < budget
      ensures count.Some? ==> codes == old(codes)[id := Code(slot, purpose, secret, 0, false)]
    {
      CapCounts(codes, slot);
      var hour := CountMailbox(slot.mailbox, slot.created - HOUR);
      var day := CountMailbox(slot.mailbox, slot.created - DAY);
      var network := CountPrefix(slot.prefix, slot.created - DAY);
      var today := DayOf(slot.created);
      var soFar := if today in sent then sent[today] else 0;
      if hour < EMAIL_PER_HOUR && day < EMAIL_PER_DAY && network < PREFIX_PER_DAY && soFar < budget {
        codes := codes[id := Code(slot, purpose, secret, 0, false)];
        sent := sent[today := soFar + 1];
        return Some(soFar + 1);
      }
      return None;
    }

    lemma CapCounts(codes: map<nat, Code>, slot: Slot)
      ensures ToMailbox(codes, slot.mailbox, slot.created - HOUR)
           == set k | k in codes && codes[k].slot.mailbox == slot.mailbox && codes[k].slot.created > slot.created - 3600
      ensures ToMailbox(codes, slot.mailbox, slot.created - DAY)
           == set k | k in codes && codes[k].slot.mailbox == slot.mailbox && codes[k].slot.created > slot.created - 86400
      ensures FromPrefix(codes, slot.prefix, slot.created - DAY)
           == set k | k in codes && codes[k].slot.prefix == slot.prefix && codes[k].slot.created > slot.created - 86400
    {
    }

    /** A code that a request of the address may match at the time. */
    static predicate Matches(c: Code, email: nat, purpose: Purpose, now: int) {
      c.slot.email == email && c.purpose == purpose && !c.consumed && now < c.slot.created + 600
    }

    /** The guarded UPDATE: the attempt on the named code is counted before anything is compared. */
    method CountAttempt(id: nat, purpose: Purpose, now: int) returns (counted: bool)
      modifies this`codes
      ensures counted == MayTry(old(codes), id, purpose, now)
      ensures codes == if counted then Attempted(old(codes), {id}) else old(codes)
      ensures counted <==>
                && id in old(codes) && old(codes)[id].purpose == purpose && !old(codes)[id].consumed
                && now < old(codes)[id].slot.created + 600 && old(codes)[id].attempts < 5
      ensures counted ==> codes == old(codes)[id := old(codes)[id].(attempts := old(codes)[id].attempts + 1)]
    {
      counted := id in codes && codes[id].purpose == purpose && !codes[id].consumed
        && codes[id].slot.created + CODE_TTL_SECONDS > now && codes[id].attempts < MAX_CODE_ATTEMPTS;
      if counted {
        codes := codes[id := codes[id].(attempts := codes[id].attempts + 1)];
      }
    }

    /** The newest code of some. */
    method Newest(ids: set<nat>) returns (best: nat)
      requires ids != {} && ids <= codes.Keys
      ensures best in ids && forall id :: id in ids ==> codes[id].slot.created <= codes[best].slot.created
    {
      best :| best in ids;
      var left := ids - {best};
      while left != {}
        invariant best in ids && left <= ids
        invariant forall id :: id in ids && id !in left ==> codes[id].slot.created <= codes[best].slot.created
        decreases |left|
      {
        var id :| id in left;
        left := left - {id};
        if codes[id].slot.created > codes[best].slot.created {
          best := id;
        }
      }
    }

    /** SELECT ... ORDER BY created_at DESC LIMIT 3: the latest usable codes of the address. */
    method LatestCodes(w: Verify) returns (picks: seq<nat>)
      ensures Latest(codes, w, picks)
    {
      picks := [];
      var left := set id | id in codes && Eligible(codes, w, id);
      while left != {} && |picks| < 3
        invariant |picks| <= 3 && left <= codes.Keys
        invariant forall i, j :: 0 <= i < j < |picks| ==> picks[i] != picks[j]
        invariant forall id :: id in codes && Eligible(codes, w, id) <==> id in left || id in picks
        invariant forall id :: id in picks ==> id !in left && id in codes
        invariant forall id, p :: id in left && p in picks ==> codes[p].slot.created >= codes[id].slot.created
        decreases |left|
      {
        var id := Newest(left);
        picks := picks + [id];
        left := left - {id};
      }
    }

    /** The second UPDATE: an attempt on each of the picks but the named code; `tried` had one left. */
    method CountOthers(w: Verify, picks: seq<nat>) returns (tried: seq<nat>)
      requires forall i, j :: 0 <= i < j < |picks| ==> picks[i] != picks[j]
      requires forall k :: k in picks ==> k in codes
      modifies this`codes
      ensures tried == Kept(old(codes), w, picks)
      ensures codes == Attempted(old(codes), set k | k in tried)
    {
      hide Attempted;
      tried := [];
      AttemptNone(codes);
      for i := 0 to |picks|
        invariant tried == Kept(old(codes), w, picks[..i])
        invariant codes == Attempted(old(codes), set k | k in tried)
      {
        assert picks[..i + 1][..i] == picks[..i];
        assert picks[i] !in picks[..i];
        var k := picks[i];
        AttemptMore(old(codes), tried, k);
        if k != w.first && codes[k].attempts < MAX_CODE_ATTEMPTS {
          codes := codes[k := codes[k].(attempts := codes[k].attempts + 1)];
          tried := tried + [k];
        }
      }
      assert picks[..|picks|] == picks;
    }

    lemma AttemptNone(codes: map<nat, Code>)
      ensures Attempted(codes, set k | k in []) == codes
    {
    }

    lemma AttemptMore(codes: map<nat, Code>, tried: seq<nat>, id: nat)
      requires id in codes && id !in tried
      ensures var now := Attempted(codes, set k | k in tried);
        && id in now && now[id] == codes[id]
        && Attempted(codes, set k | k in tried + [id]) == now[id := codes[id].(attempts := codes[id].attempts + 1)]
    {
    }

    /** The guess against some codes in turn. */
    method CompareAll(ids: seq<nat>, guess: nat) returns (matched: Option<nat>, comparisons: nat)
      requires forall k :: k in ids ==> k in codes
      ensures comparisons <= |ids|
      ensures matched.Some? ==> matched.value in ids && codes[matched.value].secret == guess
      ensures matched.None? ==> forall k :: k in ids ==> codes[k].secret != guess
    {
      for i := 0 to |ids|
        invariant forall k :: k in ids[..i] ==> codes[k].secret != guess
      {
        if codes[ids[i]].secret == guess {
          return Some(ids[i]), i + 1;
        }
        assert ids[..i + 1] == ids[..i] + [ids[i]];
      }
      assert ids[..|ids|] == ids;
      return None, |ids|;
    }

    /** The second statement of a verify and its loop: an attempt on each of the latest codes of the address but the named one. */
    method TryOthers(w: Verify) returns (matched: Option<nat>, comparisons: nat)
      modifies this`codes
      ensures comparisons <= 3 && codes.Keys == old(codes).Keys
      ensures forall k :: k in codes ==>
                codes[k] == old(codes)[k] || (k != w.first && codes[k].attempts <= 5 && Matches(codes[k], w.email, w.purpose, w.at)
                                              && codes[k] == old(codes)[k].(attempts := old(codes)[k].attempts + 1))
      ensures matched.Some? ==>
                matched.value in codes && codes[matched.value].secret == w.guess && codes[matched.value] != old(codes)[matched.value]
      ensures matched.None? ==> forall k :: k in codes && codes[k] != old(codes)[k] ==> codes[k].secret != w.guess
      ensures forall k :: k in codes && k != w.first && Matches(codes[k], w.email, w.purpose, w.at)
                          && old(codes)[k].attempts < 5 && |Newer(old(codes), w.email, w.purpose, w.at, k)| < 3 ==>
                codes[k] != old(codes)[k]
    {
      hide Latest, Newer;
      var picks := LatestCodes(w);
      PicksMatch(codes, w, picks);
      ThreeNewer(codes, w, picks);
      KeptLength(codes, w, picks);
      var tried := CountOthers(w, picks);
      matched, comparisons := CompareAll(tried, w.guess);
    }

    /** The request may be tried: its code is the address's, unexpired, unused and has an attempt left. */
    static predicate Begins(codes: map<nat, Code>, id: nat, purpose: Purpose, now: int) {
      id in codes && Matches(codes[id], codes[id].slot.email, purpose, now) && codes[id].attempts < 5
    }

    /**
     * A verify without interference: the named code first, then the latest others of its address. It
     * matches only an unexpired, unused code of that address and purpose whose attempt it has just
     * counted, and with at most four comparisons. The named code always matches its own secret; a miss
     * means the guess is wrong for it and for every other such code with an attempt left, unless three
     * more recent ones were tried instead.
     */
    method VerifyCode(id: nat, guess: nat, purpose: Purpose, now: int, expected: Option<nat>)
      returns (matched: Option<nat>, comparisons: nat)
      modifies this`codes
      ensures comparisons <= 4 && codes.Keys == old(codes).Keys
      ensures forall k :: k in codes ==>
                codes[k] == old(codes)[k] || (codes[k].attempts <= 5 && codes[k] == old(codes)[k].(attempts := old(codes)[k].attempts + 1))
      ensures codes != old(codes) ==> Begins(old(codes), id, purpose, now)
      ensures matched.Some? ==>
                && Begins(old(codes), id, purpose, now) && (expected.None? || expected.value == old(codes)[id].slot.email)
                && matched.value in codes && codes[matched.value].secret == guess && codes[matched.value] != old(codes)[matched.value]
                && Matches(codes[matched.value], old(codes)[id].slot.email, purpose, now)
      ensures Begins(old(codes), id, purpose, now) && (expected.None? || expected.value == old(codes)[id].slot.email) ==>
                && (old(codes)[id].secret == guess ==> matched == Some(id) && comparisons == 1)
                && (matched.None? ==> forall k :: k in codes && codes[k] != old(codes)[k] ==> codes[k].secret != guess)
                && (matched.None? ==>
                      forall k :: k in old(codes) && Begins(old(codes), k, purpose, now) && old(codes)[k].slot.email == old(codes)[id].slot.email ==>
                        |Newer(old(codes), old(codes)[id].slot.email, purpose, now, k)| >= 3 || old(codes)[k].secret != guess)
    {
      hide Newer, Attempted, MayTry;
      matched, comparisons := None, 0;
      var counted := CountAttempt(id, purpose, now);
      if !counted || (expected.Some? && codes[id].slot.email != expected.value) {
        return;
      }
      if codes[id].secret == guess {
        return Some(id), 1;
      }
      var w := Verify(guess, purpose, now, id, codes[id].slot.email, [], false, None);
      SameNewer(old(codes), codes, id, w);
      matched, comparisons := TryOthers(w);
      comparisons := comparisons + 1;
    }

    /** The codes of the address that would be tried rather than `k`. */
    static function Newer(codes: map<nat, Code>, email: nat, purpose: Purpose, now: int, k: nat): set<nat>
      requires k in codes
    {
      set j | j in codes && j != k && Matches(codes[j], email, purpose, now) && codes[j].slot.created >= codes[k].slot.created
    }

    lemma PicksMatch(codes: map<nat, Code>, w: Verify, picks: seq<nat>)
      requires Latest(codes, w, picks)
      ensures |picks| <= 3 && forall i, j :: 0 <= i < j < |picks| ==> picks[i] != picks[j]
      ensures forall k :: k in picks ==> k in codes && Matches(codes[k], w.email, w.purpose, w.at)
    {
      forall k | k in picks
        ensures k in codes && Matches(codes[k], w.email, w.purpose, w.at)
      {
        assert Eligible(codes, w, k);
      }
    }

    lemma SameNewer(was: map<nat, Code>, now: map<nat, Code>, id: nat, w: Verify)
      requires id in was && now == was[id := was[id].(attempts := was[id].attempts + 1)]
      ensures forall k :: k in was ==> Newer(now, w.email, w.purpose, w.at, k) == Newer(was, w.email, w.purpose, w.at, k)
    {
    }

    /** A code left out of the picks has three at least as new before it. */
    lemma ThreeNewer(codes: map<nat, Code>, w: Verify, picks: seq<nat>)
      requires Latest(codes, w, picks)
      ensures forall k :: k in codes && Matches(codes[k], w.email, w.purpose, w.at) && k !in picks ==>
                |Newer(codes, w.email, w.purpose, w.at, k)| >= 3
    {
      forall k | k in codes && Matches(codes[k], w.email, w.purpose, w.at) && k !in picks
        ensures |Newer(codes, w.email, w.purpose, w.at, k)| >= 3
      {
        assert Eligible(codes, w, k) && picks[0] in picks && picks[1] in picks && picks[2] in picks;
        SubsetCount({picks[0], picks[1], picks[2]}, Newer(codes, w.email, w.purpose, w.at, k));
      }
    }

    lemma {:induction false} KeptLength(codes: map<nat, Code>, w: Verify, picks: seq<nat>)
      ensures |Kept(codes, w, picks)| <= |picks|
    {
      if picks != [] {
        KeptLength(codes, w, picks[..|picks| - 1]);
      }
    }

    /** The login batch: only the call that consumes the matched code gets a token, and only for an active account. */
    method MintToken(id: nat, email: nat, active: bool) returns (minted: bool)
      modifies this`codes
      ensures minted <==> id in old(codes) && !old(codes)[id].consumed && active
      ensures codes.Keys == old(codes).Keys
      ensures forall k :: k in codes ==>
                codes[k] == old(codes)[k].(consumed := codes[k].consumed)
                && (codes[k].consumed <==> old(codes)[k].consumed || k == id || (codes[k].slot.email == email && codes[k].purpose == Login))
      ensures codes == Consumed(if Wins(old(codes), id) then old(codes)[id := old(codes)[id].(consumed := true)] else old(codes), email)
    {
      var changes := 0;
      if id in codes && !codes[id].consumed {
        codes := codes[id := codes[id].(consumed := true)];
        changes := 1;
      }
      changes := if changes == 1 && active then 1 else 0;
      minted := changes == 1;
      ConsumeCodes(email);
    }

    /** Every outstanding login code of the address is used up. */
    method ConsumeCodes(email: nat)
      modifies this`codes
      ensures codes == Consumed(old(codes), email)
    {
      var now := codes;
      var left := now.Keys;
      while left != {}
        invariant left <= now.Keys == codes.Keys
        invariant forall k :: k in left ==> now[k] == codes[k]
        invariant forall k :: k in now && k !in left ==> now[k] == Consumed(codes, email)[k]
        decreases |left|
      {
        var k :| k in left;
        if now[k].slot.email == email && now[k].purpose == Login && !now[k].consumed {
          now := now[k := now[k].(consumed := true)];
        }
        left := left - {k};
      }
      assert now == Consumed(codes, email);
      codes := now;
    }
  }
}
