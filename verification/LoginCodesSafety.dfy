/** Issuing caps over every sliding window, and at most five guesses and one token per code. */
module LoginCodesSafety {
  import opened Limits
  import opened LoginCodes
  import opened Sets

  // ---------------------------------------------------------------- issuing

  /** Codes ever sent to a mailbox with `lo < created <= hi`. */
  function SentTo(s: State, mailbox: nat, lo: int, hi: int): set<nat> {
    set id | id in s.history.issued && s.history.issued[id].mailbox == mailbox && lo < s.history.issued[id].created <= hi
  }

  function SentFor(s: State, prefix: nat, lo: int, hi: int): set<nat> {
    set id | id in s.history.issued && s.history.issued[id].prefix == prefix && lo < s.history.issued[id].created <= hi
  }

  function SentDay(s: State, day: int): set<nat> { set id | id in s.history.issued && DayOf(s.history.issued[id].created) == day }

  predicate MailboxOk(s: State, mailbox: nat, until: int) {
    |SentTo(s, mailbox, until - HOUR, until)| <= EMAIL_PER_HOUR && |SentTo(s, mailbox, until - DAY, until)| <= EMAIL_PER_DAY
  }

  predicate PrefixOk(s: State, prefix: nat, until: int) { |SentFor(s, prefix, until - DAY, until)| <= PREFIX_PER_DAY }

  predicate DayOk(s: State, day: int, budget: nat) { |SentDay(s, day)| <= budget }

  ghost predicate CapsOk(s: State, budget: nat) {
    && (forall mailbox: nat, until: int :: MailboxOk(s, mailbox, until))
    && (forall prefix: nat, until: int :: PrefixOk(s, prefix, until))
    && (forall day: int :: DayOk(s, day, budget))
  }

  /** The table still holds every code young enough to count, and the budget row of every such day. */
  ghost predicate RowsOk(s: State) {
    && (forall id :: id in s.tables.codes ==> id in s.history.issued && s.tables.codes[id].slot == s.history.issued[id])
    && (forall id :: id in s.history.issued && s.history.issued[id].created >= s.tables.swept - DAY ==> id in s.tables.codes)
    && (forall day: int :: day >= DayOf(s.tables.swept - BUDGET_DAYS * DAY) ==> SentOn(s.tables, day) == |SentDay(s, day)|)
  }

  /** One more code fits a window as long as the guard counted fewer than the cap. */
  lemma OneMore(before: set<nat>, after: set<nat>, counted: set<nat>, id: nat, cap: int)
    requires |before| <= cap
    requires after <= before || (after <= before + {id} && before * after <= counted && |counted| < cap)
    ensures |after| <= cap
  {
    if after <= before {
      SubsetCount(after, before);
    } else {
      assert after <= counted + {id};
      SubsetCount(after, counted + {id});
    }
  }

  lemma IssueCaps(s: State, id: nat, slot: Slot, purpose: Purpose, secret: nat, budget: nat)
    requires CapsOk(s, budget) && RowsOk(s)
    ensures CapsOk(StepIssue(s, id, slot, purpose, secret, budget), budget)
  {
    var r := StepIssue(s, id, slot, purpose, secret, budget);
    if r != s {
      forall mailbox: nat, until: int
        ensures MailboxOk(r, mailbox, until)
      {
        assert MailboxOk(s, mailbox, until);
        MailboxCap(s, r, id, slot, mailbox, until, HOUR, EMAIL_PER_HOUR);
        MailboxCap(s, r, id, slot, mailbox, until, DAY, EMAIL_PER_DAY);
      }
      forall prefix: nat, until: int
        ensures PrefixOk(r, prefix, until)
      {
        assert PrefixOk(s, prefix, until);
        PrefixCap(s, r, id, slot, prefix, until);
      }
      forall day: int
        ensures DayOk(r, day, budget)
      {
        assert DayOk(s, day, budget);
        DayCount(s, r, id, slot, day);
        DayBudget(s, slot);
      }
    }
  }

  /** The budget row read by the guard counts the whole day. */
  lemma DayBudget(s: State, slot: Slot)
    requires RowsOk(s) && slot.created >= s.tables.swept
    ensures SentOn(s.tables, DayOf(slot.created)) == |SentDay(s, DayOf(slot.created))|
  {
    DayOrder(s.tables.swept - BUDGET_DAYS * DAY, slot.created);
  }

  lemma MailboxCap(s: State, r: State, id: nat, slot: Slot, mailbox: nat, hi: int, span: int, cap: int)
    requires RowsOk(s) && r.history.issued == s.history.issued[id := slot] && id !in s.history.issued && slot.created >= s.tables.swept && 0 <= span <= DAY
    requires |SentTo(s, mailbox, hi - span, hi)| <= cap && |ToMailbox(s.tables.codes, slot.mailbox, slot.created - span)| < cap
    ensures |SentTo(r, mailbox, hi - span, hi)| <= cap
  {
    var before, after := SentTo(s, mailbox, hi - span, hi), SentTo(r, mailbox, hi - span, hi);
    if id in after {
      forall k | k in before
        ensures k in ToMailbox(s.tables.codes, slot.mailbox, slot.created - span)
      {
        assert k in s.history.issued && s.history.issued[k].created > slot.created - span;
      }
    }
    OneMore(before, after, ToMailbox(s.tables.codes, slot.mailbox, slot.created - span), id, cap);
  }

  lemma PrefixCap(s: State, r: State, id: nat, slot: Slot, prefix: nat, hi: int)
    requires RowsOk(s) && r.history.issued == s.history.issued[id := slot] && id !in s.history.issued && slot.created >= s.tables.swept
    requires |SentFor(s, prefix, hi - DAY, hi)| <= PREFIX_PER_DAY
    requires |FromPrefix(s.tables.codes, slot.prefix, slot.created - DAY)| < PREFIX_PER_DAY
    ensures |SentFor(r, prefix, hi - DAY, hi)| <= PREFIX_PER_DAY
  {
    var before, after := SentFor(s, prefix, hi - DAY, hi), SentFor(r, prefix, hi - DAY, hi);
    if id in after {
      forall k | k in before
        ensures k in FromPrefix(s.tables.codes, slot.prefix, slot.created - DAY)
      {
        assert k in s.history.issued && s.history.issued[k].created > slot.created - DAY;
      }
    }
    OneMore(before, after, FromPrefix(s.tables.codes, slot.prefix, slot.created - DAY), id, PREFIX_PER_DAY);
  }

  lemma DayCount(s: State, r: State, id: nat, slot: Slot, day: int)
    requires r.history.issued == s.history.issued[id := slot] && id !in s.history.issued
    ensures |SentDay(r, day)| == |SentDay(s, day)| + (if day == DayOf(slot.created) then 1 else 0)
  {
    assert id !in SentDay(s, day);
    assert SentDay(r, day) == if day == DayOf(slot.created) then SentDay(s, day) + {id} else SentDay(s, day);
  }

  lemma IssueRows(s: State, id: nat, slot: Slot, purpose: Purpose, secret: nat, budget: nat)
    requires RowsOk(s)
    ensures RowsOk(StepIssue(s, id, slot, purpose, secret, budget))
  {
    var r := StepIssue(s, id, slot, purpose, secret, budget);
    if r != s {
      forall day: int | day >= DayOf(r.tables.swept - BUDGET_DAYS * DAY)
        ensures SentOn(r.tables, day) == |SentDay(r, day)|
      {
        DayCount(s, r, id, slot, day);
        DayOrder(s.tables.swept - BUDGET_DAYS * DAY, slot.created);
      }
    }
  }

  lemma DayOrder(a: int, b: int)
    requires a <= b
    ensures DayOf(a) <= DayOf(b)
  {
  }

  lemma SweepRows(s: State, now: int)
    requires RowsOk(s)
    ensures RowsOk(StepSweep(s, now))
  {
    var r := StepSweep(s, now);
    if now >= s.tables.swept {
      DayOrder(s.tables.swept - BUDGET_DAYS * DAY, now - BUDGET_DAYS * DAY);
      assert forall day: int :: SentDay(r, day) == SentDay(s, day);
    }
  }

  lemma SameIssued(s: State, r: State, budget: nat)
    requires CapsOk(s, budget) && r.history.issued == s.history.issued
    ensures CapsOk(r, budget)
  {
    forall mailbox: nat, until: int
      ensures MailboxOk(r, mailbox, until)
    {
      assert MailboxOk(s, mailbox, until);
      assert forall lo: int :: SentTo(r, mailbox, lo, until) == SentTo(s, mailbox, lo, until);
    }
    forall prefix: nat, until: int
      ensures PrefixOk(r, prefix, until)
    {
      assert PrefixOk(s, prefix, until) && SentFor(r, prefix, until - DAY, until) == SentFor(s, prefix, until - DAY, until);
    }
    forall day: int
      ensures DayOk(r, day, budget)
    {
      assert DayOk(s, day, budget) && SentDay(r, day) == SentDay(s, day);
    }
  }

  lemma SameRows(s: State, r: State)
    requires RowsOk(s) && r.history.issued == s.history.issued && r.tables.sent == s.tables.sent && r.tables.swept == s.tables.swept && r.tables.codes.Keys == s.tables.codes.Keys
    requires forall id :: id in s.tables.codes ==> r.tables.codes[id].slot == s.tables.codes[id].slot
    ensures RowsOk(r)
  {
    assert forall day: int :: SentDay(r, day) == SentDay(s, day);
  }

  // ---------------------------------------------------------------- guesses

  predicate Distinct(q: seq<nat>) { forall i, j :: 0 <= i < j < |q| ==> q[i] != q[j] }

  /** Verifies that hold an attempt on `id` they have not used yet. */
  function Pending(s: State, id: nat): set<nat> { set v | v in s.verifies && id in s.verifies[v].queue }

  function Attempts(codes: map<nat, Code>, id: nat): nat { if id in codes then codes[id].attempts else MAX_CODE_ATTEMPTS }

  /** Every comparison was paid for by an attempt; no code has more than MAX_CODE_ATTEMPTS. */
  ghost predicate GuessesOk(s: State, id: nat) {
    && Times(s.history.compared, id) + |Pending(s, id)| <= Attempts(s.tables.codes, id) <= MAX_CODE_ATTEMPTS
    && Times(s.history.minted, id) <= 1
    && (Times(s.history.minted, id) == 1 ==> id in s.history.issued && (id in s.tables.codes ==> s.tables.codes[id].consumed))
    && (id !in s.history.issued ==> Times(s.history.compared, id) == 0)
  }

  /** A code of the address, for the purpose asked for, that had not expired when the verify began. */
  ghost predicate Timely(s: State, w: Verify, id: nat) {
    && id in s.history.issued && s.history.issued[id].email == w.email && w.at < s.history.issued[id].created + 600
    && (id in s.tables.codes ==> s.tables.codes[id].purpose == w.purpose)
  }

  /** A verify only ever compares such codes, and a match is a match. */
  ghost predicate VerifyOk(s: State, v: nat)
    requires v in s.verifies
  {
    var w := s.verifies[v];
    && Distinct(w.queue)
    && (forall id :: id in w.queue ==> Timely(s, w, id))
    && (w.matched.Some? ==> Timely(s, w, w.matched.value))
    && (w.matched.Some? && w.matched.value in s.tables.codes ==> s.tables.codes[w.matched.value].secret == w.guess)
  }

  ghost predicate Inv(s: State, budget: nat) {
    && CapsOk(s, budget) && RowsOk(s)
    && (forall id: nat :: GuessesOk(s, id))
    && (forall v :: v in s.verifies ==> VerifyOk(s, v))
  }

  lemma FewerPending(a: State, b: State, id: nat)
    requires Pending(b, id) <= Pending(a, id)
    ensures |Pending(b, id)| <= |Pending(a, id)|
  {
    SubsetCount(Pending(b, id), Pending(a, id));
  }

  lemma OnePending(a: State, b: State, id: nat, v: nat)
    requires Pending(b, id) <= Pending(a, id) + {v}
    ensures |Pending(b, id)| <= |Pending(a, id)| + 1
  {
    SubsetCount(Pending(b, id), Pending(a, id) + {v});
  }

  lemma IssueGuesses(s: State, id: nat, slot: Slot, purpose: Purpose, secret: nat, budget: nat, k: nat)
    requires Inv(s, budget)
    ensures GuessesOk(StepIssue(s, id, slot, purpose, secret, budget), k)
  {
    hide CapsOk, MayIssue;
    var r := StepIssue(s, id, slot, purpose, secret, budget);
    assert GuessesOk(s, k);
    assert Pending(r, k) == Pending(s, k);
    if r != s && k == id {
      assert forall v :: v in s.verifies ==> VerifyOk(s, v);
      assert Pending(s, k) == {};
    }
  }

  lemma FirstGuesses(s: State, v: nat, id: nat, guess: nat, purpose: Purpose, now: int, expected: Option<nat>, budget: nat, k: nat)
    requires Inv(s, budget)
    ensures GuessesOk(StepFirst(s, v, id, guess, purpose, now, expected), k)
  {
    hide CapsOk, Usable, RowsOk, VerifyOk, Pending;
    var r := StepFirst(s, v, id, guess, purpose, now, expected);
    assert GuessesOk(s, k);
    FirstPending(s, v, id, guess, purpose, now, expected, k);
    if k == id {
      OnePending(s, r, k, v);
    } else {
      FewerPending(s, r, k);
    }
  }

  lemma FirstPending(s: State, v: nat, id: nat, guess: nat, purpose: Purpose, now: int, expected: Option<nat>, k: nat)
    ensures Pending(StepFirst(s, v, id, guess, purpose, now, expected), k) <= Pending(s, k) + (if k == id then {v} else {})
  {
    hide MayTry;
  }

  lemma CompareGuesses(s: State, v: nat, budget: nat, k: nat)
    requires Inv(s, budget)
    ensures GuessesOk(StepCompare(s, v), k)
  {
    hide CapsOk, RowsOk, Attempts, Pending, Compared;
    var r := StepCompare(s, v);
    assert GuessesOk(s, k);
    if r != s {
      assert VerifyOk(s, v) && s.verifies[v].queue[0] in s.verifies[v].queue;
      ComparePending(s, v, k);
      if k == s.verifies[v].queue[0] {
        SubsetCount(Pending(r, k), Pending(s, k) - {v});
      }
    }
  }

  /** A comparison uses up its verify's attempt on that code, and no other. */
  lemma ComparePending(s: State, v: nat, k: nat)
    requires v in s.verifies && Distinct(s.verifies[v].queue) && s.verifies[v].queue != [] && s.verifies[v].matched.None?
    ensures var r, id := StepCompare(s, v), s.verifies[v].queue[0];
      if k == id then v in Pending(s, k) && Pending(r, k) <= Pending(s, k) - {v} else Pending(r, k) == Pending(s, k)
  {
    var q := s.verifies[v].queue;
    assert q == [q[0]] + q[1..];
    assert q[0] !in q[1..];
  }

  lemma OthersGuesses(s: State, v: nat, picks: seq<nat>, budget: nat, k: nat)
    requires Inv(s, budget)
    ensures GuessesOk(StepOthers(s, v, picks), k)
  {
    hide CapsOk, Latest;
    var r := StepOthers(s, v, picks);
    assert GuessesOk(s, k);
    if r != s {
      if k in Kept(s.tables.codes, s.verifies[v], picks) {
        OnePending(s, r, k, v);
      } else {
        FewerPending(s, r, k);
      }
    }
  }

  lemma MintGuesses(s: State, v: nat, active: bool, budget: nat, k: nat)
    requires Inv(s, budget)
    ensures GuessesOk(StepMint(s, v, active), k)
  {
    hide CapsOk, VerifyOk, StepMint, Attempts, Pending;
    assert GuessesOk(s, k);
    MintCode(s, v, active, k);
    MintPending(s, v, active, k);
    FewerPending(s, StepMint(s, v, active), k);
  }

  /** Minting marks codes consumed and mints only from one that was not. */
  lemma MintCode(s: State, v: nat, active: bool, k: nat)
    ensures var r := StepMint(s, v, active);
      && r.history.issued == s.history.issued && r.history.compared == s.history.compared
      && Attempts(r.tables.codes, k) == Attempts(s.tables.codes, k)
      && (k in r.tables.codes <==> k in s.tables.codes)
      && (k in s.tables.codes && s.tables.codes[k].consumed ==> r.tables.codes[k].consumed)
      && (r.history.minted == s.history.minted || Times(r.history.minted, k) == Times(s.history.minted, k)
          || (Times(r.history.minted, k) == Times(s.history.minted, k) + 1 && k in s.tables.codes && !s.tables.codes[k].consumed && r.tables.codes[k].consumed))
  {
  }

  lemma MintPending(s: State, v: nat, active: bool, k: nat)
    ensures Pending(StepMint(s, v, active), k) <= Pending(s, k)
  {
  }

  lemma GiveUpGuesses(s: State, v: nat, budget: nat, k: nat)
    requires Inv(s, budget)
    ensures GuessesOk(StepGiveUp(s, v), k)
  {
    hide CapsOk, VerifyOk;
    assert GuessesOk(s, k);
    FewerPending(s, StepGiveUp(s, v), k);
  }

  lemma SweepGuesses(s: State, now: int, budget: nat, k: nat)
    requires Inv(s, budget)
    ensures GuessesOk(StepSweep(s, now), k)
  {
    hide CapsOk;
    assert GuessesOk(s, k);
    FewerPending(s, StepSweep(s, now), k);
  }

  lemma StepGuesses(s: State, step: Step, budget: nat, k: nat)
    requires Inv(s, budget)
    ensures GuessesOk(Do(s, step, budget), k)
  {
    hide Inv, GuessesOk, StepIssue, StepSweep, StepFirst, StepCompare, StepOthers, StepMint, StepGiveUp;
    match step
    case DoIssue(id, slot, purpose, secret) => IssueGuesses(s, id, slot, purpose, secret, budget, k);
    case DoSweep(now) => SweepGuesses(s, now, budget, k);
    case DoFirst(v, id, guess, purpose, now, expected) => FirstGuesses(s, v, id, guess, purpose, now, expected, budget, k);
    case DoCompare(v) => CompareGuesses(s, v, budget, k);
    case DoOthers(v, picks) => OthersGuesses(s, v, picks, budget, k);
    case DoMint(v, active) => MintGuesses(s, v, active, budget, k);
    case DoGiveUp(v) => GiveUpGuesses(s, v, budget, k);
  }

  /** A verify that a step does not touch, while codes keep their secrets. */
  lemma VerifyFrame(s: State, r: State, v: nat)
    requires v in s.verifies && VerifyOk(s, v) && v in r.verifies && r.verifies[v] == s.verifies[v]
    requires forall id :: id in s.history.issued ==> id in r.history.issued && r.history.issued[id] == s.history.issued[id]
    requires forall id :: id in s.history.issued && id in r.tables.codes ==>
      id in s.tables.codes && r.tables.codes[id].secret == s.tables.codes[id].secret && r.tables.codes[id].purpose == s.tables.codes[id].purpose
    ensures VerifyOk(r, v)
  {
  }

  lemma StepVerifies(s: State, step: Step, budget: nat, v: nat)
    requires Inv(s, budget) && v in Do(s, step, budget).verifies
    ensures VerifyOk(Do(s, step, budget), v)
  {
    hide CapsOk, GuessesOk, MayIssue, Usable, VerifyOk, Latest, Kept, RowsOk;
    assert v in s.verifies ==> VerifyOk(s, v);
    match step
    case DoIssue(_, _, _, _) => VerifyFrame(s, Do(s, step, budget), v);
    case DoSweep(_) => VerifyFrame(s, Do(s, step, budget), v);
    case DoFirst(u, id, guess, purpose, now, expected) => FirstVerifies(s, u, id, guess, purpose, now, expected, budget, v);
    case DoCompare(u) => CompareVerifies(s, u, budget, v);
    case DoOthers(u, picks) => OthersVerifies(s, u, picks, budget, v);
    case DoMint(_, _) => VerifyFrame(s, Do(s, step, budget), v);
    case DoGiveUp(_) => VerifyFrame(s, Do(s, step, budget), v);
  }

  lemma FirstVerifies(s: State, u: nat, id: nat, guess: nat, purpose: Purpose, now: int, expected: Option<nat>, budget: nat, v: nat)
    requires Inv(s, budget) && v in StepFirst(s, u, id, guess, purpose, now, expected).verifies
    ensures VerifyOk(StepFirst(s, u, id, guess, purpose, now, expected), v)
  {
    hide CapsOk, GuessesOk;
    if v in s.verifies {
      assert VerifyOk(s, v);
    }
  }

  lemma CompareVerifies(s: State, u: nat, budget: nat, v: nat)
    requires Inv(s, budget) && v in StepCompare(s, u).verifies
    ensures VerifyOk(StepCompare(s, u), v)
  {
    hide CapsOk, GuessesOk;
    assert VerifyOk(s, v);
    if u == v && StepCompare(s, u) != s {
      var q := s.verifies[v].queue;
      assert q[0] in q && q == [q[0]] + q[1..];
      assert forall id :: Timely(s, s.verifies[v], id) ==> Timely(StepCompare(s, u), StepCompare(s, u).verifies[v], id);
    }
  }

  /** The codes the second round may compare are distinct codes of the same address. */
  lemma OthersQueue(codes: map<nat, Code>, w: Verify, picks: seq<nat>)
    requires Latest(codes, w, picks)
    ensures Distinct(Kept(codes, w, picks))
    ensures forall id :: id in Kept(codes, w, picks) ==>
      id in codes && codes[id].slot.email == w.email && codes[id].purpose == w.purpose && w.at < codes[id].slot.created + 600
  {
    hide Kept;
    forall id | id in Kept(codes, w, picks)
      ensures id in codes && codes[id].slot.email == w.email && codes[id].purpose == w.purpose && w.at < codes[id].slot.created + 600
    {
      assert id in picks && Eligible(codes, w, id);
    }
  }

  lemma OthersVerifies(s: State, u: nat, picks: seq<nat>, budget: nat, v: nat)
    requires Inv(s, budget) && v in StepOthers(s, u, picks).verifies
    ensures VerifyOk(StepOthers(s, u, picks), v)
  {
    hide CapsOk, GuessesOk, Latest, Kept;
    assert VerifyOk(s, v);
    if MayWiden(s, u, picks) {
      OthersQueue(s.tables.codes, s.verifies[u], picks);
    }
  }

  lemma StepBooks(s: State, step: Step, budget: nat)
    requires Inv(s, budget)
    ensures CapsOk(Do(s, step, budget), budget) && RowsOk(Do(s, step, budget))
  {
    hide CapsOk, RowsOk, GuessesOk, VerifyOk, StepIssue, StepSweep, StepFirst, StepCompare, StepOthers, StepMint, StepGiveUp;
    match step
    case DoIssue(id, slot, purpose, secret) =>
      IssueCaps(s, id, slot, purpose, secret, budget);
      IssueRows(s, id, slot, purpose, secret, budget);
    case DoSweep(now) =>
      SweepFrame(s, now);
      SameIssued(s, Do(s, step, budget), budget);
      SweepRows(s, now);
    case _ =>
      VerifyKeepsRows(s, step, budget);
      SameIssued(s, Do(s, step, budget), budget);
      SameRows(s, Do(s, step, budget));
  }

  lemma SweepFrame(s: State, now: int)
    ensures StepSweep(s, now).history == s.history
  {
  }

  /** Verifying changes attempts and marks, never the rows the caps count. */
  lemma VerifyKeepsRows(s: State, step: Step, budget: nat)
    requires !step.DoIssue? && !step.DoSweep?
    ensures var r := Do(s, step, budget);
      && r.history.issued == s.history.issued && r.tables.sent == s.tables.sent && r.tables.swept == s.tables.swept && r.tables.codes.Keys == s.tables.codes.Keys
      && forall id :: id in s.tables.codes ==> r.tables.codes[id].slot == s.tables.codes[id].slot
  {
    hide Usable, Latest, Kept, StepMint, StepIssue, StepSweep, Attempted;
    match step
    case DoMint(v, active) => MintKeepsRows(s, v, active);
    case DoFirst(_, id, _, _, _, _) => AttemptedKeepsRows(s.tables.codes, {id});
    case DoOthers(v, picks) =>
      if v in s.verifies {
        AttemptedKeepsRows(s.tables.codes, set id | id in Kept(s.tables.codes, s.verifies[v], picks));
      }
    case _ =>
  }

  lemma AttemptedKeepsRows(codes: map<nat, Code>, ids: set<nat>)
    ensures Attempted(codes, ids).Keys == codes.Keys
    ensures forall id :: id in codes ==> Attempted(codes, ids)[id].slot == codes[id].slot
  {
  }

  lemma MintKeepsRows(s: State, v: nat, active: bool)
    ensures var r := StepMint(s, v, active);
      && r.history.issued == s.history.issued && r.tables.sent == s.tables.sent && r.tables.swept == s.tables.swept && r.tables.codes.Keys == s.tables.codes.Keys
      && forall id :: id in s.tables.codes ==> r.tables.codes[id].slot == s.tables.codes[id].slot
  {
  }

  lemma StepKeeps(s: State, step: Step, budget: nat)
    requires Inv(s, budget)
    ensures Inv(Do(s, step, budget), budget)
  {
    hide CapsOk, RowsOk, GuessesOk, VerifyOk, Do;
    StepBooks(s, step, budget);
    forall id: nat
      ensures GuessesOk(Do(s, step, budget), id)
    {
      StepGuesses(s, step, budget, id);
    }
    forall v | v in Do(s, step, budget).verifies
      ensures VerifyOk(Do(s, step, budget), v)
    {
      StepVerifies(s, step, budget, v);
    }
  }

  lemma StartOk(budget: nat)
    ensures Inv(Start, budget)
  {
    assert forall mailbox: nat, lo: int, hi: int :: SentTo(Start, mailbox, lo, hi) == {};
    assert forall prefix: nat, lo: int, hi: int :: SentFor(Start, prefix, lo, hi) == {};
    assert forall day: int :: SentDay(Start, day) == {};
    assert forall id: nat :: Pending(Start, id) == {};
  }

  lemma {:induction false} RunKeeps(steps: seq<Step>, budget: nat)
    ensures Inv(Run(steps, budget), budget)
  {
    hide Do, Inv;
    if steps == [] {
      StartOk(budget);
    } else {
      RunKeeps(steps[..|steps| - 1], budget);
      StepKeeps(Run(steps[..|steps| - 1], budget), steps[|steps| - 1], budget);
    }
  }

  // ---------------------------------------------------------------- theorems

  /**
   * Over a whole run, every sliding hour and day holds at most five and ten codes for a mailbox,
   * every sliding day at most thirty for a network prefix, and every UTC day at most the budget.
   */
  lemma IssuingStaysInCaps(steps: seq<Step>, budget: nat, mailbox: nat, prefix: nat, until: int, day: int)
    ensures var s := Run(steps, budget);
      && |SentTo(s, mailbox, until - HOUR, until)| <= EMAIL_PER_HOUR
      && |SentTo(s, mailbox, until - DAY, until)| <= EMAIL_PER_DAY
      && |SentFor(s, prefix, until - DAY, until)| <= PREFIX_PER_DAY
      && |SentDay(s, day)| <= budget
  {
    hide Run, RowsOk, GuessesOk, VerifyOk, SentTo, SentFor, SentDay;
    RunKeeps(steps, budget);
    var s := Run(steps, budget);
    assert MailboxOk(s, mailbox, until) && PrefixOk(s, prefix, until) && DayOk(s, day, budget);
  }

  /** And no code is refused before a cap is reached: one is issued if and only if all four still have room. */
  lemma IssuedWhileRoomIsLeft(steps: seq<Step>, budget: nat, id: nat, slot: Slot, purpose: Purpose, secret: nat)
    requires id !in Run(steps, budget).history.issued && slot.created >= Run(steps, budget).tables.swept
    ensures var h := Run(steps, budget).history.issued;
      id in Do(Run(steps, budget), DoIssue(id, slot, purpose, secret), budget).tables.codes <==>
        && |set k | k in h && h[k].mailbox == slot.mailbox && h[k].created > slot.created - 3600| < 5
        && |set k | k in h && h[k].mailbox == slot.mailbox && h[k].created > slot.created - 86400| < 10
        && |set k | k in h && h[k].prefix == slot.prefix && h[k].created > slot.created - 86400| < 30
        && |SameDay(h, slot.created)| < budget
  {
    hide Run, CapsOk, GuessesOk, VerifyOk, RowsOk, ToMailbox, FromPrefix, SentOn;
    RunKeeps(steps, budget);
    RowCounts(Run(steps, budget), slot);
    IssuedOnly(Run(steps, budget), id);
  }

  lemma IssuedOnly(s: State, id: nat)
    requires RowsOk(s) && id !in s.history.issued
    ensures id !in s.tables.codes
  {
  }

  /** What the guard reads off the tables is what the whole run sent. */
  lemma RowCounts(s: State, slot: Slot)
    requires RowsOk(s) && slot.created >= s.tables.swept
    ensures var h := s.history.issued;
      && ToMailbox(s.tables.codes, slot.mailbox, slot.created - HOUR)
         == (set k | k in h && h[k].mailbox == slot.mailbox && h[k].created > slot.created - 3600)
      && ToMailbox(s.tables.codes, slot.mailbox, slot.created - DAY)
         == (set k | k in h && h[k].mailbox == slot.mailbox && h[k].created > slot.created - 86400)
      && FromPrefix(s.tables.codes, slot.prefix, slot.created - DAY)
         == (set k | k in h && h[k].prefix == slot.prefix && h[k].created > slot.created - 86400)
      && SentOn(s.tables, DayOf(slot.created)) == |SameDay(h, slot.created)|
  {
    DayBudget(s, slot);
    assert SentDay(s, DayOf(slot.created)) == SameDay(s.history.issued, slot.created);
  }

  /** The codes sent on the UTC day of `t`. */
  function SameDay(issued: map<nat, Slot>, t: int): set<nat> {
    set k | k in issued && issued[k].created / 86400 == t / 86400
  }

  /** However verifies interleave, a code is compared at most five times and mints at most one token. */
  lemma FewGuessesOneToken(steps: seq<Step>, budget: nat, id: nat)
    ensures Times(Run(steps, budget).history.compared, id) <= MAX_CODE_ATTEMPTS && Times(Run(steps, budget).history.minted, id) <= 1
  {
    hide Run, RowsOk, CapsOk, VerifyOk;
    RunKeeps(steps, budget);
    assert GuessesOk(Run(steps, budget), id);
  }

  /** Every verify in flight began with a request of the run. */
  ghost predicate BegunIn(steps: seq<Step>, v: nat, w: Verify) {
    exists i, expected :: 0 <= i < |steps| && steps[i] == DoFirst(v, w.first, w.guess, w.purpose, w.at, expected)
  }

  lemma BegunLater(steps: seq<Step>, step: Step, v: nat, w: Verify, now: Verify)
    requires BegunIn(steps, v, w) && now.first == w.first && now.guess == w.guess && now.purpose == w.purpose && now.at == w.at
    ensures BegunIn(steps + [step], v, now)
  {
    var i, expected :| 0 <= i < |steps| && steps[i] == DoFirst(v, w.first, w.guess, w.purpose, w.at, expected);
    assert (steps + [step])[i] == DoFirst(v, now.first, now.guess, now.purpose, now.at, expected);
  }

  /** A step begins at most the verify it names, and changes no request of another. */
  lemma StepRequests(s: State, step: Step, budget: nat, v: nat)
    requires v in Do(s, step, budget).verifies
    ensures var w := Do(s, step, budget).verifies[v];
      if v in s.verifies then
        w.first == s.verifies[v].first && w.guess == s.verifies[v].guess && w.purpose == s.verifies[v].purpose && w.at == s.verifies[v].at
      else step.DoFirst? && step == DoFirst(v, w.first, w.guess, w.purpose, w.at, step.expected)
  {
    hide MayIssue, MayTry, Latest, Kept, Attempted, Consumed;
  }

  lemma {:induction false} AllBegun(steps: seq<Step>, budget: nat, v: nat)
    requires v in Run(steps, budget).verifies
    ensures BegunIn(steps, v, Run(steps, budget).verifies[v])
  {
    hide Do, BegunIn;
    if steps != [] {
      var init, step := steps[..|steps| - 1], steps[|steps| - 1];
      var s, w := Run(init, budget), Run(steps, budget).verifies[v];
      StepRequests(s, step, budget, v);
      assert init + [step] == steps;
      if v in s.verifies {
        AllBegun(init, budget, v);
        BegunLater(init, step, v, s.verifies[v], w);
      } else {
        BegunNow(steps, v, w);
      }
    }
  }

  lemma BegunNow(steps: seq<Step>, v: nat, w: Verify)
    requires steps != [] && steps[|steps| - 1].DoFirst?
    requires steps[|steps| - 1] == DoFirst(v, w.first, w.guess, w.purpose, w.at, steps[|steps| - 1].expected)
    ensures BegunIn(steps, v, w)
  {
  }

  /** A token is minted only for a login request of the run that carried the code's secret before it expired. */
  lemma TokenNeedsSecret(steps: seq<Step>, budget: nat, v: nat, active: bool, id: nat)
    requires Times(Do(Run(steps, budget), DoMint(v, active), budget).history.minted, id) > Times(Run(steps, budget).history.minted, id)
    ensures var s := Run(steps, budget);
      && v in s.verifies && id in s.tables.codes && s.tables.codes[id].secret == s.verifies[v].guess
      && s.tables.codes[id].slot.email == s.verifies[v].email && !s.tables.codes[id].consumed
      && s.tables.codes[id].purpose == Login && active
      && Do(s, DoMint(v, active), budget).tables.codes[id].consumed
      && exists i, first, at, expected ::
           && 0 <= i < |steps| && steps[i] == DoFirst(v, first, s.tables.codes[id].secret, Login, at, expected)
           && at < s.tables.codes[id].slot.created + 600
  {
    hide Run, CapsOk, GuessesOk;
    RunKeeps(steps, budget);
    var s := Run(steps, budget);
    assert VerifyOk(s, v);
    AllBegun(steps, budget, v);
    var w := s.verifies[v];
    var i, expected :| 0 <= i < |steps| && steps[i] == DoFirst(v, w.first, w.guess, w.purpose, w.at, expected);
    assert steps[i] == DoFirst(v, w.first, s.tables.codes[id].secret, Login, w.at, expected);
  }

  /** And such a request gets it, if the code has an attempt left and the account is active. */
  lemma RightGuessLogsIn(steps: seq<Step>, budget: nat, v: nat, id: nat, now: int)
    requires v !in Run(steps, budget).verifies && id in Run(steps, budget).tables.codes
    requires var c := Run(steps, budget).tables.codes[id];
      c.purpose == Login && !c.consumed && now < c.slot.created + 600 && c.attempts < 5
    ensures var s := Run(steps, budget);
      var first := DoFirst(v, id, s.tables.codes[id].secret, Login, now, None);
      var r := Do(Do(Do(s, first, budget), DoCompare(v), budget), DoMint(v, true), budget);
      && Times(s.history.minted, id) == 0 && Times(r.history.minted, id) == 1 && v !in r.verifies
      && forall k :: k in r.tables.codes && r.tables.codes[k].slot.email == s.tables.codes[id].slot.email && r.tables.codes[k].purpose == Login ==>
           r.tables.codes[k].consumed
  {
    hide Run, CapsOk, RowsOk, VerifyOk;
    RunKeeps(steps, budget);
    assert GuessesOk(Run(steps, budget), id);
  }

  /** A comparison matches exactly the code's own secret, and is the code's one use of the attempt. */
  lemma CompareVerdict(s: State, v: nat)
    requires v in s.verifies && s.verifies[v].queue != [] && s.verifies[v].matched.None?
    ensures var w, id, r := s.verifies[v], s.verifies[v].queue[0], Do(s, DoCompare(v), 0);
      && v in r.verifies && r.verifies[v] == w.(queue := w.queue[1..], matched := r.verifies[v].matched)
      && r.verifies[v].matched == (if id in s.tables.codes && s.tables.codes[id].secret == w.guess then Some(id) else None)
      && Times(r.history.compared, id) == Times(s.history.compared, id) + 1 && r.tables == s.tables
  {
  }

  /** After a miss the latest other codes that have an attempt left are tried, and each attempt is counted first. */
  lemma OthersVerdict(s: State, v: nat, picks: seq<nat>)
    requires v in s.verifies && s.verifies[v].queue == [] && !s.verifies[v].widened && s.verifies[v].matched.None?
    requires Latest(s.tables.codes, s.verifies[v], picks)
    ensures var w, r, codes := s.verifies[v], Do(s, DoOthers(v, picks), 0), s.tables.codes;
      && v in r.verifies && r.tables.codes.Keys == codes.Keys
      && (forall k :: k in r.verifies[v].queue <==> k in picks && k != w.first && k in codes && codes[k].attempts < 5)
      && (forall k :: k in codes ==>
            r.tables.codes[k] == codes[k].(attempts := codes[k].attempts + if k in r.verifies[v].queue then 1 else 0))
  {
    hide Latest, Kept;
  }

  /** The sweep drops the codes older than a day, and no others. */
  lemma SweepVerdict(s: State, now: int)
    requires now >= s.tables.swept
    ensures var r := Do(s, DoSweep(now), 0).tables;
      && (forall k :: k in r.codes <==> k in s.tables.codes && s.tables.codes[k].slot.created >= now - 86400)
      && (forall k :: k in r.codes ==> r.codes[k] == s.tables.codes[k])
      && (forall d :: d in r.sent <==> d in s.tables.sent && d >= (now - 5184000) / 86400)
      && (forall d :: d in r.sent ==> r.sent[d] == s.tables.sent[d])
  {
  }
}
