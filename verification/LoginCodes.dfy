/**
 * Emailed login codes: caps on issuing, attempts, and the one token a code may mint.
 *
 * A step is one D1 batch or one comparison of a verify in flight. Timestamps are read before their
 * batch and may arrive in any order, except that none is older than a retention sweep already done.
 */
module LoginCodes {
  import opened Limits

  const HOUR: int := 3600
  const DAY: int := 86400
  const CODE_TTL_SECONDS: int := 600
  const EMAIL_PER_HOUR: int := 5
  const EMAIL_PER_DAY: int := 10
  const PREFIX_PER_DAY: int := 30
  const MAX_CODE_ATTEMPTS: int := 5
  const BUDGET_DAYS: int := 60

  datatype Purpose = Login | Delete

  /** Who a code was sent to, and from where it was asked for; `mailbox` is the canonical form of `email`. */
  datatype Slot = Slot(email: nat, mailbox: nat, prefix: nat, created: int)

  datatype Code = Code(slot: Slot, purpose: Purpose, secret: nat, attempts: nat, consumed: bool)

  /** A verify in flight since `at`: the codes it may still compare its guess with, and the one that matched. */
  datatype Verify = Verify(guess: nat, purpose: Purpose, at: int, first: nat, email: nat, queue: seq<nat>, widened: bool,
                           matched: Option<nat>)

  /** The login_codes and email_budget tables; `swept` is the latest retention sweep. */
  datatype Tables = Tables(codes: map<nat, Code>, sent: map<int, nat>, swept: int)

  /** Every code ever sent, its comparisons and its tokens. */
  datatype History = History(issued: map<nat, Slot>, compared: map<nat, nat>, minted: map<nat, nat>)

  datatype State = State(tables: Tables, verifies: map<nat, Verify>, history: History)

  const Start := State(Tables(map[], map[], 0), map[], History(map[], map[], map[]))

  function DayOf(t: int): int { t / DAY }

  function Times(m: map<nat, nat>, id: nat): nat { if id in m then m[id] else 0 }

  function SentOn(t: Tables, day: int): nat { if day in t.sent then t.sent[day] else 0 }

  // ---------------------------------------------------------------- issuing

  function ToMailbox(codes: map<nat, Code>, mailbox: nat, since: int): set<nat> {
    set id | id in codes && codes[id].slot.mailbox == mailbox && codes[id].slot.created > since
  }

  function FromPrefix(codes: map<nat, Code>, prefix: nat, since: int): set<nat> {
    set id | id in codes && codes[id].slot.prefix == prefix && codes[id].slot.created > since
  }

  predicate MayIssue(t: Tables, slot: Slot, budget: nat) {
    && |ToMailbox(t.codes, slot.mailbox, slot.created - HOUR)| < EMAIL_PER_HOUR
    && |ToMailbox(t.codes, slot.mailbox, slot.created - DAY)| < EMAIL_PER_DAY
    && |FromPrefix(t.codes, slot.prefix, slot.created - DAY)| < PREFIX_PER_DAY
    && SentOn(t, DayOf(slot.created)) < budget
  }

  /** reserveCodeSlot: the guarded insert and the day's count. */
  function Issue(t: Tables, id: nat, slot: Slot, purpose: Purpose, secret: nat): Tables {
    t.(codes := t.codes[id := Code(slot, purpose, secret, 0, false)],
       sent := t.sent[DayOf(slot.created) := SentOn(t, DayOf(slot.created)) + 1])
  }

  /** `id` is a fresh login id. */
  function StepIssue(s: State, id: nat, slot: Slot, purpose: Purpose, secret: nat, budget: nat): State {
    if id in s.history.issued || slot.created < s.tables.swept || !MayIssue(s.tables, slot, budget) then s
    else
      s.(tables := Issue(s.tables, id, slot, purpose, secret), history := s.history.(issued := s.history.issued[id := slot]))
  }

  /** The daily retention sweep. */
  function Sweep(t: Tables, now: int): Tables {
    Tables(map id | id in t.codes && t.codes[id].slot.created >= now - DAY :: t.codes[id],
           map d | d in t.sent && d >= DayOf(now - BUDGET_DAYS * DAY) :: t.sent[d],
           now)
  }

  function StepSweep(s: State, now: int): State { if now < s.tables.swept then s else s.(tables := Sweep(s.tables, now)) }

  // ---------------------------------------------------------------- verifying

  predicate Usable(c: Code, purpose: Purpose, now: int) {
    c.purpose == purpose && !c.consumed && c.slot.created + CODE_TTL_SECONDS > now
  }

  function Attempted(codes: map<nat, Code>, ids: set<nat>): map<nat, Code> {
    map id | id in codes :: if id in ids then codes[id].(attempts := codes[id].attempts + 1) else codes[id]
  }

  predicate MayTry(codes: map<nat, Code>, id: nat, purpose: Purpose, now: int) {
    id in codes && Usable(codes[id], purpose, now) && codes[id].attempts < MAX_CODE_ATTEMPTS
  }

  /** The named code: its attempt is counted first, then it may be compared, if it is the expected address's. */
  function StepFirst(s: State, v: nat, id: nat, guess: nat, purpose: Purpose, now: int, expected: Option<nat>): State {
    if v in s.verifies || !MayTry(s.tables.codes, id, purpose, now) then s
    else
      var email := s.tables.codes[id].slot.email;
      s.(tables := s.tables.(codes := Attempted(s.tables.codes, {id})),
         verifies := if expected.Some? && expected.value != email then s.verifies
                     else s.verifies[v := Verify(guess, purpose, now, id, email, [id], false, None)])
  }

  function Compared(w: Verify, codes: map<nat, Code>): Verify
    requires w.queue != []
  {
    var id := w.queue[0];
    w.(queue := w.queue[1..], matched := if id in codes && codes[id].secret == w.guess then Some(id) else None)
  }

  /** One comparison of the guess with the next code in the queue. */
  function StepCompare(s: State, v: nat): State {
    if v !in s.verifies || s.verifies[v].queue == [] || s.verifies[v].matched.Some? then s
    else
      var id := s.verifies[v].queue[0];
      s.(verifies := s.verifies[v := Compared(s.verifies[v], s.tables.codes)],
         history := s.history.(compared := s.history.compared[id := Times(s.history.compared, id) + 1]))
  }

  predicate Eligible(codes: map<nat, Code>, w: Verify, id: nat) {
    id in codes && codes[id].slot.email == w.email && Usable(codes[id], w.purpose, w.at)
  }

  /** `picks` are the latest three eligible codes, in the order the statement returns them. */
  predicate Latest(codes: map<nat, Code>, w: Verify, picks: seq<nat>) {
    && |picks| <= 3
    && (forall i, j :: 0 <= i < j < |picks| ==> picks[i] != picks[j])
    && (forall id :: id in picks ==> Eligible(codes, w, id))
    && (forall id :: id in codes && Eligible(codes, w, id) && id !in picks ==>
          |picks| == 3 && forall p :: p in picks ==> p in codes && codes[p].slot.created >= codes[id].slot.created)
  }

  predicate Tries(codes: map<nat, Code>, w: Verify, id: nat) { id != w.first && id in codes && codes[id].attempts < MAX_CODE_ATTEMPTS }

  function Kept(codes: map<nat, Code>, w: Verify, picks: seq<nat>): (r: seq<nat>)
    ensures forall id :: id in r <==> id in picks && Tries(codes, w, id)
    ensures (forall i, j :: 0 <= i < j < |picks| ==> picks[i] != picks[j]) ==> forall i, j :: 0 <= i < j < |r| ==> r[i] != r[j]
  {
    if picks == [] then []
    else
      var rest := Kept(codes, w, picks[..|picks| - 1]);
      var id := picks[|picks| - 1];
      assert picks == picks[..|picks| - 1] + [id];
      if Tries(codes, w, id) then rest + [id] else rest
  }

  predicate MayWiden(s: State, v: nat, picks: seq<nat>) {
    && v in s.verifies && s.verifies[v].queue == [] && !s.verifies[v].widened && s.verifies[v].matched.None?
    && Latest(s.tables.codes, s.verifies[v], picks)
  }

  /** The named code did not match: the latest other codes of the address get an attempt each. */
  function StepOthers(s: State, v: nat, picks: seq<nat>): State {
    if !MayWiden(s, v, picks) then s
    else
      var kept := Kept(s.tables.codes, s.verifies[v], picks);
      s.(tables := s.tables.(codes := Attempted(s.tables.codes, set id | id in kept)),
         verifies := s.verifies[v := s.verifies[v].(queue := kept, widened := true)])
  }

  /** Consumes every login code of an address. */
  function Consumed(codes: map<nat, Code>, email: nat): map<nat, Code> {
    map k | k in codes :: if codes[k].slot.email == email && codes[k].purpose == Login then codes[k].(consumed := true) else codes[k]
  }

  predicate Wins(codes: map<nat, Code>, id: nat) { id in codes && !codes[id].consumed }

  /** The login batch: consuming the matched code gates the token; `active` says the account may log in. */
  function StepMint(s: State, v: nat, active: bool): State {
    if v !in s.verifies || s.verifies[v].matched.None? || s.verifies[v].purpose.Delete? then s
    else
      var id := s.verifies[v].matched.value;
      var codes := s.tables.codes;
      var marked := if Wins(codes, id) then codes[id := codes[id].(consumed := true)] else codes;
      s.(tables := s.tables.(codes := Consumed(marked, s.verifies[v].email)),
         verifies := s.verifies - {v},
         history := if Wins(codes, id) && active then s.history.(minted := s.history.minted[id := Times(s.history.minted, id) + 1])
                    else s.history)
  }

  /** A verify that ends without a token. */
  function StepGiveUp(s: State, v: nat): State { s.(verifies := s.verifies - {v}) }

  datatype Step =
    | DoIssue(id: nat, slot: Slot, purpose: Purpose, secret: nat)
    | DoSweep(now: int)
    | DoFirst(v: nat, id: nat, guess: nat, purpose: Purpose, now: int, expected: Option<nat>)
    | DoCompare(v: nat)
    | DoOthers(v: nat, picks: seq<nat>)
    | DoMint(v: nat, active: bool)
    | DoGiveUp(v: nat)

  function Do(s: State, step: Step, budget: nat): State {
    match step
    case DoIssue(id, slot, purpose, secret) => StepIssue(s, id, slot, purpose, secret, budget)
    case DoSweep(now) => StepSweep(s, now)
    case DoFirst(v, id, guess, purpose, now, expected) => StepFirst(s, v, id, guess, purpose, now, expected)
    case DoCompare(v) => StepCompare(s, v)
    case DoOthers(v, picks) => StepOthers(s, v, picks)
    case DoMint(v, active) => StepMint(s, v, active)
    case DoGiveUp(v) => StepGiveUp(s, v)
  }

  /** A run under one daily send budget; a step that is not enabled changes nothing. */
  function Run(steps: seq<Step>, budget: nat): State {
    if steps == [] then Start else Do(Run(steps[..|steps| - 1], budget), steps[|steps| - 1], budget)
  }
}
