/**
 * Waiting for credit: many senders share a connection credit and each its stream's.
 *
 * Every credit has a signal that is fired and replaced whenever credit is added (or a close wakes the
 * waiters); a signal is named by the number of its predecessors, so the ones below a credit's current
 * number have fired. A step is one critical section (agent) or one stretch without await (edge).
 */
module CreditWait {
  import opened Limits
  import opened Sums
  import opened Windows

  datatype Credit = Credit(avail: int, signal: nat)

  /** A waiter captured the signals of its stream and of the connection when it parked. */
  datatype Waiter = Trying(stream: nat, want: nat) | Parked(stream: nat, want: nat, onStream: nat, onConn: nat) | Served(stream: nat, want: nat, n: int)

  /** Streams are positive; `grants` is every grant accepted so far, stream 0 being the connection. */
  datatype State = State(conn: Credit, streams: map<nat, Credit>, waiters: map<nat, Waiter>, grants: seq<Grant>)

  const Start := State(Credit(CONN_WINDOW, 0), map[], map[], [])

  /** add: above MAX_WINDOW it is refused, else every waiter is woken. */
  function Added(c: Credit, n: nat): Credit {
    if c.avail + n > MAX_WINDOW then c else Credit(c.avail + n, c.signal + 1)
  }

  function Woken(c: Credit): Credit { c.(signal := c.signal + 1) }

  function Offer(stream: Credit, conn: Credit, want: nat): int { Min(want, Min(stream.avail, conn.avail)) }

  function StepStream(s: State, id: nat): State {
    if id == 0 || id in s.streams then s else s.(streams := s.streams[id := Credit(STREAM_WINDOW, 0)])
  }

  function StepAdd(s: State, g: Grant): State {
    if g.id == 0 then
      if s.conn.avail + g.n > MAX_WINDOW then s else s.(conn := Added(s.conn, g.n), grants := s.grants + [g])
    else if g.id in s.streams && s.streams[g.id].avail + g.n <= MAX_WINDOW then
      s.(streams := s.streams[g.id := Added(s.streams[g.id], g.n)], grants := s.grants + [g])
    else s
  }

  /** A closing stream wakes its waiters without adding credit. */
  function StepWake(s: State, id: nat): State {
    if id in s.streams then s.(streams := s.streams[id := Woken(s.streams[id])]) else s
  }

  /** acquire is called for at least one byte. */
  function StepCall(s: State, w: nat, id: nat, want: nat): State {
    if w in s.waiters || id !in s.streams || want == 0 then s else s.(waiters := s.waiters[w := Trying(id, want)])
  }

  /** One turn of the loop: take what both credits allow, or park on both signals. */
  function StepTry(s: State, w: nat): State {
    if w !in s.waiters || !s.waiters[w].Trying? || s.waiters[w].stream !in s.streams then s
    else
      var id, want := s.waiters[w].stream, s.waiters[w].want;
      var n := Offer(s.streams[id], s.conn, want);
      if n > 0 then
        s.(conn := s.conn.(avail := s.conn.avail - n), streams := s.streams[id := s.streams[id].(avail := s.streams[id].avail - n)],
           waiters := s.waiters[w := Served(id, want, n)])
      else s.(waiters := s.waiters[w := Parked(id, want, s.streams[id].signal, s.conn.signal)])
  }

  predicate Fired(s: State, w: Waiter) {
    w.Parked? && w.stream in s.streams && (w.onStream < s.streams[w.stream].signal || w.onConn < s.conn.signal)
  }

  /** A fired signal lets its waiter try again. */
  function StepWakeUp(s: State, w: nat): State {
    if w in s.waiters && Fired(s, s.waiters[w]) then s.(waiters := s.waiters[w := Trying(s.waiters[w].stream, s.waiters[w].want)]) else s
  }

  /** The timeout, or the stream's end; a served acquire stays as history. */
  function StepLeave(s: State, w: nat): State {
    if w in s.waiters && s.waiters[w].Served? then s else s.(waiters := s.waiters - {w})
  }

  datatype Step =
    | DoStream(id: nat)
    | DoAdd(grant: Grant)
    | DoWake(id: nat)
    | DoCall(w: nat, id: nat, want: nat)
    | DoTry(w: nat)
    | DoWakeUp(w: nat)
    | DoLeave(w: nat)

  function Do(s: State, step: Step): State {
    match step
    case DoStream(id) => StepStream(s, id)
    case DoAdd(g) => StepAdd(s, g)
    case DoWake(id) => StepWake(s, id)
    case DoCall(w, id, want) => StepCall(s, w, id, want)
    case DoTry(w) => StepTry(s, w)
    case DoWakeUp(w) => StepWakeUp(s, w)
    case DoLeave(w) => StepLeave(s, w)
  }

  function Run(steps: seq<Step>): State {
    if steps == [] then Start else Do(Run(steps[..|steps| - 1]), steps[|steps| - 1])
  }

  // ---------------------------------------------------------------- what every run keeps

  /** A parked waiter lacks credit on one side, unless one of its signals has fired. */
  ghost predicate WaiterOk(s: State, w: nat) {
    w in s.waiters ==>
      var x := s.waiters[w];
      && x.stream in s.streams && x.want > 0
      && (x.Parked? ==> x.onStream <= s.streams[x.stream].signal && x.onConn <= s.conn.signal)
      && (x.Parked? ==> s.streams[x.stream].avail == 0 || s.conn.avail == 0 || Fired(s, x))
      && (x.Served? ==> 1 <= x.n <= x.want)
  }

  /** What an acquire took. */
  function Paid(w: Waiter): int { if w.Served? then w.n else 0 }

  function PaidOn(id: nat): Waiter -> int { (w: Waiter) => if w.stream == id then Paid(w) else 0 }

  /** Every byte ever given is still there or was taken by exactly one acquire, and by it on both credits. */
  ghost predicate ConnBooks(s: State) { s.conn.avail + SumOver(s.waiters, Paid) == CONN_WINDOW + GrantSum(s.grants, 0) }

  ghost predicate StreamBooks(s: State, id: nat) {
    id in s.streams ==> s.streams[id].avail + SumOver(s.waiters, PaidOn(id)) == STREAM_WINDOW + GrantSum(s.grants, id)
  }

  ghost predicate Books(s: State) {
    && ConnBooks(s) && (forall id :: StreamBooks(s, id))
    && 0 !in s.streams
    && (forall g :: g in s.grants ==> g.id == 0 || g.id in s.streams)
    && (forall w :: w in s.waiters ==> s.waiters[w].stream in s.streams)
  }

  ghost predicate Inv(s: State) {
    && 0 <= s.conn.avail <= MAX_WINDOW
    && Books(s)
    && (forall id :: id in s.streams ==> 0 <= s.streams[id].avail <= MAX_WINDOW)
    && forall w :: WaiterOk(s, w)
  }

  lemma AddBooks(s: State, g: Grant)
    requires Books(s)
    ensures Books(StepAdd(s, g))
  {
    hide SumOver, GrantSum;
    AppendGrantAll(s.grants, g);
    forall id
      ensures StreamBooks(StepAdd(s, g), id)
    {
      assert StreamBooks(s, id);
    }
  }

  lemma StreamOpens(s: State, id: nat)
    requires Books(s)
    ensures Books(StepStream(s, id))
  {
    hide SumOver, GrantSum;
    if id != 0 && id !in s.streams {
      SumZero(s.waiters, PaidOn(id));
      NoGrants(s.grants, id);
    }
    forall k
      ensures StreamBooks(StepStream(s, id), k)
    {
      assert StreamBooks(s, k);
    }
  }

  /** A waiter may change in any way that leaves what it took. */
  lemma WaiterBooks(s: State, r: State, w: nat)
    requires Books(s) && r == s.(waiters := r.waiters)
    requires r.waiters == s.waiters - {w} || (w in r.waiters && r.waiters == s.waiters[w := r.waiters[w]])
    requires w in s.waiters ==> !s.waiters[w].Served?
    requires w in r.waiters ==> !r.waiters[w].Served? && r.waiters[w].stream in s.streams
    ensures Books(r)
  {
    hide SumOver, GrantSum;
    WaiterSum(s.waiters, r.waiters, w, Paid);
    forall id
      ensures StreamBooks(r, id)
    {
      assert StreamBooks(s, id);
      WaiterSum(s.waiters, r.waiters, w, PaidOn(id));
    }
  }

  lemma WaiterSum(m: map<nat, Waiter>, n: map<nat, Waiter>, w: nat, f: Waiter -> int)
    requires n == m - {w} || (w in n && n == m[w := n[w]])
    requires (w in m ==> f(m[w]) == 0) && (w in n ==> f(n[w]) == 0)
    ensures SumOver(n, f) == SumOver(m, f)
  {
    if w !in n {
      if w in m {
        SumRemove(m, f, w);
      } else {
        assert n == m;
      }
    } else {
      SumUpdate(m, f, w, n[w]);
    }
  }

  lemma TryBooks(s: State, w: nat)
    requires Books(s)
    ensures Books(StepTry(s, w))
  {
    hide SumOver, GrantSum;
    var r := StepTry(s, w);
    if w in s.waiters && s.waiters[w].Trying? && s.waiters[w].stream in s.streams {
      if r.waiters[w].Served? {
        SumUpdate(s.waiters, Paid, w, r.waiters[w]);
        forall id
          ensures StreamBooks(r, id)
        {
          assert StreamBooks(s, id);
          SumUpdate(s.waiters, PaidOn(id), w, r.waiters[w]);
        }
      } else {
        WaiterBooks(s, r, w);
      }
    }
  }

  lemma WakeBooks(s: State, id: nat)
    requires Books(s)
    ensures Books(StepWake(s, id))
  {
    hide SumOver, GrantSum;
    forall k
      ensures StreamBooks(StepWake(s, id), k)
    {
      assert StreamBooks(s, k);
    }
  }

  lemma StepBooks(s: State, step: Step)
    requires Books(s)
    ensures Books(Do(s, step))
  {
    hide Books, SumOver, GrantSum, StepTry, StepAdd, StepStream, StepWake;
    match step
    case DoStream(id) => StreamOpens(s, id);
    case DoAdd(g) => AddBooks(s, g);
    case DoWake(id) => WakeBooks(s, id);
    case DoCall(w, id, want) => CallBooks(s, w, id, want);
    case DoTry(w) => TryBooks(s, w);
    case DoWakeUp(w) => WakeUpBooks(s, w);
    case DoLeave(w) => LeaveBooks(s, w);
  }

  lemma CallBooks(s: State, w: nat, id: nat, want: nat)
    requires Books(s)
    ensures Books(StepCall(s, w, id, want))
  {
    hide SumOver, GrantSum, ConnBooks, StreamBooks;
    if StepCall(s, w, id, want) != s {
      WaiterBooks(s, StepCall(s, w, id, want), w);
    }
  }

  lemma WakeUpBooks(s: State, w: nat)
    requires Books(s)
    ensures Books(StepWakeUp(s, w))
  {
    hide SumOver, GrantSum, ConnBooks, StreamBooks;
    if StepWakeUp(s, w) != s {
      WaiterBooks(s, StepWakeUp(s, w), w);
    }
  }

  lemma LeaveBooks(s: State, w: nat)
    requires Books(s)
    ensures Books(StepLeave(s, w))
  {
    hide SumOver, GrantSum, ConnBooks, StreamBooks;
    if StepLeave(s, w) != s {
      WaiterBooks(s, StepLeave(s, w), w);
    }
  }

  lemma StepKeeps(s: State, step: Step)
    requires Inv(s)
    ensures Inv(Do(s, step))
  {
    hide WaiterOk, Books;
    var r := Do(s, step);
    StepBooks(s, step);
    forall w: nat
      ensures WaiterOk(r, w)
    {
      WaiterKeeps(s, step, w);
    }
  }

  lemma WaiterKeeps(s: State, step: Step, w: nat)
    requires Inv(s)
    ensures WaiterOk(Do(s, step), w)
  {
    assert WaiterOk(s, w);
  }

  lemma {:induction false} RunKeeps(steps: seq<Step>)
    ensures Inv(Run(steps))
  {
    hide Do;
    if steps == [] {
      assert forall id :: StreamBooks(Start, id);
    } else {
      RunKeeps(steps[..|steps| - 1]);
      StepKeeps(Run(steps[..|steps| - 1]), steps[|steps| - 1]);
    }
  }

  /** No wake-up is lost: while a waiter is parked unsignalled, one of its two credits is exhausted. */
  lemma NoLostWakeUp(steps: seq<Step>, w: nat)
    requires w in Run(steps).waiters && Run(steps).waiters[w].Parked?
    ensures var s := Run(steps); var x := s.waiters[w];
      && x.stream in s.streams
      && (s.streams[x.stream].avail > 0 && s.conn.avail > 0 ==>
            Fired(s, x) && StepTry(StepWakeUp(s, w), w).waiters[w].Served?)
  {
    hide Run;
    RunKeeps(steps);
    assert WaiterOk(Run(steps), w);
  }

  /**
   * A trying acquire is served if and only if both credits are positive, with the smallest of what it
   * wants and the two, taken from both, which stay non-negative. Else it parks and takes nothing.
   */
  lemma AcquireTakesFromBoth(steps: seq<Step>, w: nat)
    requires w in Run(steps).waiters && Run(steps).waiters[w].Trying?
    ensures var s, r := Run(steps), Do(Run(steps), DoTry(w)); var id, want := s.waiters[w].stream, s.waiters[w].want;
      && id in s.streams && id in r.streams && w in r.waiters
      && if s.streams[id].avail > 0 && s.conn.avail > 0 then
           r.waiters[w].Served? &&
           var n := r.waiters[w].n;
           && r.waiters[w] == Served(id, want, n) && 1 <= n <= want
           && n <= s.conn.avail && n <= s.streams[id].avail && n in {want as int, s.conn.avail, s.streams[id].avail}
           && r.conn.avail == s.conn.avail - n >= 0
           && r.streams[id].avail == s.streams[id].avail - n >= 0
         else r.waiters[w].Parked? && r.conn == s.conn && r.streams == s.streams
  {
    hide Run;
    RunKeeps(steps);
    assert WaiterOk(Run(steps), w);
  }

  /** A grant that fits the largest window is given in full and signals whoever waits on it; one that does not changes nothing. */
  lemma GrantVerdict(s: State, g: Grant)
    requires g.id == 0 || g.id in s.streams
    ensures var c, r := if g.id == 0 then s.conn else s.streams[g.id], Do(s, DoAdd(g));
      if c.avail + g.n <= 2147483647 then
        && (g.id == 0 || g.id in r.streams)
        && (if g.id == 0 then r.conn else r.streams[g.id]).avail == c.avail + g.n
        && (if g.id == 0 then r.conn else r.streams[g.id]).signal > c.signal
        && r.grants == s.grants + [g] && r.waiters == s.waiters
      else r == s
  {
  }

  /**
   * Credit is never spent twice. However many acquires on however many streams raced for it: what is
   * left of the connection credit and what each of them took add up to what was given, none of it is
   * missing, and the same holds of every stream's own credit.
   */
  lemma SharedCreditIsSpentOnce(steps: seq<Step>)
    ensures var s := Run(steps);
      && 0 <= s.conn.avail == CONN_WINDOW + GrantSum(s.grants, 0) - SumOver(s.waiters, Paid)
      && forall id :: id in s.streams ==>
           0 <= s.streams[id].avail == STREAM_WINDOW + GrantSum(s.grants, id) - SumOver(s.waiters, PaidOn(id))
  {
    hide Run, SumOver, GrantSum;
    RunKeeps(steps);
    var s := Run(steps);
    forall id | id in s.streams
      ensures s.streams[id].avail == STREAM_WINDOW + GrantSum(s.grants, id) - SumOver(s.waiters, PaidOn(id))
    {
      assert StreamBooks(s, id);
    }
  }

  /** What one acquire was served stays what it was served: a byte is not handed on. */
  lemma {:induction false} ServedIsFinal(steps: seq<Step>, more: seq<Step>, w: nat)
    requires w in Run(steps).waiters && Run(steps).waiters[w].Served?
    ensures w in Run(steps + more).waiters && Run(steps + more).waiters[w] == Run(steps).waiters[w]
  {
    if more == [] {
      assert steps + more == steps;
    } else {
      assert (steps + more)[..|steps + more| - 1] == steps + more[..|more| - 1];
      ServedIsFinal(steps, more[..|more| - 1], w);
    }
  }

  /** Streams open with a full window, calls begin to try, a wake signals without credit, and only a served call stays. */
  lemma CallVerdict(s: State, w: nat, id: nat, want: nat)
    requires id > 0
    ensures id !in s.streams ==> Do(s, DoStream(id)) == s.(streams := s.streams[id := Credit(1048576, 0)])
    ensures w !in s.waiters && id in s.streams && want > 0 ==>
      Do(s, DoCall(w, id, want)) == s.(waiters := s.waiters[w := Trying(id, want)])
    ensures id in s.streams ==>
      var r := Do(s, DoWake(id)); id in r.streams && r.streams[id].avail == s.streams[id].avail && r.streams[id].signal > s.streams[id].signal
    ensures w in s.waiters ==> Do(s, DoLeave(w)) == if s.waiters[w].Served? then s else s.(waiters := s.waiters - {w})
    ensures w in s.waiters && s.waiters[w].Parked? && s.waiters[w].stream in s.streams ==>
      var x := s.waiters[w];
      Do(s, DoWakeUp(w)) == if x.onStream < s.streams[x.stream].signal || x.onConn < s.conn.signal
                            then s.(waiters := s.waiters[w := Trying(x.stream, x.want)]) else s
  {
  }
}
