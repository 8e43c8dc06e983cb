/** Credits as the two programs keep them, the acquire loop and the chunk loop of sendBody. */
module CreditWaitObjects {
  import opened Limits
  import opened CreditWait

  class CreditCounter {
    var avail: int
    var signal: nat

    ghost function View(): Credit
      reads this
    {
      Credit(avail, signal)
    }

    constructor (n: nat)
      ensures View() == Credit(n, 0)
    {
      avail, signal := n, 0;
    }

    method Add(n: nat) returns (ok: bool)
      modifies this
      ensures View() == Added(old(View()), n)
      ensures ok <==> old(avail) + n <= 2147483647
      ensures if ok then avail == old(avail) + n && signal > old(signal) else avail == old(avail) && signal == old(signal)
    {
      if avail + n > MAX_WINDOW {
        return false;
      }
      avail := avail + n;
      signal := signal + 1;
      return true;
    }

    /** No credit is added, and whoever parked on this credit before has its signal fired. */
    method Wake()
      modifies this
      ensures avail == old(avail)
      ensures signal > old(signal)
      ensures forall s: State, w: Waiter :: w.Parked? && w.stream in s.streams && w.onStream <= old(signal) ==>
                Fired(s.(streams := s.streams[w.stream := View()]), w)
    {
      signal := signal + 1;
    }
  }

  /**
   * What happens between two tries of one acquire: grants arrive, and other streams' acquires take up
   * to `rivals` of the connection credit before this one runs again. `closed` ends the wait.
   */
  datatype Round = Round(onStream: nat, onConn: nat, rivals: nat, closed: bool)

  /** Stream credit after `k` rounds: only this acquire takes from it. */
  function StreamAt(avail: int, rounds: seq<Round>, k: nat): int
    requires k <= |rounds|
  {
    if k == 0 then avail else StreamAt(avail, rounds, k - 1) + rounds[k - 1].onStream
  }

  /** Connection credit after `k` rounds, the rivals served first. */
  function ConnAt(avail: int, rounds: seq<Round>, k: nat): int
    requires k <= |rounds|
  {
    if k == 0 then avail
    else var c := ConnAt(avail, rounds, k - 1) + rounds[k - 1].onConn; c - Min(rounds[k - 1].rivals, c)
  }

  function GivenConn(rounds: seq<Round>, k: nat): nat
    requires k <= |rounds|
  {
    if k == 0 then 0 else GivenConn(rounds, k - 1) + rounds[k - 1].onConn
  }

  /** No grant of these rounds lifts a credit above MAX_WINDOW. */
  ghost predicate Fits(stream: int, conn: int, rounds: seq<Round>) {
    StreamAt(stream, rounds, |rounds|) <= MAX_WINDOW && conn + GivenConn(rounds, |rounds|) <= MAX_WINDOW
  }

  lemma {:induction false} RoundBounds(stream: int, conn: int, rounds: seq<Round>, k: nat, n: nat)
    requires k <= n <= |rounds| && stream >= 0 && conn >= 0
    ensures 0 <= StreamAt(stream, rounds, k) <= StreamAt(stream, rounds, n)
    ensures GivenConn(rounds, k) <= GivenConn(rounds, n)
    ensures 0 <= ConnAt(conn, rounds, k) <= conn + GivenConn(rounds, k)
    ensures (forall r :: r in rounds ==> r.rivals == 0) ==> ConnAt(conn, rounds, k) == conn + GivenConn(rounds, k)
    decreases n + k
  {
    if k > 0 {
      RoundBounds(stream, conn, rounds, k - 1, k - 1);
    }
    if n > k {
      RoundBounds(stream, conn, rounds, k, n - 1);
    }
  }

  /** Both credits are positive before round `k`. */
  predicate Ready(stream: int, conn: int, rounds: seq<Round>, k: nat)
    requires k <= |rounds|
  {
    StreamAt(stream, rounds, k) > 0 && ConnAt(conn, rounds, k) > 0
  }

  /** One round passes: the credits move, and a closing stream wakes its waiters. */
  method Pass(stream: CreditCounter, conn: CreditCounter, round: Round)
    requires stream != conn && stream.avail >= 0 && conn.avail >= 0
    requires stream.avail + round.onStream <= MAX_WINDOW && conn.avail + round.onConn <= MAX_WINDOW
    modifies stream, conn
    ensures stream.avail == old(stream.avail) + round.onStream
    ensures conn.avail == old(conn.avail) + round.onConn - Min(round.rivals, old(conn.avail) + round.onConn) >= 0
  {
    var added := stream.Add(round.onStream);
    added := conn.Add(round.onConn);
    conn.avail := conn.avail - Min(round.rivals, conn.avail);
    if round.closed {
      stream.Wake();
    }
  }

  /** The critical section: take what both credits allow, or nothing. */
  method TryBoth(stream: CreditCounter, conn: CreditCounter, want: nat) returns (n: int)
    requires stream != conn && want > 0 && stream.avail >= 0 && conn.avail >= 0
    modifies stream, conn
    ensures n == Min(want, Min(old(stream.avail), old(conn.avail))) && 0 <= n <= want
    ensures stream.avail == old(stream.avail) - n >= 0 && conn.avail == old(conn.avail) - n >= 0
    ensures n > 0 <==> old(stream.avail) > 0 && old(conn.avail) > 0
  {
    n := Min(want, Min(stream.avail, conn.avail));
    if n > 0 {
      stream.avail := stream.avail - n;
      conn.avail := conn.avail - n;
    }
  }

  lemma NoRounds(stream: int, conn: int, rounds: seq<Round>)
    ensures StreamAt(stream, rounds, 0) == stream && ConnAt(conn, rounds, 0) == conn
  {
  }

  /** What round `k` brings, which fits. */
  lemma NextRound(stream: int, conn: int, rounds: seq<Round>, k: nat)
    requires k < |rounds| && stream >= 0 && conn >= 0 && Fits(stream, conn, rounds)
    ensures var r, s, c := rounds[k], StreamAt(stream, rounds, k), ConnAt(conn, rounds, k);
      && s >= 0 && c >= 0 && s + r.onStream <= MAX_WINDOW && c + r.onConn <= MAX_WINDOW
      && StreamAt(stream, rounds, k + 1) == s + r.onStream
      && ConnAt(conn, rounds, k + 1) == c + r.onConn - Min(r.rivals, c + r.onConn)
  {
    RoundBounds(stream, conn, rounds, k + 1, |rounds|);
    RoundBounds(stream, conn, rounds, k, k);
  }

  /**
   * The retry loop against what others do while it is parked. It takes at its first try with both
   * credits positive, the same `n` from both, however often rivals emptied the connection before;
   * 0 means the rounds ran out or the stream closed, with nothing taken.
   */
  method Acquire(stream: CreditCounter, conn: CreditCounter, want: nat, rounds: seq<Round>) returns (n: int, used: nat)
    requires stream != conn && want > 0 && stream.avail >= 0 && conn.avail >= 0 && Fits(stream.avail, conn.avail, rounds)
    modifies stream, conn
    ensures used <= |rounds| && 0 <= n <= want
    ensures stream.avail == StreamAt(old(stream.avail), rounds, used) - n >= 0
    ensures conn.avail == ConnAt(old(conn.avail), rounds, used) - n >= 0
    ensures n > 0 ==> n == Min(want, Min(stream.avail + n, conn.avail + n))
    ensures forall k :: 0 <= k < used ==> !Ready(old(stream.avail), old(conn.avail), rounds, k)
    ensures forall k :: 0 <= k < used && rounds[k].closed ==> k == used - 1 && n == 0
    ensures n == 0 && (used == 0 || !rounds[used - 1].closed) ==>
              used == |rounds| && !Ready(old(stream.avail), old(conn.avail), rounds, used)
  {
    hide Fits, StreamAt, ConnAt;
    used := 0;
    ghost var s, c := stream.avail, conn.avail;
    NoRounds(s, c, rounds);
    while true
      invariant 0 <= used <= |rounds|
      invariant stream.avail == StreamAt(s, rounds, used) >= 0
      invariant conn.avail == ConnAt(c, rounds, used) >= 0
      invariant forall k :: 0 <= k < used ==> !Ready(s, c, rounds, k) && !rounds[k].closed
      decreases |rounds| - used
    {
      n := TryBoth(stream, conn, want);
      if n > 0 {
        return;
      }
      if used == |rounds| {
        return 0, used;
      }
      NextRound(s, c, rounds, used);
      Pass(stream, conn, rounds[used]);
      used := used + 1;
      if rounds[used - 1].closed {
        return 0, used;
      }
    }
  }

  function Joined(chunks: seq<Bytes>): Bytes {
    if chunks == [] then [] else Joined(chunks[..|chunks| - 1]) + chunks[|chunks| - 1]
  }

  lemma JoinMore(chunks: seq<Bytes>, buf: Bytes, sent: nat, n: nat)
    requires sent + n <= |buf|
    ensures Joined([]) == []
    ensures Joined(chunks) == buf[..sent] ==> Joined(chunks + [buf[sent..sent + n]]) == buf[..sent + n]
  {
    assert (chunks + [buf[sent..sent + n]])[..|chunks|] == chunks;
    assert buf[..sent] + buf[sent..sent + n] == buf[..sent + n];
  }

  lemma {:induction false} RoundsFrom(stream: int, conn: int, rounds: seq<Round>, start: nat, k: nat)
    requires start + k <= |rounds|
    ensures StreamAt(stream, rounds[start..], k) == stream + StreamAt(0, rounds, start + k) - StreamAt(0, rounds, start)
    ensures GivenConn(rounds[start..], k) == GivenConn(rounds, start + k) - GivenConn(rounds, start)
    decreases k
  {
    if k > 0 {
      RoundsFrom(stream, conn, rounds, start, k - 1);
      assert rounds[start..][k - 1] == rounds[start + k - 1];
    }
  }

  /**
   * The inner loop of sendBody over one buffer: chunk by chunk as credit arrives, in order and
   * without a gap, each paid for on both credits. It stops short only when acquire gives up.
   */
  method SendBuffer(stream: CreditCounter, conn: CreditCounter, buf: Bytes, rounds: seq<Round>)
    returns (chunks: seq<Bytes>, sent: nat, used: nat)
    requires stream != conn && stream.avail >= 0 && conn.avail >= 0 && |buf| <= MAX_BODY_CHUNK
    requires Fits(stream.avail, conn.avail, rounds)
    modifies stream, conn
    ensures sent <= |buf| && Joined(chunks) == buf[..sent] && used <= |rounds|
    ensures stream.avail + sent == old(stream.avail) + StreamAt(0, rounds, used) && stream.avail >= 0
    ensures conn.avail + sent <= old(conn.avail) + GivenConn(rounds, used) && conn.avail >= 0
    ensures (forall r :: r in rounds ==> r.rivals == 0) ==> conn.avail + sent == old(conn.avail) + GivenConn(rounds, used)
    ensures sent < |buf| ==> (used > 0 && rounds[used - 1].closed) || (used == |rounds| && (stream.avail == 0 || conn.avail == 0))
    ensures forall c :: c in chunks ==> 0 < |c| <= MAX_BODY_CHUNK
  {
    hide ConnAt, Joined;
    chunks, sent, used := [], 0, 0;
    assert Joined([]) == [] by { JoinMore([], buf, 0, 0); }
    while sent < |buf|
      invariant 0 <= sent <= |buf| && Joined(chunks) == buf[..sent] && used <= |rounds|
      invariant stream.avail + sent == old(stream.avail) + StreamAt(0, rounds, used) && stream.avail >= 0
      invariant conn.avail + sent <= old(conn.avail) + GivenConn(rounds, used) && conn.avail >= 0
      invariant (forall r :: r in rounds ==> r.rivals == 0) ==> conn.avail + sent == old(conn.avail) + GivenConn(rounds, used)
      invariant forall c :: c in chunks ==> 0 < |c| <= MAX_BODY_CHUNK
      decreases |buf| - sent
    {
      ghost var s, c := stream.avail, conn.avail;
      RoundsFrom(s, c, rounds, used, |rounds| - used);
      RoundsFrom(old(stream.avail), c, rounds, 0, |rounds|);
      assert rounds[0..] == rounds;
      var n, turns := Acquire(stream, conn, |buf| - sent, rounds[used..]);
      RoundsFrom(s, c, rounds, used, turns);
      RoundBounds(s, c, rounds[used..], turns, turns);
      assert turns > 0 ==> rounds[used..][turns - 1] == rounds[used + turns - 1];
      used := used + turns;
      if n == 0 {
        return;
      }
      var chunk := buf[sent..sent + n];
      JoinMore(chunks, buf, sent, n);
      chunks := chunks + [chunk];
      sent := sent + n;
    }
  }

  /** Unacknowledged WebSocket messages of the agent. */
  class MessageCredit {
    var outstanding: int
    var signal: nat

    constructor ()
      ensures outstanding == 0 && signal == 0
    {
      outstanding, signal := 0, 0;
    }

    /** take's critical section: one more message, or the signal to wait for while all credit is in use. */
    method TryTake() returns (taken: bool, waitFor: nat)
      requires 0 <= outstanding <= WS_MSG_CREDIT
      modifies this
      ensures 0 <= outstanding <= WS_MSG_CREDIT && signal == old(signal) == waitFor
      ensures taken <==> old(outstanding) < WS_MSG_CREDIT
      ensures outstanding == old(outstanding) + (if taken then 1 else 0)
    {
      taken, waitFor := false, signal;
      if outstanding < WS_MSG_CREDIT {
        outstanding := outstanding + 1;
        taken := true;
      }
    }

    /** ack: excess acknowledgements are ignored, and a waiter parked at the limit is always signalled. */
    method Acknowledge(n: nat)
      requires 0 <= outstanding <= WS_MSG_CREDIT
      modifies this
      ensures outstanding == (if old(outstanding) < n then 0 else old(outstanding) - n) && 0 <= outstanding <= WS_MSG_CREDIT
      ensures signal > old(signal)
    {
      outstanding := if outstanding < n then 0 else outstanding - n;
      signal := signal + 1;
    }
  }
}
