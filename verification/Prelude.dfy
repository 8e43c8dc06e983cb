/** Wire constants of protocol v1 (section 2.2 of PROTOCOL.md) and the stock option type. */
module Limits {
  datatype Option<+T> = None | Some(value: T)

  type Bytes = seq<bv8>

  const MAX_BODY_CHUNK: int := 65536
  const STREAM_WINDOW: int := 1048576
  const CONN_WINDOW: int := 8388608
  const MAX_WINDOW: int := 2147483647
  const MAX_WS_MESSAGE: int := 1048576
  const WS_MSG_CREDIT: int := 8
  const WS_MSG_TOLERANCE: int := 16

  function Min(a: int, b: int): int { if a <= b then a else b }

  /** Conversion of a Go int64 to uint32: keeps the low 32 bits. */
  function U32(n: nat): nat { n % 0x1_0000_0000 }
}

/** Finite sums over maps and sequences. */
module Sums {
  import opened Limits

  ghost function Pick<V>(m: map<nat, V>): (k: nat)
    requires m != map[]
    ensures k in m
  {
    var k :| k in m;
    k
  }

  ghost function SumOver<V>(m: map<nat, V>, f: V -> int): int
    decreases |m|
  {
    if m == map[] then 0 else
      var k := Pick(m);
      f(m[k]) + SumOver(m - {k}, f)
  }

  lemma {:induction false} SumRemove<V>(m: map<nat, V>, f: V -> int, k: nat)
    requires k in m
    ensures SumOver(m, f) == f(m[k]) + SumOver(m - {k}, f)
    decreases |m|
  {
    var c := Pick(m);
    if c != k {
      SumRemove(m - {c}, f, k);
      SumRemove(m - {k}, f, c);
      assert (m - {c}) - {k} == (m - {k}) - {c};
    }
  }

  /** Storing `v` under `k` changes the sum by exactly the change of that one term. */
  lemma SumUpdate<V>(m: map<nat, V>, f: V -> int, k: nat, v: V)
    ensures SumOver(m[k := v], f) == SumOver(m, f) - (if k in m then f(m[k]) else 0) + f(v)
  {
    SumRemove(m[k := v], f, k);
    if k in m {
      SumRemove(m, f, k);
      assert m[k := v] - {k} == m - {k};
    } else {
      assert m[k := v] - {k} == m;
    }
  }

  lemma {:induction false} SumNonNegative<V>(m: map<nat, V>, f: V -> int)
    requires forall k :: k in m ==> f(m[k]) >= 0
    ensures SumOver(m, f) >= 0
    ensures forall k :: k in m ==> f(m[k]) <= SumOver(m, f)
    decreases |m|
  {
    if m != map[] {
      var c := Pick(m);
      SumNonNegative(m - {c}, f);
      forall k | k in m
        ensures f(m[k]) <= SumOver(m, f)
      {
        if k != c {
          assert k in m - {c};
        }
      }
    }
  }

  /** Terms outside `big` contribute nothing, terms inside at most one stream window each. */
  lemma {:induction false} SumBounded<V>(m: map<nat, V>, f: V -> int, big: set<nat>)
    requires forall k :: k in m && k !in big ==> f(m[k]) <= 0
    requires forall k :: k in m ==> f(m[k]) <= STREAM_WINDOW
    ensures SumOver(m, f) <= |big| * STREAM_WINDOW
    decreases |m|
  {
    if m != map[] {
      var c := Pick(m);
      var rest := big - {c};
      assert forall k :: k in m - {c} && k !in rest ==> k !in big;
      SumBounded(m - {c}, f, rest);
      if c in big {
        assert big == rest + {c};
      } else {
        assert rest == big;
      }
    }
  }

  lemma {:induction false} SumZero<V>(m: map<nat, V>, f: V -> int)
    requires forall k :: k in m ==> f(m[k]) == 0
    ensures SumOver(m, f) == 0
    decreases |m|
  {
    if m != map[] {
      SumZero(m - {Pick(m)}, f);
    }
  }
}

/** Cardinality of sets. */
module Sets {
  lemma SubsetCount(a: set<nat>, b: set<nat>)
    requires a <= b
    ensures |a| <= |b|
  {
    assert b == a + (b - a);
  }
}

/** WINDOW frames: credit on its way back to a sender. */
module Windows {
  /** Stream 0 is the connection. */
  datatype Grant = Grant(id: nat, n: nat)

  function GrantOf(g: Grant, id: nat): nat { if g.id == id then g.n else 0 }

  function GrantSum(w: seq<Grant>, id: nat): nat { if w == [] then 0 else GrantOf(w[0], id) + GrantSum(w[1..], id) }

  lemma {:induction false} GrantConcat(u: seq<Grant>, v: seq<Grant>, id: nat)
    ensures GrantSum(u + v, id) == GrantSum(u, id) + GrantSum(v, id)
  {
    if u == [] {
      assert u + v == v;
    } else {
      assert (u + v)[1..] == u[1..] + v;
      GrantConcat(u[1..], v, id);
    }
  }

  lemma AppendGrant(w: seq<Grant>, g: Grant, id: nat)
    ensures GrantSum(w + [g], id) == GrantSum(w, id) + GrantOf(g, id)
  {
    GrantConcat(w, [g], id);
    assert [g][1..] == [];
    assert GrantSum([g], id) == GrantOf(g, id);
  }

  lemma AppendGrantAll(w: seq<Grant>, g: Grant)
    ensures forall id: nat :: GrantSum(w + [g], id) == GrantSum(w, id) + GrantOf(g, id)
  {
    forall id: nat
      ensures GrantSum(w + [g], id) == GrantSum(w, id) + GrantOf(g, id)
    {
      AppendGrant(w, g, id);
    }
  }

  lemma MoveGrant(c: seq<Grant>, w: seq<Grant>, i: nat, id: nat)
    requires i < |c|
    ensures GrantSum(c[..i] + c[i + 1..], id) + GrantSum(w + [c[i]], id) == GrantSum(c, id) + GrantSum(w, id)
  {
    AppendGrant(w, c[i], id);
    GrantConcat(c[..i], c[i + 1..], id);
    GrantConcat(c[..i], c[i..], id);
    assert c == c[..i] + c[i..];
    assert c[i..][1..] == c[i + 1..];
  }

  lemma PopGrant(w: seq<Grant>, id: nat)
    requires w != []
    ensures GrantSum(w, id) == GrantOf(w[0], id) + GrantSum(w[1..], id)
  {
  }

  lemma {:induction false} NoGrants(w: seq<Grant>, id: nat)
    requires forall g :: g in w ==> g.id != id
    ensures GrantSum(w, id) == 0
  {
    if w != [] {
      NoGrants(w[1..], id);
    }
  }
}
