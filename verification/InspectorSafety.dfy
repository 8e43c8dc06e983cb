/** The store agrees with the plain sum, evicts oldest first, and captures exactly what it claims. */
module InspectorSafety {
  import opened Limits
  import opened Sums
  import opened InspectorStore

  // ---------------------------------------------------------------- the store's books

  ghost predicate Increasing(order: seq<nat>) { forall i, j :: 0 <= i < j < |order| ==> order[i] < order[j] }

  /** order lists exactly the stored ids, oldest first, and total is the plain sum. */
  ghost predicate Listed(s: Store) {
    && Increasing(s.order)
    && (forall id :: id in s.order <==> id in s.entries)
    && (forall id :: id in s.order ==> id <= s.nextId)
    && s.total == SumOver(s.entries, BodyBytes)
    && (forall id :: id in s.entries ==> WellSized(s.entries[id]) && (s.entries[id].evicted ==> Captured(s.entries[id]) == 0))
  }

  ghost predicate NoBodies(s: Store) { forall id :: id in s.entries ==> Captured(s.entries[id]) == 0 }

  ghost predicate Bounded(s: Store) { |s.order| <= MAX_ENTRIES && (s.total <= MAX_TOTAL_BYTES || NoBodies(s)) }

  lemma DropFirst(s: Store)
    requires Listed(s) && s.order != []
    ensures s.order[0] in s.entries
    ensures Listed(s.(order := s.order[1..], entries := s.entries - {s.order[0]}, total := s.total - BodyBytes(s.entries[s.order[0]])))
  {
    hide SumOver, BodyBytes, Captured, WellSized;
    var id := s.order[0];
    assert id in s.order;
    SumRemove(s.entries, BodyBytes, id);
    assert s.order == [id] + s.order[1..];
    assert forall k :: k in s.order <==> k == id || k in s.order[1..];
    assert id !in s.order[1..];
  }

  lemma {:induction false} EvictOldKeeps(s: Store)
    requires Listed(s)
    ensures Listed(EvictOld(s)) && |EvictOld(s).order| <= MAX_ENTRIES && EvictOld(s).nextId == s.nextId
    ensures EvictOld(s).order == s.order[if |s.order| <= MAX_ENTRIES then 0 else |s.order| - MAX_ENTRIES..]
    ensures forall id :: id in EvictOld(s).entries ==> id in s.entries && EvictOld(s).entries[id] == s.entries[id]
    decreases |s.order|
  {
    hide SumOver, Listed;
    if |s.order| > MAX_ENTRIES {
      DropFirst(s);
      EvictOldKeeps(s.(order := s.order[1..], entries := s.entries - {s.order[0]}, total := s.total - BodyBytes(s.entries[s.order[0]])));
    }
  }

  lemma DropBody(s: Store, id: nat)
    requires Listed(s) && id in s.order
    ensures id in s.entries && Listed(EvictBody(s, id))
    ensures EvictBody(s, id).entries == s.entries[id := Strip(s.entries[id])]
    ensures EvictBody(s, id).total == s.total - Captured(s.entries[id])
    ensures EvictBody(s, id).nextId == s.nextId
  {
    hide SumOver;
    SumUpdate(s.entries, BodyBytes, id, Bodyless(s.entries[id]));
    assert s.entries[id := s.entries[id]] == s.entries;
  }

  function Strip(e: Entry): Entry { if Captured(e) == 0 then e else Bodyless(e) }

  /** `t` is `s` with the bodies of the entries at positions `from` to `n` dropped. */
  ghost predicate Stripped(s: Store, t: Store, from: nat, n: nat) {
    && t.order == s.order && t.nextId == s.nextId && t.entries.Keys == s.entries.Keys && from <= n <= |s.order|
    && (forall i :: from <= i < n ==> s.order[i] in s.entries && t.entries[s.order[i]] == Strip(s.entries[s.order[i]]))
    && (forall id :: id in s.entries && id !in s.order[from..n] ==> t.entries[id] == s.entries[id])
  }

  lemma StripMore(s: Store, t: Store, u: Store, i: nat, n: nat)
    requires Increasing(s.order) && i < |s.order| && s.order[i] in s.entries
    requires t.order == s.order && t.nextId == s.nextId && t.entries == s.entries[s.order[i] := Strip(s.entries[s.order[i]])]
    requires Stripped(t, u, i + 1, n)
    ensures Stripped(s, u, i, n)
  {
    assert s.order[i..n] == [s.order[i]] + s.order[i + 1..n];
    assert s.order[i] !in s.order[i + 1..n];
    forall k | i <= k < n
      ensures s.order[k] in s.entries && u.entries[s.order[k]] == Strip(s.entries[s.order[k]])
    {
      if k > i {
        assert s.order[k] != s.order[i] && t.order[k] in t.entries;
      }
    }
  }

  /**
   * Byte eviction is oldest-first and minimal: the bodies of a prefix of the order go, the last of
   * them only because the total was still too large, and it stops at the limit or when none is left.
   */
  lemma {:induction false} EvictBodiesPrefix(s: Store, i: nat) returns (n: nat)
    requires Listed(s) && i <= |s.order|
    ensures Listed(EvictBodies(s, i)) && Stripped(s, EvictBodies(s, i), i, n)
    ensures EvictBodies(s, i).total <= MAX_TOTAL_BYTES || n == |s.order|
    ensures if n > i then EvictBodies(s, i).total + Captured(s.entries[s.order[n - 1]]) > MAX_TOTAL_BYTES else EvictBodies(s, i) == s
    decreases |s.order| - i
  {
    hide SumOver, Listed, BodyBytes, Stripped, Bodyless, Captured, EvictBody, Strip;
    if i >= |s.order| || s.total <= MAX_TOTAL_BYTES {
      StripNone(s, i);
      return i;
    }
    OrderPart(s);
    var id, t := s.order[i], EvictBody(s, s.order[i]);
    DropBody(s, id);
    n := EvictBodiesPrefix(t, i + 1);
    StrippedRange(t, EvictBodies(t, i + 1), i + 1, n);
    StripMore(s, t, EvictBodies(t, i + 1), i, n);
    if n > i + 1 {
      assert s.order[n - 1] != id;
    }
  }

  lemma StripNone(s: Store, i: nat)
    requires i <= |s.order|
    ensures Stripped(s, s, i, i)
  {
  }

  lemma StrippedRange(s: Store, t: Store, i: nat, n: nat)
    requires Stripped(s, t, i, n)
    ensures i <= n <= |s.order|
  {
  }

  lemma OrderPart(s: Store)
    requires Listed(s)
    ensures Increasing(s.order)
  {
  }

  /** Eviction restores both limits; an entry left either is untouched or has lost its bodies for good. */
  lemma EvictKeeps(s: Store)
    requires Listed(s)
    ensures Listed(Evict(s)) && Bounded(Evict(s)) && Evict(s).nextId == s.nextId
    ensures forall id :: id in Evict(s).entries ==>
              id in s.entries && (Evict(s).entries[id] == s.entries[id] || Evict(s).entries[id] == Bodyless(s.entries[id]))
  {
    hide SumOver, Listed, BodyBytes, EvictOld, EvictBodies, Stripped;
    EvictOldKeeps(s);
    var t := EvictOld(s);
    var n := EvictBodiesPrefix(t, 0);
    StrippedAll(t, Evict(s), n);
  }

  lemma StrippedAll(s: Store, t: Store, n: nat)
    requires Listed(s) && Stripped(s, t, 0, n)
    ensures t.entries.Keys == s.entries.Keys && t.order == s.order && t.nextId == s.nextId
    ensures forall id :: id in t.entries ==> t.entries[id] == s.entries[id] || t.entries[id] == Bodyless(s.entries[id])
    ensures n == |s.order| ==> NoBodies(t)
  {
    hide SumOver, BodyBytes;
    forall id | id in t.entries
      ensures t.entries[id] == s.entries[id] || t.entries[id] == Bodyless(s.entries[id])
      ensures n == |s.order| ==> Captured(t.entries[id]) == 0
    {
      assert id in s.order;
      if id in s.order[0..n] {
        var i :| 0 <= i < n && s.order[i] == id;
        assert t.entries[s.order[i]] == Strip(s.entries[s.order[i]]);
      } else {
        assert s.order[0..|s.order|] == s.order;
      }
    }
  }

  // ---------------------------------------------------------------- store operations

  /** A new entry at the end of the order keeps the books. */
  lemma AddListed(s: Store, e: Entry)
    requires Listed(s) && WellSized(e) && !e.evicted
    ensures Listed(Store(s.nextId + 1, s.order + [s.nextId + 1], s.entries[s.nextId + 1 := e], s.total + BodyBytes(e)))
    ensures s.nextId + 1 !in s.entries
  {
    hide SumOver;
    assert s.nextId + 1 !in s.order && s.nextId + 1 !in s.entries;
    SumUpdate(s.entries, BodyBytes, s.nextId + 1, e);
    assert forall id :: id in s.order + [s.nextId + 1] <==> id in s.order || id == s.nextId + 1;
    assert forall i :: 0 <= i < |s.order| ==> s.order[i] in s.order;
    assert Increasing(s.order + [s.nextId + 1]);
  }

  lemma AddKeeps(s: Store, e: Entry)
    requires Listed(s) && WellSized(e) && !e.evicted
    ensures Listed(Add(s, e)) && Bounded(Add(s, e)) && Add(s, e).nextId == s.nextId + 1
    ensures forall id :: id in Add(s, e).entries ==> id in s.entries || id == s.nextId + 1
    ensures forall id :: id in Add(s, e).entries ==>
              var x := if id == s.nextId + 1 then e else s.entries[id]; Add(s, e).entries[id] == x || Add(s, e).entries[id] == Bodyless(x)
  {
    hide SumOver, Evict, Listed;
    AddListed(s, e);
    EvictKeeps(Store(s.nextId + 1, s.order + [s.nextId + 1], s.entries[s.nextId + 1 := e], s.total + BodyBytes(e)));
  }

  lemma ReplaceKeeps(s: Store, id: nat, e: Entry)
    requires Listed(s) && Bounded(s) && WellSized(e) && (e.evicted ==> Captured(e) == 0)
    ensures Listed(Replace(s, id, e)) && Bounded(Replace(s, id, e)) && Replace(s, id, e).nextId == s.nextId
    ensures forall k :: k in Replace(s, id, e).entries ==> k in s.entries
    ensures forall k :: k in Replace(s, id, e).entries ==>
              var x := if k == id then e else s.entries[k]; Replace(s, id, e).entries[k] == x || Replace(s, id, e).entries[k] == Bodyless(x)
  {
    hide SumOver, Evict;
    if id in s.entries {
      SumUpdate(s.entries, BodyBytes, id, e);
      EvictKeeps(s.(entries := s.entries[id := e], total := s.total + BodyBytes(e) - BodyBytes(s.entries[id])));
    }
  }

  // ---------------------------------------------------------------- recorders

  function Flat(chunks: seq<Bytes>): Bytes { if chunks == [] then [] else Flat(chunks[..|chunks| - 1]) + chunks[|chunks| - 1] }

  lemma FlatSnoc(chunks: seq<Bytes>, p: Bytes)
    ensures Flat(chunks + [p]) == Flat(chunks) + p
  {
    assert (chunks + [p])[..|chunks|] == chunks;
  }

  /** An unflagged capture is the exact concatenation of everything the hook was given. */
  ghost predicate Exact(e: Entry, side: Side, t: Tap) {
    !e.evicted && !Of(e, side).truncated && !t.dropped && t.unflagged == 0 ==> Of(e, side).body.data == Flat(t.chunks)
  }

  ghost predicate RecorderOk(s: State, id: nat) {
    id in s.store.entries ==>
      && id in s.recorders
      && Exact(s.store.entries[id], Request, s.recorders[id].request)
      && Exact(s.store.entries[id], Response, s.recorders[id].response)
      && (s.store.entries[id].finished ==> s.recorders[id].ended)
      && (s.recorders[id].ended && !s.recorders[id].late ==>
            s.recorders[id].request.unflagged == 0 && s.recorders[id].response.unflagged == 0
            && !s.recorders[id].request.dropped && !s.recorders[id].response.dropped)
  }

  ghost predicate Inv(s: State) {
    && Listed(s.store) && Bounded(s.store)
    && (forall id :: id in s.recorders ==> id <= s.store.nextId)
    && forall id :: RecorderOk(s, id)
  }

  /** What a body hook adds is either taken whole or flagged. */
  lemma AppendExact(b: Buffer, p: Bytes, hint: int, grow: nat)
    requires |b.data| <= b.cap
    ensures !AppendCapped(b, p, hint, grow).1 ==> AppendCapped(b, p, hint, grow).0.data == b.data + p
  {
  }

  lemma BodyExact(e: Entry, r: Recorder, side: Side, p: Bytes, hint: int, grow: nat)
    requires WellSized(e) && Exact(e, Request, r.request) && Exact(e, Response, r.response)
    ensures var f := FoldEntry(r, e);
      WellSized(f) && f.evicted == e.evicted && WellSized(Captures(f, side, p, hint, grow))
      && (e.evicted ==> Captures(f, side, p, hint, grow) == f)
    ensures var f, t := Captures(FoldEntry(r, e), side, p, hint, grow), WithTap(Folded(r), side,
        TapOf(Folded(r), side).(chunks := TapOf(r, side).chunks + [p]));
      Exact(f, Request, t.request) && Exact(f, Response, t.response) && f.finished == e.finished && f.evicted == e.evicted
  {
    hide AppendCapped, Flat;
    AppendExact(Of(FoldEntry(r, e), side).body, p, hint, grow);
    FlatSnoc(TapOf(r, side).chunks, p);
  }

  lemma BodyKeeps(s: State, id: nat, side: Side, p: Bytes, hint: int, grow: nat, busy: bool, k: nat)
    requires Inv(s)
    ensures var r := StepBody(s, id, side, p, hint, grow, busy);
      Listed(r.store) && Bounded(r.store) && r.store.nextId == s.store.nextId && RecorderOk(r, k) && r.recorders.Keys == s.recorders.Keys
  {
    hide Listed, Bounded, Flat, AppendCapped, Replace, SumOver, FoldEntry, Captures;
    assert RecorderOk(s, k);
    if id in s.recorders && !busy && id in s.store.entries && WellSized(s.store.entries[id]) {
      assert RecorderOk(s, id);
      var r, e := s.recorders[id], s.store.entries[id];
      BodyExact(e, r, side, p, hint, grow);
      EvictedIsEmpty(s, id);
      EvictedStays(r, e);
      ReplaceKeeps(s.store, id, Captures(FoldEntry(r, e), side, p, hint, grow));
    }
    if id in s.recorders && id in s.store.entries {
      SizedPart(s, id);
    }
  }

  lemma SizedPart(s: State, id: nat)
    requires Listed(s.store) && id in s.store.entries
    ensures WellSized(s.store.entries[id])
  {
  }

  lemma IdBound(s: State, id: nat)
    requires Listed(s.store) && id in s.store.entries
    ensures id <= s.store.nextId
  {
  }

  lemma EvictedIsEmpty(s: State, id: nat)
    requires Listed(s.store) && id in s.store.entries
    ensures s.store.entries[id].evicted ==> Captured(s.store.entries[id]) == 0
  {
  }

  lemma EvictedStays(r: Recorder, e: Entry)
    ensures Captured(FoldEntry(r, e)) == Captured(e) && FoldEntry(r, e).evicted == e.evicted
  {
  }

  lemma FoldSized(r: Recorder, e: Entry)
    requires WellSized(e)
    ensures WellSized(FoldEntry(r, e))
  {
  }

  lemma UpdateKeeps(s: State, step: Step, k: nat)
    requires Inv(s) && (step.DoResponse? || step.DoEnd?)
    ensures var r := Do(s, step);
      Listed(r.store) && Bounded(r.store) && r.store.nextId == s.store.nextId && RecorderOk(r, k) && r.recorders.Keys == s.recorders.Keys
  {
    hide Listed, Bounded, Flat, Replace, SumOver;
    assert RecorderOk(s, k);
    var id := step.id;
    if id in s.recorders && id in s.store.entries {
      assert RecorderOk(s, id);
      SizedPart(s, id);
      EvictedIsEmpty(s, id);
      var f := FoldEntry(s.recorders[id], s.store.entries[id]);
      ReplaceKeeps(s.store, id, if step.DoResponse? then f.(headers := step.headers) else f.(finished := true));
    }
  }

  lemma StepKeepsOne(s: State, step: Step, k: nat)
    requires Inv(s)
    ensures var r := Do(s, step);
      Listed(r.store) && Bounded(r.store) && RecorderOk(r, k) && forall id :: id in r.recorders ==> id <= r.store.nextId
  {
    hide Flat, StepBody, StepBegin, StepResponse, StepEnd, StepFlag, SumOver, Listed, Bounded, RecorderOk, Clear;
    assert RecorderOk(s, k);
    match step
    case DoBegin(headers) => BeginKeeps(s, headers, k);
    case DoBody(id, side, p, hint, grow, busy) => BodyKeeps(s, id, side, p, hint, grow, busy, k);
    case DoFlag(id, side) => FlagKeeps(s, id, side, k);
    case DoResponse(_, _) => UpdateKeeps(s, step, k);
    case DoEnd(_) => UpdateKeeps(s, step, k);
    case DoClear => ClearKeeps(s, k);
  }

  lemma BeginKeeps(s: State, headers: nat, k: nat)
    requires Inv(s)
    ensures var r := StepBegin(s, headers);
      Listed(r.store) && Bounded(r.store) && RecorderOk(r, k) && forall id :: id in r.recorders ==> id <= r.store.nextId
  {
    hide Flat, SumOver, Add, Listed, Bounded;
    assert RecorderOk(s, k);
    AddKeeps(s.store, Entry(Capture(NIL, false), Capture(NIL, false), headers, false, false));
    NoChunks();
  }

  lemma FlagKeeps(s: State, id: nat, side: Side, k: nat)
    requires Inv(s)
    ensures var r := StepFlag(s, id, side);
      r.store == s.store && RecorderOk(r, k) && r.recorders.Keys == s.recorders.Keys
  {
    hide Flat, SumOver, Listed, Bounded;
    assert RecorderOk(s, k);
  }

  lemma ClearKeeps(s: State, k: nat)
    requires Inv(s)
    ensures Listed(Clear(s.store)) && Bounded(Clear(s.store)) && RecorderOk(s.(store := Clear(s.store)), k)
    ensures Clear(s.store).nextId == s.store.nextId
  {
    hide Flat, SumOver;
    EmptySum();
  }

  lemma NoChunks()
    ensures Flat([]) == []
  {
  }

  lemma EmptySum()
    ensures SumOver(map[], BodyBytes) == 0
  {
  }

  lemma StepKeeps(s: State, step: Step)
    requires Inv(s)
    ensures Inv(Do(s, step))
  {
    hide Listed, Bounded, RecorderOk, Do;
    forall k: nat
      ensures RecorderOk(Do(s, step), k)
    {
      StepKeepsOne(s, step, k);
    }
    StepKeepsOne(s, step, 0);
  }

  lemma {:induction false} RunKeeps(steps: seq<Step>)
    ensures Inv(Run(steps))
  {
    hide Do;
    if steps == [] {
      EmptySum();
    } else {
      RunKeeps(steps[..|steps| - 1]);
      StepKeeps(Run(steps[..|steps| - 1]), steps[|steps| - 1]);
    }
  }

  // ---------------------------------------------------------------- theorems

  /**
   * After any run: order lists exactly the stored ids in increasing order, at most MAX_ENTRIES of
   * them, the running total is the plain sum, and it fits MAX_TOTAL_BYTES unless no body is left.
   */
  lemma StoreAgreesWithSum(steps: seq<Step>)
    ensures var s := Run(steps).store;
      && (forall i, j :: 0 <= i < j < |s.order| ==> s.order[i] < s.order[j])
      && (forall id :: id in s.order <==> id in s.entries)
      && |s.order| <= MAX_ENTRIES
      && s.total == SumOver(s.entries, BodyBytes)
      && (s.total <= MAX_TOTAL_BYTES || forall id :: id in s.entries ==> Captured(s.entries[id]) == 0)
      && (forall id :: id in s.entries ==>
            var e := s.entries[id];
            Captured(e) == e.request.body.cap + e.response.body.cap && BodyBytes(e) == Captured(e) + e.headers)
  {
    hide Run, SumOver;
    RunKeeps(steps);
  }

  /**
   * Once a stream has ended, with every body hook returned before its End, an entry that is neither
   * truncated nor evicted holds exactly the bytes the hook was given.
   */
  lemma UnflaggedCaptureIsExact(steps: seq<Step>, id: nat, side: Side)
    requires id in Run(steps).store.entries && Run(steps).store.entries[id].finished
    requires !Run(steps).store.entries[id].evicted && !Of(Run(steps).store.entries[id], side).truncated
    ensures id in Run(steps).recorders
    ensures !Run(steps).recorders[id].late ==>
              Of(Run(steps).store.entries[id], side).body.data == Flat(TapOf(Run(steps).recorders[id], side).chunks)
  {
    hide Run, SumOver, Flat, Listed, Bounded;
    RunKeeps(steps);
    assert RecorderOk(Run(steps), id);
  }

  /** Eviction is permanent: the entry goes, or it stays without bodies. */
  lemma EvictionIsPermanent(steps: seq<Step>, step: Step, id: nat)
    requires id in Run(steps).store.entries && Run(steps).store.entries[id].evicted
    ensures var s := Do(Run(steps), step).store; id in s.entries ==> s.entries[id].evicted && Captured(s.entries[id]) == 0
  {
    hide Run, SumOver, Flat, Bounded, Add, Replace, AppendCapped, Captures, FoldEntry;
    RunKeeps(steps);
    var s := Run(steps);
    StepKeeps(s, step);
    assert forall k :: k in s.store.entries ==> WellSized(s.store.entries[k]);
    if id in Do(s, step).store.entries {
      EvictedStaysEvicted(s, step, id);
    }
  }

  lemma EvictedStaysEvicted(s: State, step: Step, id: nat)
    requires Inv(s) && id in s.store.entries && s.store.entries[id].evicted && id in Do(s, step).store.entries
    ensures Do(s, step).store.entries[id].evicted
  {
    hide SumOver, Flat, Bounded, Add, Replace, AppendCapped, Captures, FoldEntry, Listed, Exact;
    forall k | k in s.store.entries
      ensures WellSized(s.store.entries[k]) && (s.store.entries[k].evicted ==> Captured(s.store.entries[k]) == 0) && k <= s.store.nextId
    {
      SizedPart(s, k);
      EvictedIsEmpty(s, k);
      IdBound(s, k);
    }
    match step
    case DoBegin(headers) => AddKeeps(s.store, Entry(Capture(NIL, false), Capture(NIL, false), headers, false, false));
    case DoBody(k, side, p, hint, grow, busy) =>
      if k in s.recorders && !busy && k in s.store.entries {
        assert RecorderOk(s, k);
        BodyExact(s.store.entries[k], s.recorders[k], side, p, hint, grow);
        EvictedStays(s.recorders[k], s.store.entries[k]);
        ReplaceKeeps(s.store, k, Captures(FoldEntry(s.recorders[k], s.store.entries[k]), side, p, hint, grow));
      }
    case DoResponse(k, headers) =>
      if k in s.recorders && k in s.store.entries {
        EvictedStays(s.recorders[k], s.store.entries[k]);
        FoldSized(s.recorders[k], s.store.entries[k]);
        ReplaceKeeps(s.store, k, FoldEntry(s.recorders[k], s.store.entries[k]).(headers := headers));
      }
    case DoEnd(k) =>
      if k in s.recorders && k in s.store.entries {
        EvictedStays(s.recorders[k], s.store.entries[k]);
        FoldSized(s.recorders[k], s.store.entries[k]);
        ReplaceKeeps(s.store, k, FoldEntry(s.recorders[k], s.store.entries[k]).(finished := true));
      }
    case _ =>
  }
}
