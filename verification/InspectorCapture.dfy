/** What an uncontended capture holds: the beginning of the body, up to the cap, and nothing else. */
module InspectorCapture {
  import opened Limits
  import opened Sums
  import opened InspectorStore
  import opened InspectorSafety

  function FirstMebibyte(b: Bytes): Bytes { if |b| <= 1048576 then b else b[..1048576] }

  /** A body hook of this side finds the store busy and drops its chunk. */
  predicate Contends(step: Step, id: nat, side: Side) { step.DoBody? && step.id == id && step.side == side && step.busy }

  predicate Uncontended(steps: seq<Step>, id: nat, side: Side) { forall i :: 0 <= i < |steps| ==> !Contends(steps[i], id, side) }

  ghost predicate Holds(c: Capture, given: Bytes) {
    c.body.data == FirstMebibyte(given) && (c.truncated <==> |given| > 1048576)
  }

  ghost predicate Whole(s: State, id: nat, side: Side) {
    id in s.recorders ==>
      var t := TapOf(s.recorders[id], side);
      && !t.dropped && t.unflagged == 0
      && (id in s.store.entries && !s.store.entries[id].evicted ==> Holds(Of(s.store.entries[id], side), Flat(t.chunks)))
  }

  lemma AppendHolds(c: Capture, given: Bytes, p: Bytes, hint: int, grow: nat)
    requires Holds(c, given) && |c.body.data| <= c.body.cap
    ensures var (body, cut) := AppendCapped(c.body, p, hint, grow); Holds(Capture(body, c.truncated || cut), given + p)
  {
    var room := 1048576 - |c.body.data|;
    if room <= 0 {
      assert (given + p)[..1048576] == given[..1048576];
    } else if |p| > room {
      assert (given + p)[..1048576] == given + p[..room];
    }
  }

  lemma CapturesHold(e: Entry, r: Recorder, at: Side, p: Bytes, hint: int, grow: nat, side: Side)
    requires WellSized(e) && !e.evicted && !TapOf(r, side).dropped && Holds(Of(e, side), Flat(TapOf(r, side).chunks))
    ensures WellSized(FoldEntry(r, e))
    ensures var f := Captures(FoldEntry(r, e), at, p, hint, grow);
      Holds(Of(f, side), Flat(if side == at then TapOf(r, side).chunks + [p] else TapOf(r, side).chunks))
  {
    hide AppendCapped, Flat, Holds;
    if side == at {
      AppendHolds(Of(e, side), Flat(TapOf(r, side).chunks), p, hint, grow);
      FlatSnoc(TapOf(r, side).chunks, p);
    }
  }

  lemma BeginWhole(s: State, headers: nat, id: nat, side: Side)
    requires Inv(s) && Whole(s, id, side)
    ensures Whole(StepBegin(s, headers), id, side)
  {
    hide Add, Listed, Bounded, RecorderOk, SumOver, Flat;
    AddKeeps(s.store, Entry(Capture(NIL, false), Capture(NIL, false), headers, false, false));
    NoChunks();
  }

  lemma BodyWhole(s: State, k: nat, at: Side, p: Bytes, hint: int, grow: nat, busy: bool, id: nat, side: Side)
    requires Inv(s) && Whole(s, id, side) && !Contends(DoBody(k, at, p, hint, grow, busy), id, side)
    ensures Whole(StepBody(s, k, at, p, hint, grow, busy), id, side)
  {
    hide Replace, Listed, Bounded, SumOver, Flat, Holds, AppendCapped, Captures, FoldEntry;
    if k in s.recorders && !busy && k in s.store.entries && WellSized(s.store.entries[k]) {
      var e, r := s.store.entries[k], s.recorders[k];
      assert RecorderOk(s, k);
      BodyExact(e, r, at, p, hint, grow);
      EvictedIsEmpty(s, k);
      EvictedStays(r, e);
      ReplaceKeeps(s.store, k, Captures(FoldEntry(r, e), at, p, hint, grow));
      if k == id && !e.evicted {
        CapturesHold(e, r, at, p, hint, grow, side);
      }
    } else if k in s.recorders && k in s.store.entries {
      SizedPart(s, k);
    }
  }

  lemma UpdateWhole(s: State, step: Step, id: nat, side: Side)
    requires Inv(s) && Whole(s, id, side) && (step.DoResponse? || step.DoEnd?)
    ensures Whole(Do(s, step), id, side)
  {
    hide Replace, Listed, Bounded, SumOver, Flat, Holds, RecorderOk;
    var k := step.id;
    if k in s.recorders && k in s.store.entries {
      SizedPart(s, k);
      EvictedIsEmpty(s, k);
      var f := FoldEntry(s.recorders[k], s.store.entries[k]);
      ReplaceKeeps(s.store, k, if step.DoResponse? then f.(headers := step.headers) else f.(finished := true));
    }
  }

  /** A flag is raised only for a chunk that was dropped. */
  lemma FlagWhole(s: State, k: nat, at: Side, id: nat, side: Side)
    requires Whole(s, id, side)
    ensures Whole(StepFlag(s, k, at), id, side)
  {
    hide Flat, Holds;
  }

  lemma {:induction false} RunWhole(steps: seq<Step>, id: nat, side: Side)
    requires Uncontended(steps, id, side)
    ensures Whole(Run(steps), id, side)
  {
    hide StepBegin, StepBody, StepFlag, StepResponse, StepEnd, Inv, Whole;
    if steps == [] {
      NothingYet(id, side);
    } else {
      var init, step := steps[..|steps| - 1], steps[|steps| - 1];
      RunWhole(init, id, side);
      RunKeeps(init);
      var s := Run(init);
      match step
      case DoBegin(headers) => BeginWhole(s, headers, id, side);
      case DoBody(k, at, p, hint, grow, busy) => BodyWhole(s, k, at, p, hint, grow, busy, id, side);
      case DoFlag(k, at) => FlagWhole(s, k, at, id, side);
      case DoClear => ClearWhole(s, id, side);
      case _ => UpdateWhole(s, step, id, side);
    }
  }

  lemma NothingYet(id: nat, side: Side)
    ensures Whole(Start, id, side)
  {
  }

  lemma ClearWhole(s: State, id: nat, side: Side)
    requires Whole(s, id, side)
    ensures Whole(s.(store := Clear(s.store)), id, side)
  {
  }

  /**
   * A side whose hooks never found the store busy holds exactly the first mebibyte of what they were
   * given, for as long as the entry keeps its bodies, and is marked as truncated exactly if there was more.
   */
  lemma UncontendedCapture(steps: seq<Step>, id: nat, side: Side)
    requires Uncontended(steps, id, side) && id in Run(steps).store.entries && !Run(steps).store.entries[id].evicted
    ensures id in Run(steps).recorders
    ensures var c, given := Of(Run(steps).store.entries[id], side), Flat(TapOf(Run(steps).recorders[id], side).chunks);
      c.body.data == (if |given| <= 1048576 then given else given[..1048576]) && (c.truncated <==> |given| > 1048576)
  {
    hide Run, Uncontended, Flat;
    RunWhole(steps, id, side);
    RunKeeps(steps);
    assert RecorderOk(Run(steps), id);
  }

  /** Every chunk a hook is given is on its recorder, in order. */
  lemma ChunksAreGiven(s: State, step: Step, id: nat, side: Side)
    requires Inv(s) && id in s.recorders
    ensures id in Do(s, step).recorders
    ensures TapOf(Do(s, step).recorders[id], side).chunks ==
      TapOf(s.recorders[id], side).chunks + if step.DoBody? && step.id == id && step.side == side then [step.p] else []
  {
    hide Add, Replace, Listed, Bounded, RecorderOk, Captures, FoldEntry, WellSized, AppendCapped;
    var chunks := TapOf(s.recorders[id], side).chunks;
    assert chunks + [] == chunks;
    if step.DoBody? && step.id in s.recorders && step.id in s.store.entries {
      SizedPart(s, step.id);
    }
  }

  /** A dropped chunk's flag is raised once, and the store learns of it with the next update or at the end. */
  lemma FlagsReachTheStore(s: State, id: nat, side: Side)
    requires Inv(s) && id in s.recorders
    ensures var t := TapOf(s.recorders[id], side);
      t.unflagged > 0 ==>
        TapOf(Do(s, DoFlag(id, side)).recorders[id], side) == t.(dropped := true, unflagged := t.unflagged - 1)
    ensures var e := Do(s, DoEnd(id)).store.entries;
      id in e ==> id in s.store.entries && e[id].finished
                  && (TapOf(s.recorders[id], side).dropped ==> Of(e[id], side).truncated)
  {
    hide Replace, Listed, Bounded, RecorderOk, SumOver;
    if id in s.store.entries {
      SizedPart(s, id);
      EvictedIsEmpty(s, id);
      ReplaceKeeps(s.store, id, FoldEntry(s.recorders[id], s.store.entries[id]).(finished := true));
    }
  }

  /** A declared length sizes the buffer once, and never beyond the cap; what fits it is stored in place. */
  lemma HintSizesBuffer(p: Bytes, hint: int, grow: nat)
    requires hint > 0
    ensures var room := if hint < 1048576 then hint else 1048576; var b := AppendCapped(NIL, p, hint, grow).0;
      b.cap >= room && (|p| <= room ==> b == Buffer(p, room))
  {
    assert [] + p == p;
  }
}
