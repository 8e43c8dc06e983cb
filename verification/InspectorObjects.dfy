/** The inspector store's mutable state and its eviction loops. */
module InspectorObjects {
  import opened Sums
  import opened InspectorStore
  import opened InspectorSafety

  class RecordStore {
    var nextId: nat
    var order: seq<nat>
    var entries: map<nat, Entry>
    var total: int

    ghost function View(): Store
      reads this
    {
      Store(nextId, order, entries, total)
    }

    constructor ()
      ensures View() == Empty && Listed(View()) && Bounded(View())
    {
      nextId, order, entries, total := 0, [], map[], 0;
    }

    /** Oldest entries beyond MAX_ENTRIES first, then the oldest bodies beyond MAX_TOTAL_BYTES. */
    method EvictLocked()
      requires Listed(View())
      modifies this`order, this`entries, this`total
      ensures View() == Evict(old(View()))
      ensures old(|order| <= 500 && total <= 67108864) ==> View() == old(View())
      ensures Listed(View()) && Bounded(View())
    {
      hide SumOver, Listed;
      EvictKeeps(View());
      while |order| > MAX_ENTRIES
        invariant EvictOld(View()) == EvictOld(old(View())) && Listed(View())
        decreases |order|
      {
        DropFirst(View());
        var id := order[0];
        order := order[1..];
        total := total - BodyBytes(entries[id]);
        entries := entries - {id};
      }
      ghost var s := View();
      assert s == EvictOld(old(View()));
      var i := 0;
      while i < |order|
        invariant 0 <= i <= |order| && order == s.order && Listed(View())
        invariant EvictBodies(View(), i) == EvictBodies(s, 0)
        decreases |order| - i
      {
        if total <= MAX_TOTAL_BYTES {
          return;
        }
        var id := order[i];
        DropBody(View(), id);
        if Captured(entries[id]) != 0 {
          total := total - Captured(entries[id]);
          entries := entries[id := Bodyless(entries[id])];
        }
        i := i + 1;
      }
    }

    method AddEntry(e: Entry) returns (id: nat)
      requires Listed(View()) && WellSized(e) && !e.evicted
      modifies this
      ensures View() == Add(old(View()), e) && id == old(nextId) + 1
      ensures Listed(View()) && Bounded(View())
    {
      hide SumOver, Evict;
      nextId := nextId + 1;
      entries := entries[nextId := e];
      order := order + [nextId];
      total := total + BodyBytes(e);
      id := nextId;
      AddListed(old(View()), e);
      EvictLocked();
    }

    /** update and mutate once they hold the lock: `e` is what the callback makes of the entry. */
    method ReplaceEntry(id: nat, e: Entry)
      requires Listed(View()) && Bounded(View()) && WellSized(e) && (e.evicted ==> Captured(e) == 0)
      modifies this
      ensures View() == Replace(old(View()), id, e)
      ensures Listed(View()) && Bounded(View())
    {
      hide SumOver, Evict;
      if id !in entries {
        return;
      }
      SumUpdate(entries, BodyBytes, id, e);
      var before := BodyBytes(entries[id]);
      entries := entries[id := e];
      total := total + (BodyBytes(e) - before);
      EvictLocked();
    }

    method ClearAll()
      modifies this
      ensures View() == Clear(old(View()))
      ensures Listed(View()) && Bounded(View())
    {
      order, entries, total := [], map[], 0;
      EmptySum();
    }
  }
}
