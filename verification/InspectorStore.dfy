/**
 * The inspector's bounded store of recorded exchanges, and the recorders that feed it.
 *
 * A step is one critical section of the store's mutex or one atomic of a recorder. A body hook that
 * finds the store busy drops its chunk and raises its flag in a later step. How far append grows a
 * buffer is a parameter.
 */
module InspectorStore {
  import opened Limits

  const MAX_ENTRIES: int := 500
  const MAX_BODY_CAPTURE: int := 1048576
  const MAX_TOTAL_BYTES: int := 67108864

  /** A byte slice with its capacity; the nil slice has capacity 0. */
  datatype Buffer = Buffer(data: Bytes, cap: nat)

  const NIL := Buffer([], 0)

  /** One captured body side of an entry. */
  datatype Capture = Capture(body: Buffer, truncated: bool)

  datatype Entry = Entry(request: Capture, response: Capture, headers: nat, evicted: bool, finished: bool)

  datatype Store = Store(nextId: nat, order: seq<nat>, entries: map<nat, Entry>, total: int)

  const Empty := Store(0, [], map[], 0)

  datatype Side = Request | Response

  // ---------------------------------------------------------------- the store

  function Captured(e: Entry): int { e.request.body.cap + e.response.body.cap }

  function BodyBytes(e: Entry): int { Captured(e) + e.headers }

  function Bodyless(e: Entry): Entry {
    e.(request := e.request.(body := NIL), response := e.response.(body := NIL), evicted := true)
  }

  /** Drops the oldest entries beyond MAX_ENTRIES. */
  function EvictOld(s: Store): Store
    decreases |s.order|
  {
    if |s.order| <= MAX_ENTRIES then s
    else
      var id := s.order[0];
      EvictOld(if id in s.entries
        then s.(order := s.order[1..], entries := s.entries - {id}, total := s.total - BodyBytes(s.entries[id]))
        else s.(order := s.order[1..]))
  }

  /** Drops the oldest bodies, from position `i` on, while the total is too large. */
  function EvictBodies(s: Store, i: nat): Store
    decreases |s.order| - i
  {
    if i >= |s.order| || s.total <= MAX_TOTAL_BYTES then s else EvictBodies(EvictBody(s, s.order[i]), i + 1)
  }

  function EvictBody(s: Store, id: nat): (r: Store)
    ensures r.order == s.order
  {
    if id !in s.entries || Captured(s.entries[id]) == 0 then s
    else s.(entries := s.entries[id := Bodyless(s.entries[id])], total := s.total - Captured(s.entries[id]))
  }

  function Evict(s: Store): Store { EvictBodies(EvictOld(s), 0) }

  function Add(s: Store, e: Entry): Store {
    Evict(Store(s.nextId + 1, s.order + [s.nextId + 1], s.entries[s.nextId + 1 := e], s.total + BodyBytes(e)))
  }

  /** update and mutate: `e` replaces entry `id` if it still exists. */
  function Replace(s: Store, id: nat, e: Entry): Store {
    if id !in s.entries then s
    else Evict(s.(entries := s.entries[id := e], total := s.total + BodyBytes(e) - BodyBytes(s.entries[id])))
  }

  function Clear(s: Store): Store { s.(order := [], entries := map[], total := 0) }

  // ---------------------------------------------------------------- captures

  /** append: in place while the capacity lasts, else into a larger buffer. */
  function Append(b: Buffer, p: Bytes, grow: nat): (r: Buffer)
    requires |b.data| <= b.cap
    ensures |r.data| <= r.cap && r.data == b.data + p
  {
    if |b.data| + |p| <= b.cap then b.(data := b.data + p)
    else Buffer(b.data + p, if grow < |b.data| + |p| then |b.data| + |p| else grow)
  }

  /** appendCapped: up to MAX_BODY_CAPTURE bytes, into a buffer sized by a declared length. */
  function AppendCapped(b: Buffer, p: Bytes, hint: int, grow: nat): (r: (Buffer, bool))
    requires |b.data| <= b.cap
    ensures |r.0.data| <= r.0.cap
  {
    var dst := if b == NIL && hint > 0 then Buffer([], Min(hint, MAX_BODY_CAPTURE)) else b;
    var room := MAX_BODY_CAPTURE - |dst.data|;
    if room <= 0 then (dst, |p| > 0)
    else if |p| > room then (Append(dst, p[..room], grow), true)
    else (Append(dst, p, grow), false)
  }

  function Of(e: Entry, side: Side): Capture { if side.Request? then e.request else e.response }

  function With(e: Entry, side: Side, c: Capture): Entry { if side.Request? then e.(request := c) else e.(response := c) }

  // ---------------------------------------------------------------- recorders

  /** A recorder's atomics for one side; `unflagged` counts dropped chunks whose flag is not raised yet. */
  datatype Tap = Tap(dropped: bool, unflagged: nat, chunks: seq<Bytes>)

  /** `late`: a body hook was still running, or started, when End ran. */
  datatype Recorder = Recorder(request: Tap, response: Tap, ended: bool, late: bool)

  datatype State = State(store: Store, recorders: map<nat, Recorder>)

  const Start := State(Empty, map[])

  function TapOf(r: Recorder, side: Side): Tap { if side.Request? then r.request else r.response }

  function WithTap(r: Recorder, side: Side, t: Tap): Recorder { if side.Request? then r.(request := t) else r.(response := t) }

  /** fold: what was dropped under contention truncates the capture. */
  function FoldEntry(r: Recorder, e: Entry): Entry {
    e.(request := e.request.(truncated := e.request.truncated || r.request.dropped),
       response := e.response.(truncated := e.response.truncated || r.response.dropped))
  }

  function Folded(r: Recorder): Recorder {
    r.(request := r.request.(dropped := false), response := r.response.(dropped := false))
  }

  function Captures(e: Entry, side: Side, p: Bytes, hint: int, grow: nat): Entry
    requires |Of(e, side).body.data| <= Of(e, side).body.cap
  {
    if e.evicted then e
    else
      var c := Of(e, side);
      var (body, cut) := AppendCapped(c.body, p, hint, grow);
      With(e, side, Capture(body, c.truncated || cut))
  }

  predicate WellSized(e: Entry) { |e.request.body.data| <= e.request.body.cap && |e.response.body.data| <= e.response.body.cap }

  function StepBegin(s: State, headers: nat): State {
    State(Add(s.store, Entry(Capture(NIL, false), Capture(NIL, false), headers, false, false)),
          s.recorders[s.store.nextId + 1 := Recorder(Tap(false, 0, []), Tap(false, 0, []), false, false)])
  }

  /** RequestBody or ResponseBody; `busy` is a failed TryLock. */
  function StepBody(s: State, id: nat, side: Side, p: Bytes, hint: int, grow: nat, busy: bool): State {
    if id !in s.recorders then s
    else
      var r := s.recorders[id];
      var t := TapOf(r, side);
      if busy then
        s.(recorders := s.recorders[id := WithTap(r, side, t.(unflagged := t.unflagged + 1, chunks := t.chunks + [p])).(
                                        late := r.late || r.ended)])
      else if id !in s.store.entries || !WellSized(s.store.entries[id]) then
        s.(recorders := s.recorders[id := WithTap(r, side, t.(chunks := t.chunks + [p])).(late := r.late || r.ended)])
      else
        State(Replace(s.store, id, Captures(FoldEntry(r, s.store.entries[id]), side, p, hint, grow)),
              s.recorders[id := WithTap(Folded(r), side, TapOf(Folded(r), side).(chunks := t.chunks + [p])).(late := r.late || r.ended)])
  }

  /** A dropped chunk's flag is raised. */
  function StepFlag(s: State, id: nat, side: Side): State {
    if id !in s.recorders || TapOf(s.recorders[id], side).unflagged == 0 then s
    else
      var r := s.recorders[id];
      var t := TapOf(r, side);
      s.(recorders := s.recorders[id := WithTap(r, side, t.(dropped := true, unflagged := t.unflagged - 1))])
  }

  function StepResponse(s: State, id: nat, headers: nat): State {
    if id !in s.recorders || id !in s.store.entries then s
    else
      var r := s.recorders[id];
      State(Replace(s.store, id, FoldEntry(r, s.store.entries[id]).(headers := headers)), s.recorders[id := Folded(r)])
  }

  function StepEnd(s: State, id: nat): State {
    if id !in s.recorders then s
    else
      var r := s.recorders[id];
      var ended := r.(ended := true, late := r.late || r.request.unflagged > 0 || r.response.unflagged > 0);
      if id !in s.store.entries then s.(recorders := s.recorders[id := ended])
      else
        State(Replace(s.store, id, FoldEntry(r, s.store.entries[id]).(finished := true)), s.recorders[id := Folded(ended)])
  }

  datatype Step =
    | DoBegin(headers: nat)
    | DoBody(id: nat, side: Side, p: Bytes, hint: int, grow: nat, busy: bool)
    | DoFlag(id: nat, side: Side)
    | DoResponse(id: nat, headers: nat)
    | DoEnd(id: nat)
    | DoClear

  function Do(s: State, step: Step): State {
    match step
    case DoBegin(headers) => StepBegin(s, headers)
    case DoBody(id, side, p, hint, grow, busy) => StepBody(s, id, side, p, hint, grow, busy)
    case DoFlag(id, side) => StepFlag(s, id, side)
    case DoResponse(id, headers) => StepResponse(s, id, headers)
    case DoEnd(id) => StepEnd(s, id)
    case DoClear => s.(store := Clear(s.store))
  }

  function Run(steps: seq<Step>): State {
    if steps == [] then Start else Do(Run(steps[..|steps| - 1]), steps[|steps| - 1])
  }
}
