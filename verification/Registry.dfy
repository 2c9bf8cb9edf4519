/** The services a runtime's rows provide: rows that load and unload, slots the host mirrors,
    and the handles given to the objects in them. */
module Registry {
  import opened Options
  import opened Digits

  // ── Names ───────────────────────────────────────────────────────

  const NUL: char := '\0'

  /** A service's id in a scope; none when a name or label cannot be one. */
  function ScopedId(name: string, scope: Option<string>): Option<string> {
    if NUL in name || (scope.Some? && (NUL in scope.value || scope.value == "")) then None
    else if scope.None? then Some(name)
    else Some(name + [NUL] + scope.value)
  }

  /** The handle of the `generation`th object in slot `id`. In a scope the mark is NUL, for a
      label can hold `#`. */
  function HandleOf(id: string, generation: nat): string {
    if generation == 1 then id else id + [if NUL in id then NUL else '#'] + NatText(generation)
  }

  /** The id of a slot: a name without `#`, alone or in a scope. */
  ghost predicate IsSlotId(id: string) {
    exists name, scope :: '#' !in name && ScopedId(name, scope) == Some(id)
  }

  // ── State ───────────────────────────────────────────────────────

  /** A service provided. `unloading`: its row unloads, and it is hidden. */
  datatype Service = Service(registration: nat, row: string, owner: nat, item: nat, unloading: bool)

  /** A slot the host mirrors: the object in it, and the handle it has. */
  datatype Slot = Slot(row: string, owner: nat, item: Option<nat>, handle: Option<string>, announced: bool)

  datatype Handle = Handle(name: string, item: nat, current: bool, released: bool, gone: bool)

  /** An entry of an unload stack. */
  datatype Step = Cleanup(what: nat) | Withdrawal(registration: nat)

  datatype Phase = Active | Unloading | Unloaded

  /** One loading of a row; its key may be taken again by another once it unloads. `all`: its
      unload stack as it was when the unload began. */
  datatype Row = Row(
    key: string, isolate: map<string, string>, exports: seq<string>, announced: seq<string>,
    provided: seq<string>, steps: seq<Step>, all: seq<Step>, phase: Phase)

  /** What the host is told. */
  datatype Notice = Notice(id: string, handle: Option<string>, version: nat)

  /** History: what was provided, and which objects got which handles. */
  datatype Registration = Registration(id: string, owner: nat, item: nat)
  datatype Given = Given(handle: string, id: string, generation: nat, item: nat)

  datatype Runtime = Runtime(
    rows: map<string, nat>, instances: seq<Row>,
    services: map<string, Service>, slots: map<string, Slot>,
    handles: map<string, Handle>, generations: map<string, nat>, version: nat,
    notices: seq<Notice>, registered: seq<Registration>, withdrawn: set<nat>,
    given: seq<Given>, released: set<string>)

  function Fresh(): Runtime {
    Runtime(map[], [], map[], map[], map[], map[], 0, [], [], {}, [], {})
  }

  // ── Reading ─────────────────────────────────────────────────────

  /** What `reader` finds under `id`. */
  function Find(s: Runtime, id: string, reader: string): Option<nat> {
    if id in s.services && (!s.services[id].unloading || s.services[id].row == reader) then Some(s.services[id].item)
    else None
  }

  /** The object slot `id` shows the host. */
  function Current(s: Runtime, id: string): Option<nat> {
    if id in s.slots && id in s.services && s.services[id].row == s.slots[id].row && !s.services[id].unloading
    then Some(s.services[id].item) else None
  }

  function IdIn(row: Row, name: string): Option<string> {
    ScopedId(name, if name in row.isolate then Some(row.isolate[name]) else None)
  }

  function GenerationOf(s: Runtime, id: string): nat {
    if id in s.generations then s.generations[id] else 0
  }

  // ── Slots and handles ───────────────────────────────────────────

  /** A handle not current any more: forgotten once the host released it. */
  function Retire(handles: map<string, Handle>, handle: string): map<string, Handle> {
    if handle !in handles then handles
    else if handles[handle].released then handles - {handle}
    else handles[handle := handles[handle].(current := false)]
  }

  /** Empty slot `id`. */
  function Vacate(s: Runtime, id: string): Runtime
    requires id in s.slots
  {
    var slot := s.slots[id];
    s.(slots := s.slots[id := slot.(item := None, handle := None)],
       handles := if slot.handle.Some? then Retire(s.handles, slot.handle.value) else s.handles)
  }

  /** Put an object in the empty slot `id`, under a new handle. */
  function Fill(s: Runtime, id: string, item: nat): Runtime
    requires id in s.slots
  {
    var generation := GenerationOf(s, id) + 1;
    var handle := HandleOf(id, generation);
    s.(slots := s.slots[id := s.slots[id].(item := Some(item), handle := Some(handle))],
       handles := s.handles[handle := Handle(id, item, true, false, false)],
       generations := s.generations[id := generation],
       given := s.given + [Given(handle, id, generation, item)])
  }

  function Change(s: Runtime, id: string, now: Option<nat>): (t: Runtime)
    requires id in s.slots
    ensures id in t.slots
  {
    if now.None? then Vacate(s, id) else Fill(Vacate(s, id), id, now.value)
  }

  /** Tell the host of the object now in slot `id`, when it changed. */
  function Refresh(s: Runtime, id: string): Runtime {
    if id !in s.slots || Current(s, id) == s.slots[id].item then s
    else
      var t := Change(s, id, Current(s, id));
      t.(version := s.version + 1, notices := s.notices + [Notice(id, t.slots[id].handle, s.version + 1)])
  }

  // ── Providing and withdrawing ───────────────────────────────────

  function WithRow(s: Runtime, row: nat, r: Row): Runtime
    requires row < |s.instances|
  {
    s.(instances := s.instances[row := r])
  }

  /** A row provides `item` as `name`; nothing when the name is provided, or cannot be an id. */
  function Provide(s: Runtime, row: nat, name: string, item: nat): Runtime
    requires row < |s.instances|
  {
    var r := s.instances[row];
    var id := IdIn(r, name);
    if id.None? || id.value in s.services then s
    else Refresh(Registered(Announce(s, row, name, id.value), row, id.value, item), id.value)
  }

  /** A slot of its own for a service that is not declared. */
  function Announce(s: Runtime, row: nat, name: string, id: string): Runtime
    requires row < |s.instances|
  {
    var r := s.instances[row];
    if id in s.slots || '#' in name then s
    else WithRow(s, row,
      r.(announced := r.announced + [id])).(slots := s.slots[id := Slot(r.key, row, None, None, true)])
  }

  function Registered(s: Runtime, row: nat, id: string, item: nat): Runtime
    requires row < |s.instances|
  {
    var r := s.instances[row];
    WithRow(s, row, r.(provided := r.provided + [id], steps := r.steps + [Withdrawal(|s.registered|)]))
      .(services := s.services[id := Service(|s.registered|, r.key, row, item, false)],
        registered := s.registered + [Registration(id, row, item)])
  }

  function Filter(ids: seq<string>, id: string): (rest: seq<string>)
    ensures forall i :: i in rest <==> i in ids && i != id
  {
    if ids == [] then [] else (if ids[0] == id then [] else [ids[0]]) + Filter(ids[1..], id)
  }

  /** Withdraw a registration: nothing when it is gone, or the id is another registration's. */
  function Withdraw(s: Runtime, registration: nat): Runtime {
    if registration >= |s.registered| then s
    else
      var it := s.registered[registration];
      if it.id !in s.services || s.services[it.id].registration != registration || it.owner >= |s.instances| then s
      else
        var r := s.instances[it.owner];
        Refresh(WithRow(s, it.owner, r.(provided := Filter(r.provided, it.id)))
                  .(services := s.services - {it.id}, withdrawn := s.withdrawn + {registration}), it.id)
  }

  // ── Loading ─────────────────────────────────────────────────────

  /** The ids of a row's exports, in their order; none when one cannot be projected. */
  function ExportIds(isolate: map<string, string>, names: seq<string>): Option<seq<string>> {
    if names == [] then Some([])
    else
      var name := names[0];
      var id := ScopedId(name, if name in isolate then Some(isolate[name]) else None);
      var rest := ExportIds(isolate, names[1..]);
      if '#' in name || id.None? || rest.None? then None else Some([id.value] + rest.value)
  }

  predicate IsolateOk(isolate: map<string, string>) {
    forall name <- isolate :: ScopedId(name, Some(isolate[name])).Some?
  }

  function AddSlots(slots: map<string, Slot>, ids: seq<string>, key: string, owner: nat): map<string, Slot>
    decreases |ids|
  {
    if ids == [] then slots else AddSlots(slots[ids[0] := Slot(key, owner, None, None, false)], ids[1..], key, owner)
  }

  /** Load a row: its slots are taken, unless a name cannot be one or a slot is another row's. */
  function Load(s: Runtime, key: string, isolate: map<string, string>, names: seq<string>): Runtime {
    var ids := ExportIds(isolate, names);
    if key in s.rows || !IsolateOk(isolate) || ids.None? || (exists id <- ids.value :: id in s.slots) then s
    else
      var row := |s.instances|;
      s.(rows := s.rows[key := row],
         instances := s.instances + [Row(key, isolate, ids.value, [], [], [], [], Active)],
         slots := AddSlots(s.slots, ids.value, key, row))
  }

  function RefreshAll(s: Runtime, ids: seq<string>): Runtime
    decreases |ids|
  {
    if ids == [] then s else RefreshAll(Refresh(s, ids[0]), ids[1..])
  }

  // ── Unloading ───────────────────────────────────────────────────

  /** What an unloading row provides is hidden, and the slots it was in are emptied. */
  function Hide(s: Runtime, ids: seq<string>, key: string): Runtime
    decreases |ids|
  {
    if ids == [] then s
    else
      var id := ids[0];
      var hidden := if id in s.services && s.services[id].row == key
        then Refresh(s.(services := s.services[id := s.services[id].(unloading := true)]), id) else s;
      Hide(hidden, ids[1..], key)
  }

  /** Every handle on the objects of slot `id` says that the service is gone. */
  function Gone(handles: map<string, Handle>, id: string): map<string, Handle> {
    map h | h in handles && !(handles[h].name == id && handles[h].released)
      :: if handles[h].name == id then handles[h].(current := false, gone := true) else handles[h]
  }

  function RemoveSlots(s: Runtime, ids: seq<string>, key: string): Runtime
    decreases |ids|
  {
    if ids == [] then s
    else
      var id := ids[0];
      var removed := if id in s.slots && s.slots[id].row == key
        then s.(slots := s.slots - {id}, handles := Gone(s.handles, id)) else s;
      RemoveSlots(removed, ids[1..], key)
  }

  /** The first part of an unload: the row is gone from the runtime, its stack still to run. */
  function BeginUnload(s: Runtime, key: string): Runtime {
    if key !in s.rows || s.rows[key] >= |s.instances| then s
    else
      var row := s.rows[key];
      var r := s.instances[row];
      var hidden := Hide(s.(rows := s.rows - {key}), r.provided, key);
      if row >= |hidden.instances| then hidden
      else
        RemoveSlots(WithRow(hidden, row, hidden.instances[row].(announced := [], all := r.steps, phase := Unloading)),
                    r.exports + r.announced, key)
  }

  /** The last step on the stack runs: a cleanup, or the withdrawal of a registration. */
  function RunStep(s: Runtime, row: nat): Runtime
    requires row < |s.instances| && s.instances[row].steps != []
  {
    var r := s.instances[row];
    var popped := WithRow(s, row, r.(steps := r.steps[..|r.steps| - 1]));
    match r.steps[|r.steps| - 1]
    case Cleanup(_) => popped
    case Withdrawal(registration) => Withdraw(popped, registration)
  }

  function Release(s: Runtime, handle: string): Runtime {
    if handle !in s.handles then s
    else if s.handles[handle].current then
      s.(handles := s.handles[handle := s.handles[handle].(released := true)], released := s.released + {handle})
    else s.(handles := s.handles - {handle}, released := s.released + {handle})
  }

  /** What a call to a handle comes to. */
  datatype Reached = Unknown | Unavailable | Served(item: nat)

  function Dispatch(s: Runtime, handle: string): Reached {
    if handle !in s.handles then Unknown
    else if s.handles[handle].gone then Unavailable
    else Served(s.handles[handle].item)
  }

  // ── Runs ────────────────────────────────────────────────────────

  datatype Act =
    | Loads(key: string, isolate: map<string, string>, names: seq<string>)
    | Provides(row: nat, name: string, item: nat)
    | Effects(row: nat, what: nat)
    | Withdraws(registration: nat)
    | Applied(row: nat)          // the row's apply returned
    | Unloads(key: string)
    | Steps(row: nat)            // the next step of its unload stack
    | Ends(row: nat)             // its stack ran
    | Releases(handle: string)

  function Perform(s: Runtime, act: Act): Runtime {
    match act
    case Loads(key, isolate, names) => Load(s, key, isolate, names)
    case Provides(row, name, item) =>
      if row < |s.instances| && s.instances[row].phase.Active? then Provide(s, row, name, item) else s
    case Effects(row, what) =>
      if row < |s.instances| && s.instances[row].phase.Active?
      then WithRow(s, row, s.instances[row].(steps := s.instances[row].steps + [Cleanup(what)])) else s
    case Withdraws(registration) => Withdraw(s, registration)
    case Applied(row) => if row < |s.instances| then RefreshAll(s, s.instances[row].exports) else s
    case Unloads(key) => BeginUnload(s, key)
    case Steps(row) =>
      if row < |s.instances| && s.instances[row].phase.Unloading? && s.instances[row].steps != [] then RunStep(s, row)
      else s
    case Ends(row) =>
      if row < |s.instances| && s.instances[row].phase.Unloading? && s.instances[row].steps == []
      then WithRow(s, row, s.instances[row].(provided := [], phase := Unloaded)) else s
    case Releases(handle) => Release(s, handle)
  }

  function Play(acts: seq<Act>): Runtime {
    if acts == [] then Fresh() else Perform(Play(acts[..|acts| - 1]), acts[|acts| - 1])
  }
}
