/** What every run of a runtime keeps: rows, the services they provide, and their unload stacks. */
module RegistrySound {
  import opened Options
  import opened Registry
  import opened RegistryHandles

  // ── The invariant ───────────────────────────────────────────────

  predicate IsActive(s: Runtime, row: nat) {
    row < |s.instances| && s.instances[row].phase.Active?
  }

  /** The rows loaded are the active ones, one for each key. */
  ghost predicate RowsOk(s: Runtime) {
    && (forall key <- s.rows :: IsActive(s, s.rows[key]) && s.instances[s.rows[key]].key == key)
    && (forall row: nat :: IsActive(s, row) ==> s.instances[row].key in s.rows && s.rows[s.instances[row].key] == row)
  }

  /** A service is of one registration, whose withdrawal is on its row's stack; it is hidden from
      other rows exactly when its row unloads. */
  ghost predicate ServiceOk(s: Runtime, id: string)
    requires id in s.services
  {
    var it := s.services[id];
    && it.registration < |s.registered| && s.registered[it.registration] == Registration(id, it.owner, it.item)
    && it.registration !in s.withdrawn
    && it.owner < |s.instances| && s.instances[it.owner].key == it.row
    && (it.unloading <==> !IsActive(s, it.owner))
    && Withdrawal(it.registration) in s.instances[it.owner].steps
  }

  /** A registration on a stack is the row's own, and provided until it is withdrawn. */
  ghost predicate StepOk(s: Runtime, row: nat, step: Step) {
    step.Withdrawal? ==>
      && step.registration < |s.registered|
      && var it := s.registered[step.registration];
         it.owner == row && (step.registration in s.withdrawn ||
           (it.id in s.services && s.services[it.id].registration == step.registration))
  }

  /** A stack holds registrations in the order they were made, and runs from its end. */
  ghost predicate StackOk(s: Runtime, row: nat)
    requires row < |s.instances|
  {
    var r := s.instances[row];
    && (forall i :: 0 <= i < |r.steps| ==> StepOk(s, row, r.steps[i]))
    && (forall i, j :: 0 <= i < j < |r.steps| && r.steps[i].Withdrawal? && r.steps[j].Withdrawal? ==>
       r.steps[i].registration < r.steps[j].registration)
    && (r.phase.Unloaded? ==> r.steps == [])
    && (r.phase.Unloading? ==> r.steps <= r.all)
  }

  ghost predicate ProvidedOk(s: Runtime) {
    forall row: nat, id: string :: row < |s.instances| ==>
      (id in s.instances[row].provided <==> id in s.services && s.services[id].owner == row)
  }

  /** A slot is an active row's, which exports or announced it. */
  ghost predicate SlotOwned(s: Runtime, id: string)
    requires id in s.slots
  {
    var slot := s.slots[id];
    && IsActive(s, slot.owner) && s.instances[slot.owner].key == slot.row
    && (id in s.instances[slot.owner].exports || id in s.instances[slot.owner].announced)
  }

  ghost predicate IsolatesOk(s: Runtime) {
    forall row :: 0 <= row < |s.instances| ==> IsolateOk(s.instances[row].isolate)
  }

  ghost predicate AllSynced(s: Runtime) {
    forall id <- s.slots :: Synced(s, id)
  }

  ghost predicate Structure(s: Runtime) {
    && RowsOk(s) && ProvidedOk(s) && IsolatesOk(s) && (forall r <- s.withdrawn :: r < |s.registered|)
    && (forall id <- s.services :: ServiceOk(s, id))
    && (forall row: nat :: row < |s.instances| ==> StackOk(s, row))
  }

  ghost predicate Sound(s: Runtime) {
    && Core(s) && Structure(s) && AllSynced(s)
    && (forall id <- s.slots :: SlotOwned(s, id))
  }

  // ── Frames ──────────────────────────────────────────────────────

  /** The handles and the mirror depend on the slots and handles alone. */
  lemma CoreFrame(s: Runtime, t: Runtime)
    requires Core(s)
    requires t.slots == s.slots && t.handles == s.handles && t.generations == s.generations && t.version == s.version
    requires t.notices == s.notices && t.given == s.given && t.released == s.released
    ensures Core(t)
  {
    forall x <- t.slots ensures SlotOk(t, x) { assert SlotOk(s, x); }
    forall h <- t.handles ensures HandleOk(t, h) { assert HandleOk(s, h); SameGiven(s, t, h); }
    forall i | 0 <= i < |t.given| ensures GivenOk(t, t.given[i]) { assert GivenOk(s, s.given[i]); }
    forall h <- t.released ensures Issued(t, h) { SameGiven(s, t, h); }
    assert forall id: string :: SlotHandle(t, id) == SlotHandle(s, id);
    hide Issued, SlotOk, HandleOk, GivenOk;
  }

  lemma StructureFrame(s: Runtime, t: Runtime)
    requires Structure(s)
    requires t.rows == s.rows && t.instances == s.instances && t.services == s.services
    requires t.registered == s.registered && t.withdrawn == s.withdrawn
    ensures Structure(t)
  {
    forall id <- t.services ensures ServiceOk(t, id) { assert ServiceOk(s, id); }
    forall row: nat | row < |t.instances| ensures StackOk(t, row) {
      assert StackOk(s, row);
      forall i | 0 <= i < |t.instances[row].steps| ensures StepOk(t, row, t.instances[row].steps[i]) {
        assert StepOk(s, row, s.instances[row].steps[i]);
      }
    }
    forall row: nat | IsActive(t, row) ensures t.instances[row].key in t.rows && t.rows[t.instances[row].key] == row {
      assert IsActive(s, row);
    }
    forall key <- t.rows ensures IsActive(t, t.rows[key]) && t.instances[t.rows[key]].key == key {
      assert IsActive(s, s.rows[key]);
    }
    hide ServiceOk, StackOk;
  }

  lemma OwnedSame(s: Runtime, t: Runtime, id: string)
    requires SameButSlot(s, t, id) && (forall x <- s.slots :: SlotOwned(s, x))
    ensures forall x <- t.slots :: SlotOwned(t, x)
  {
    forall x <- t.slots ensures SlotOwned(t, x) { assert SlotOwned(s, x); }
  }

  lemma SyncedSame(s: Runtime, t: Runtime, id: string)
    requires SameButSlot(s, t, id) && Synced(t, id) && (forall x <- s.slots :: x != id ==> Synced(s, x))
    ensures AllSynced(t)
  {
    forall x <- t.slots ensures Synced(t, x) { if x != id { assert Synced(s, x); } }
  }

  /** Refreshing the one slot that may be out of date leaves all in order. */
  lemma RefreshSound(s: Runtime, id: string)
    requires Core(s) && Structure(s) && (forall x <- s.slots :: SlotOwned(s, x))
    requires (forall x <- s.slots :: x != id ==> Synced(s, x))
    ensures Sound(Refresh(s, id))
  {
    var t := Refresh(s, id);
    RefreshOk(s, id);
    hide Core, Structure, Refresh, SlotOwned, Synced;
    OwnedSame(s, t, id);
    SyncedSame(s, t, id);
    StructureFrame(s, t);
  }

  // ── Providing ───────────────────────────────────────────────────

  /** An empty slot more. */
  lemma AddSlotOk(s: Runtime, id: string, slot: Slot)
    requires Core(s) && id !in s.slots && IsSlotId(id) && slot.item.None? && slot.handle.None?
    ensures Core(s.(slots := s.slots[id := slot]))
  {
    var t := s.(slots := s.slots[id := slot]);
    assert forall x: string :: SlotHandle(t, x) == SlotHandle(s, x);
    forall x <- t.slots ensures SlotOk(t, x) { if x != id { assert SlotOk(s, x); } }
    forall h <- t.handles ensures HandleOk(t, h) { assert HandleOk(s, h); SameGiven(s, t, h); }
    forall i | 0 <= i < |t.given| ensures GivenOk(t, t.given[i]) { assert GivenOk(s, s.given[i]); }
    forall h <- t.released ensures Issued(t, h) { SameGiven(s, t, h); }
    hide Issued, SlotOk, HandleOk, GivenOk;
  }

  /** A row with other announced slots is as sound. */
  lemma AnnouncedStructure(s: Runtime, row: nat, announced: seq<string>)
    requires Structure(s) && row < |s.instances|
    ensures Structure(WithRow(s, row, s.instances[row].(announced := announced)))
  {
    var t := WithRow(s, row, s.instances[row].(announced := announced));
    assert forall k: nat :: IsActive(t, k) <==> IsActive(s, k);
    forall id <- t.services ensures ServiceOk(t, id) { assert ServiceOk(s, id); }
    forall k: nat | k < |t.instances| ensures StackOk(t, k) {
      assert StackOk(s, k);
      forall i | 0 <= i < |t.instances[k].steps| ensures StepOk(t, k, t.instances[k].steps[i]) {
        assert StepOk(s, k, s.instances[k].steps[i]);
      }
    }
    hide ServiceOk, StackOk;
  }

  lemma AnnounceSound(s: Runtime, row: nat, name: string, id: string)
    requires Sound(s) && IsActive(s, row) && IdIn(s.instances[row], name) == Some(id) && id !in s.services
    ensures Sound(Announce(s, row, name, id))
  {
    var r := s.instances[row];
    if id !in s.slots && '#' !in name {
      var t := Announce(s, row, name, id);
      assert IsSlotId(id);
      AnnouncedSlots(s, row, name, id);
      var slot := Slot(r.key, row, None, None, true);
      hide Core, Structure, SlotOwned, Synced, IsSlotId;
      AnnouncedStructure(s, row, r.announced + [id]);
      StructureFrame(WithRow(s, row, r.(announced := r.announced + [id])), t);
      AddSlotOk(s, id, slot);
      CoreFrame(s.(slots := s.slots[id := slot]), t);
    }
  }

  lemma AnnouncedSlots(s: Runtime, row: nat, name: string, id: string)
    requires AllSynced(s) && (forall x <- s.slots :: SlotOwned(s, x)) && IsActive(s, row) && id !in s.services
    ensures var t := Announce(s, row, name, id); (forall x <- t.slots :: SlotOwned(t, x)) && AllSynced(t)
  {
    var t := Announce(s, row, name, id);
    forall x <- t.slots ensures SlotOwned(t, x) && Synced(t, x) {
      if x != id || id in s.slots { assert SlotOwned(s, x) && Synced(s, x); }
    }
  }

  lemma RegisteredStack(s: Runtime, row: nat, id: string, item: nat, k: nat)
    requires Structure(s) && IsActive(s, row) && id !in s.services && k < |s.instances|
    ensures StackOk(Registered(s, row, id, item), k)
  {
    var t := Registered(s, row, id, item);
    var before, after := s.instances[k].steps, t.instances[k].steps;
    assert StackOk(s, k);
    forall i | 0 <= i < |after| ensures StepOk(t, k, after[i]) {
      if i < |before| { assert StepOk(s, k, before[i]); }
    }
    forall i, j | 0 <= i < j < |after| && after[i].Withdrawal? && after[j].Withdrawal?
      ensures after[i].registration < after[j].registration
    {
      if j == |before| { assert StepOk(s, k, before[i]); }
    }
    hide Structure, StepOk;
  }

  lemma RegisteredService(s: Runtime, row: nat, id: string, item: nat, x: string)
    requires Structure(s) && IsActive(s, row) && id !in s.services && x in Registered(s, row, id, item).services
    ensures ServiceOk(Registered(s, row, id, item), x)
  {
    if x != id { assert ServiceOk(s, x); }
    else { var steps := Registered(s, row, id, item).instances[row].steps; assert steps[|steps| - 1] ==
      Withdrawal(|s.registered|); }
    hide Structure;
  }

  /** What a registration adds keeps every row's stack and services in order. */
  lemma RegisteredStructure(s: Runtime, row: nat, id: string, item: nat)
    requires Structure(s) && IsActive(s, row) && id !in s.services
    ensures Structure(Registered(s, row, id, item))
  {
    var t := Registered(s, row, id, item);
    assert forall k: nat :: IsActive(t, k) <==> IsActive(s, k);
    forall x <- t.services ensures ServiceOk(t, x) { RegisteredService(s, row, id, item, x); }
    forall k: nat | k < |t.instances| ensures StackOk(t, k) { RegisteredStack(s, row, id, item, k); }
    hide ServiceOk, StackOk;
  }

  /** A registered service's slot alone may be out of date. */
  lemma RegisteredSlots(s: Runtime, row: nat, id: string, item: nat)
    requires AllSynced(s) && row < |s.instances| && (forall x <- s.slots :: SlotOwned(s, x))
    ensures var t := Registered(s, row, id, item);
      (forall x <- t.slots :: SlotOwned(t, x)) && (forall x <- t.slots :: x != id ==> Synced(t, x))
  {
    var t := Registered(s, row, id, item);
    forall x <- t.slots ensures SlotOwned(t, x) { assert SlotOwned(s, x); }
    forall x <- t.slots | x != id ensures Synced(t, x) { assert Synced(s, x); }
  }

  lemma ProvideSound(s: Runtime, row: nat, name: string, item: nat)
    requires Sound(s) && IsActive(s, row)
    ensures Sound(Provide(s, row, name, item))
  {
    var id := IdIn(s.instances[row], name);
    if id.Some? && id.value !in s.services {
      var t := Announce(s, row, name, id.value);
      AnnounceSound(s, row, name, id.value);
      assert IsActive(t, row);
      hide Core, Structure, SlotOwned, Announce, Refresh;
      RegisteredStructure(t, row, id.value, item);
      RegisteredSlots(t, row, id.value, item);
      CoreFrame(t, Registered(t, row, id.value, item));
      RefreshSound(Registered(t, row, id.value, item), id.value);
    }
  }

  // ── Withdrawing ─────────────────────────────────────────────────

  /** The state a withdrawal leaves before its slot is refreshed. */
  function Removed(s: Runtime, registration: nat): Runtime
    requires registration < |s.registered| && s.registered[registration].owner < |s.instances|
  {
    var it := s.registered[registration];
    var r := s.instances[it.owner];
    WithRow(s, it.owner, r.(provided := Filter(r.provided, it.id)))
      .(services := s.services - {it.id}, withdrawn := s.withdrawn + {registration})
  }

  lemma RemovedStack(s: Runtime, registration: nat, k: nat)
    requires Structure(s) && registration < |s.registered| && k < |s.instances|
    requires var id := s.registered[registration].id; id in s.services && s.services[id].registration == registration
    requires s.registered[registration].owner < |s.instances|
    ensures StackOk(Removed(s, registration), k)
  {
    var t, id := Removed(s, registration), s.registered[registration].id;
    assert StackOk(s, k);
    forall i | 0 <= i < |t.instances[k].steps| ensures StepOk(t, k, t.instances[k].steps[i]) {
      assert StepOk(s, k, s.instances[k].steps[i]);
    }
    hide Structure, StepOk;
  }

  lemma RemovedService(s: Runtime, registration: nat, x: string)
    requires Structure(s) && registration < |s.registered| && s.registered[registration].owner < |s.instances|
    requires x in Removed(s, registration).services
    requires s.registered[registration].id in s.services
    ensures ServiceOk(Removed(s, registration), x)
  {
    assert ServiceOk(s, x) && ServiceOk(s, s.registered[registration].id);
    hide Structure;
  }

  lemma RemovedRows(s: Runtime, registration: nat)
    requires RowsOk(s) && registration < |s.registered| && s.registered[registration].owner < |s.instances|
    ensures RowsOk(Removed(s, registration))
  {
    assert forall k: nat :: IsActive(Removed(s, registration), k) <==> IsActive(s, k);
  }

  lemma ServiceKnown(s: Runtime, id: string)
    requires Structure(s) && id in s.services
    ensures var it := s.services[id];
      it.registration < |s.registered| && s.registered[it.registration] == Registration(id, it.owner, it.item)
  {
    assert ServiceOk(s, id);
  }

  lemma RemovedProvided(s: Runtime, registration: nat)
    requires ProvidedOk(s) && registration < |s.registered|
    requires var it := s.registered[registration];
      it.id in s.services && s.services[it.id].owner == it.owner && it.owner < |s.instances|
    ensures ProvidedOk(Removed(s, registration))
  {}

  lemma RemovedStructure(s: Runtime, registration: nat)
    requires Structure(s) && registration < |s.registered| && s.registered[registration].owner < |s.instances|
    requires var id := s.registered[registration].id; id in s.services && s.services[id].registration == registration
    ensures Structure(Removed(s, registration))
  {
    var t := Removed(s, registration);
    ServiceKnown(s, s.registered[registration].id);
    hide ServiceOk, StackOk, IsolateOk, RowsOk, ProvidedOk;
    RemovedProvided(s, registration);
    RemovedRows(s, registration);
    forall x <- t.services ensures ServiceOk(t, x) { RemovedService(s, registration, x); }
    forall k: nat | k < |t.instances| ensures StackOk(t, k) { RemovedStack(s, registration, k); }
  }

  lemma RemovedSlots(s: Runtime, registration: nat)
    requires AllSynced(s) && (forall x <- s.slots :: SlotOwned(s, x))
    requires registration < |s.registered| && s.registered[registration].owner < |s.instances|
    ensures var t := Removed(s, registration);
      (forall x <- t.slots :: SlotOwned(t, x)) &&
        (forall x <- t.slots :: x != s.registered[registration].id ==> Synced(t, x))
  {
    var t := Removed(s, registration);
    forall x <- t.slots ensures SlotOwned(t, x) { assert SlotOwned(s, x); }
    forall x <- t.slots | x != s.registered[registration].id ensures Synced(t, x) { assert Synced(s, x); }
  }

  lemma WithdrawSound(s: Runtime, registration: nat)
    requires Sound(s)
    ensures Sound(Withdraw(s, registration))
  {
    hide Core, Structure, SlotOwned, Refresh;
    if Withdraw(s, registration) != s {
      RemovedStructure(s, registration);
      RemovedSlots(s, registration);
      CoreFrame(s, Removed(s, registration));
      RefreshSound(Removed(s, registration), s.registered[registration].id);
    }
  }

  // ── Loading ─────────────────────────────────────────────────────

  lemma {:induction false} ExportIdsOk(isolate: map<string, string>, names: seq<string>)
    requires ExportIds(isolate, names).Some?
    ensures forall id <- ExportIds(isolate, names).value :: IsSlotId(id)
    decreases |names|
  {
    if names != [] {
      var name := names[0];
      var scope := if name in isolate then Some(isolate[name]) else None;
      assert IsSlotId(ScopedId(name, scope).value);
      ExportIdsOk(isolate, names[1..]);
    }
  }

  /** The slots a load adds: empty ones, for ids that had none. */
  lemma {:induction false} AddSlotsOk(s: Runtime, ids: seq<string>, key: string, owner: nat)
    requires Core(s)
    requires (forall id <- ids ::
      IsSlotId(id) && (id in s.slots ==> s.slots[id] == Slot(key, owner, None, None, false)))
    ensures var slots := AddSlots(s.slots, ids, key, owner);
      && Core(s.(slots := slots))
      && (forall x :: x in slots <==> x in s.slots || x in ids)
      && (forall x <- slots ::
         if x in ids then slots[x] == Slot(key, owner, None, None, false) else slots[x] == s.slots[x])
    decreases |ids|
  {
    if ids != [] {
      var slot := Slot(key, owner, None, None, false);
      var t := s.(slots := s.slots[ids[0] := slot]);
      if ids[0] in s.slots { assert t.slots == s.slots; CoreFrame(s, t); } else { AddSlotOk(s, ids[0], slot); }
      hide Core, IsSlotId;
      AddSlotsOk(t, ids[1..], key, owner);
      assert s.(slots := AddSlots(s.slots, ids, key, owner)) == t.(slots := AddSlots(t.slots, ids[1..], key, owner));
    }
  }

  /** The state a load leaves before its slots are taken. */
  function Entered(s: Runtime, key: string, isolate: map<string, string>, ids: seq<string>): Runtime {
    s.(rows := s.rows[key := |s.instances|],
      instances := s.instances + [Row(key, isolate, ids, [], [], [], [], Active)])
  }

  lemma EnteredStructure(s: Runtime, key: string, isolate: map<string, string>, ids: seq<string>)
    requires Structure(s) && key !in s.rows && IsolateOk(isolate)
    ensures Structure(Entered(s, key, isolate, ids))
  {
    var t := Entered(s, key, isolate, ids);
    assert forall k: nat :: IsActive(t, k) <==> IsActive(s, k) || k == |s.instances|;
    forall x <- t.services ensures ServiceOk(t, x) { assert ServiceOk(s, x); }
    forall k: nat | k < |t.instances| ensures StackOk(t, k) {
      if k < |s.instances| {
        assert StackOk(s, k);
        forall i | 0 <= i < |t.instances[k].steps| ensures StepOk(t, k, t.instances[k].steps[i]) {
          assert StepOk(s, k, s.instances[k].steps[i]);
        }
      }
    }
    forall row: nat, id: string | row < |t.instances|
      ensures id in t.instances[row].provided <==> id in t.services && t.services[id].owner == row
    {
      if id in s.services { assert ServiceOk(s, id); }
    }
    hide ServiceOk, StackOk, IsolateOk;
  }

  lemma LoadSound(s: Runtime, key: string, isolate: map<string, string>, names: seq<string>)
    requires Sound(s)
    ensures Sound(Load(s, key, isolate, names))
  {
    var t := Load(s, key, isolate, names);
    if t != s {
      var ids := ExportIds(isolate, names).value;
      ExportIdsOk(isolate, names);
      AddSlotsOk(s, ids, key, |s.instances|);
      EnteredStructure(s, key, isolate, ids);
      StructureFrame(Entered(s, key, isolate, ids), t);
      CoreFrame(s.(slots := t.slots), t);
      LoadedSlots(s, key, isolate, ids, t);
      hide Core, Structure, SlotOwned, Synced;
    }
  }

  lemma LoadedSlots(s: Runtime, key: string, isolate: map<string, string>, ids: seq<string>, t: Runtime)
    requires (forall x <- s.slots :: SlotOwned(s, x)) && AllSynced(s) && Structure(s) && key !in s.rows
    requires t == Entered(s, key, isolate, ids).(slots := t.slots)
    requires forall x :: x in t.slots <==> x in s.slots || x in ids
    requires forall x <- t.slots ::
      if x in ids then t.slots[x] == Slot(key, |s.instances|, None, None, false) else t.slots[x] == s.slots[x]
    ensures (forall x <- t.slots :: SlotOwned(t, x)) && AllSynced(t)
  {
    forall x <- t.slots ensures SlotOwned(t, x) && Synced(t, x) {
      if x in s.slots && x !in ids { assert SlotOwned(s, x) && Synced(s, x); }
      else if x in t.services &&
        t.services[x].row == key { assert ServiceOk(s, x); NoOther(s, key, t.services[x].owner); }
    }
  }

  /** No active row has a key that is not loaded. */
  lemma NoOther(s: Runtime, key: string, row: nat)
    requires RowsOk(s) && key !in s.rows && row < |s.instances| && s.instances[row].key == key
    ensures !IsActive(s, row)
  {}

  // ── Unloading ───────────────────────────────────────────────────

  /** The services of `row` among `ids` hidden. */
  function HiddenServices(services: map<string, Service>, ids: seq<string>): (hidden: map<string, Service>)
    ensures hidden.Keys == services.Keys
    ensures forall id <- services :: hidden[id] == if id in ids then services[id].(unloading := true) else services[id]
  {
    map id | id in services :: if id in ids then services[id].(unloading := true) else services[id]
  }

  lemma HiddenMore(services: map<string, Service>, ids: seq<string>)
    requires ids != [] && ids[0] in services
    ensures HiddenServices(services[ids[0] := services[ids[0]].(unloading := true)], ids[1..]) ==
      HiddenServices(services, ids)
  {}

  lemma HideOne(s: Runtime, id: string)
    requires Core(s) && AllSynced(s) && id in s.services
    ensures var u := s.(services := s.services[id := s.services[id].(unloading := true)]);
      var v := Refresh(u, id);
      Core(v) && AllSynced(v) && SameButSlots(s, v) && v.services == u.services
  {
    var u := s.(services := s.services[id := s.services[id].(unloading := true)]);
    var v := Refresh(u, id);
    hide Core, Refresh;
    CoreFrame(s, u);
    RefreshOk(u, id);
    HiddenSynced(s, u, v, id);
  }

  lemma HiddenSynced(s: Runtime, u: Runtime, v: Runtime, id: string)
    requires AllSynced(s) && SameButSlot(u, v, id) && Synced(v, id) && u.slots == s.slots
    requires u.services.Keys == s.services.Keys && forall x <- s.services :: x != id ==> u.services[x] == s.services[x]
    ensures AllSynced(v)
  {
    forall x <- v.slots ensures Synced(v, x) { if x != id { assert Synced(s, x); } }
  }

  /** Hiding what a row provides changes those services, and the slots they were in. */
  lemma {:induction false} HideEffect(s: Runtime, ids: seq<string>, key: string)
    requires Core(s) && AllSynced(s) && (forall id <- ids :: id in s.services && s.services[id].row == key)
    ensures var t := Hide(s, ids, key);
      && Core(t) && AllSynced(t) && SameButSlots(s, t)
      && t.services == HiddenServices(s.services, ids)
    decreases |ids|
  {
    if ids == [] {
      assert HiddenServices(s.services, ids) == s.services;
    } else {
      hide Core, Refresh, AllSynced, SameButSlots, HiddenServices;
      HideOne(s, ids[0]);
      var v := Refresh(s.(services := s.services[ids[0] := s.services[ids[0]].(unloading := true)]), ids[0]);
      HideEffect(v, ids[1..], key);
      HiddenMore(s.services, ids);
      SameTwice(s, v, Hide(s, ids, key));
    }
  }

  lemma SameTwice(s: Runtime, t: Runtime, u: Runtime)
    requires SameButSlots(s, t) && SameButSlots(t, u)
    ensures SameButSlots(s, u)
  {}

  /** Only services, and the objects and handles in slots, differ. */
  ghost predicate SameButSlots(s: Runtime, t: Runtime) {
    && t.rows == s.rows && t.instances == s.instances && t.registered == s.registered && t.withdrawn == s.withdrawn
    && t.released == s.released && t.slots.Keys == s.slots.Keys && s.given <= t.given
    && (forall x <- s.slots :: t.slots[x] == s.slots[x].(item := t.slots[x].item, handle := t.slots[x].handle))
  }

  lemma NoHandleHere(s: Runtime, id: string, h: string)
    requires HandlesOk(s) && SlotHandle(s, id).None? && h in s.handles && s.handles[h].name == id
    ensures !s.handles[h].current && !s.handles[h].released
  {
    assert HandleOk(s, h);
  }

  lemma UnslottedHandle(s: Runtime, id: string, h: string)
    requires HandlesOk(s) && id in s.slots && s.slots[id].handle.None?
    requires var t := s.(slots := s.slots - {id}, handles := Gone(s.handles, id)); h in t.handles
    ensures HandleOk(s.(slots := s.slots - {id}, handles := Gone(s.handles, id)), h)
  {
    var t := s.(slots := s.slots - {id}, handles := Gone(s.handles, id));
    hide Issued, IsSlotId, SlotOk, GivenOk;
    assert HandleOk(s, h);
    SameGiven(s, t, h);
    if s.handles[h].name == id { NoHandleHere(s, id, h); }
    hide HandlesOk;
  }

  lemma UnslottedGiven(s: Runtime, id: string, g: Given)
    requires HandlesOk(s) && id in s.slots && s.slots[id].handle.None? && GivenOk(s, g)
    ensures GivenOk(s.(slots := s.slots - {id}, handles := Gone(s.handles, id)), g)
  {
    if g.handle in s.handles && s.handles[g.handle].name == id { NoHandleHere(s, id, g.handle); }
    hide HandlesOk, Issued, IsSlotId;
  }

  lemma UnslottedSlot(s: Runtime, id: string, x: string)
    requires HandlesOk(s) && id in s.slots && s.slots[id].handle.None? && x in s.slots && x != id
    ensures SlotOk(s.(slots := s.slots - {id}, handles := Gone(s.handles, id)), x)
  {
    assert SlotOk(s, x);
    if s.slots[x].handle.Some? { HandleNames(s, x); }
    hide HandlesOk, IsSlotId;
  }

  /** An empty slot's removal: no handle was current there. */
  lemma RemoveSlotOk(s: Runtime, id: string)
    requires Core(s) && id in s.slots && s.slots[id].handle.None?
    ensures Core(s.(slots := s.slots - {id}, handles := Gone(s.handles, id)))
  {
    var t := s.(slots := s.slots - {id}, handles := Gone(s.handles, id));
    assert forall x: string :: SlotHandle(t, x) == SlotHandle(s, x);
    forall x <- t.slots ensures SlotOk(t, x) { UnslottedSlot(s, id, x); }
    forall h <- t.handles ensures HandleOk(t, h) { UnslottedHandle(s, id, h); }
    forall i | 0 <= i < |t.given| ensures GivenOk(t, t.given[i]) { UnslottedGiven(s, id, s.given[i]); }
    forall h <- t.released ensures Issued(t, h) { SameGiven(s, t, h); }
    hide Issued, SlotOk, HandleOk, GivenOk, Gone;
  }

  lemma {:induction false} RemoveSlotsEffect(s: Runtime, ids: seq<string>, key: string)
    requires Core(s) && (forall x <- s.slots :: s.slots[x].row == key ==> s.slots[x].handle.None?)
    ensures var t := RemoveSlots(s, ids, key);
      && Core(t) && t == s.(slots := t.slots, handles := t.handles)
      && (forall x :: x in t.slots <==> x in s.slots && !(x in ids && s.slots[x].row == key))
      && (forall x <- t.slots :: t.slots[x] == s.slots[x])
    decreases |ids|
  {
    if ids != [] {
      if ids[0] in s.slots && s.slots[ids[0]].row == key {
        var u := s.(slots := s.slots - {ids[0]}, handles := Gone(s.handles, ids[0]));
        RemoveSlotOk(s, ids[0]);
        hide Core, Gone;
        RemoveSlotsEffect(u, ids[1..], key);
      } else {
        RemoveSlotsEffect(s, ids[1..], key);
      }
    }
  }

  /** The row marked as unloading, its services hidden. */
  function Marked(s: Runtime, row: nat): Runtime
    requires row < |s.instances|
  {
    var r := s.instances[row];
    WithRow(s, row, r.(announced := [], all := r.steps, phase := Unloading))
      .(rows := s.rows - {r.key}, services := HiddenServices(s.services, r.provided))
  }

  lemma MarkedStack(s: Runtime, row: nat, k: nat)
    requires Structure(s) && IsActive(s, row) && k < |s.instances|
    ensures StackOk(Marked(s, row), k)
  {
    var t := Marked(s, row);
    assert StackOk(s, k);
    forall i | 0 <= i < |t.instances[k].steps| ensures StepOk(t, k, t.instances[k].steps[i]) {
      assert StepOk(s, k, s.instances[k].steps[i]);
    }
    hide Structure, StepOk;
  }

  lemma MarkedService(s: Runtime, row: nat, x: string)
    requires Structure(s) && IsActive(s, row) && x in s.services
    ensures ServiceOk(Marked(s, row), x)
  {
    assert ServiceOk(s, x);
    hide RowsOk, StackOk;
  }

  lemma MarkedRows(s: Runtime, row: nat)
    requires RowsOk(s) && IsActive(s, row)
    ensures RowsOk(Marked(s, row))
  {
    assert forall k: nat :: IsActive(Marked(s, row), k) <==> IsActive(s, k) && k != row;
  }

  lemma MarkedStructure(s: Runtime, row: nat)
    requires Structure(s) && IsActive(s, row)
    ensures Structure(Marked(s, row))
  {
    var t := Marked(s, row);
    MarkedRows(s, row);
    forall x <- t.services ensures ServiceOk(t, x) { MarkedService(s, row, x); }
    forall k: nat | k < |t.instances| ensures StackOk(t, k) { MarkedStack(s, row, k); }
    hide ServiceOk, StackOk, IsolateOk, RowsOk;
  }

  /** A service of a key whose row unloads is hidden. */
  lemma AllHidden(s: Runtime, row: nat, x: string)
    requires Structure(s) && IsActive(s, row) && x in s.services && s.services[x].row == s.instances[row].key
    ensures HiddenServices(s.services, s.instances[row].provided)[x].unloading
  {
    assert ServiceOk(s, x);
    hide StackOk;
  }

  /** An unloading row's slots are empty before they go. */
  lemma SlotsEmptied(s: Runtime, t: Runtime, row: nat)
    requires Structure(s) && IsActive(s, row) && HandlesOk(t) && AllSynced(t)
    requires t.services == HiddenServices(s.services, s.instances[row].provided)
    ensures forall x <- t.slots :: t.slots[x].row == s.instances[row].key ==> t.slots[x].handle.None?
  {
    forall x <- t.slots | t.slots[x].row == s.instances[row].key ensures t.slots[x].handle.None? {
      assert Synced(t, x) && SlotOk(t, x);
      if x in s.services && s.services[x].row == s.instances[row].key { AllHidden(s, row, x); }
    }
    hide Structure;
  }

  lemma UnloadedOwned(s: Runtime, t: Runtime, row: nat)
    requires RowsOk(s) && IsActive(s, row) && t.instances == Marked(s, row).instances
    requires (forall x <- s.slots :: SlotOwned(s, x))
    requires forall x <- t.slots ::
      x in s.slots && t.slots[x].owner == s.slots[x].owner && t.slots[x].row == s.slots[x].row
    requires forall x <- t.slots ::
      !(x in s.instances[row].exports + s.instances[row].announced && s.slots[x].row == s.instances[row].key)
    ensures forall x <- t.slots :: SlotOwned(t, x)
  {
    forall x <- t.slots ensures SlotOwned(t, x) {
      assert SlotOwned(s, x);
      assert s.rows[s.slots[x].row] == s.slots[x].owner;
    }
  }

  lemma SyncedFewer(s: Runtime, t: Runtime)
    requires AllSynced(s) && t.services == s.services
    requires (forall x <- t.slots :: x in s.slots && t.slots[x] == s.slots[x])
    ensures AllSynced(t)
  {
    forall x <- t.slots ensures Synced(t, x) { assert Synced(s, x); }
  }

  lemma ProvidedNow(s: Runtime, row: nat)
    requires Structure(s) && row < |s.instances|
    ensures forall id <- s.instances[row].provided :: id in s.services && s.services[id].row == s.instances[row].key
  {
    forall id <- s.instances[row].provided ensures id in s.services && s.services[id].row == s.instances[row].key {
      assert ServiceOk(s, id);
    }
  }

  /** The state once a row's services are hidden. */
  lemma HiddenState(s: Runtime, row: nat)
    requires Sound(s) && IsActive(s, row)
    ensures var r := s.instances[row];
      var t := Hide(s.(rows := s.rows - {r.key}), r.provided, r.key);
      && Core(t) && AllSynced(t) && SameButSlots(s.(rows := s.rows - {r.key}), t)
      && t.services == HiddenServices(s.services, r.provided)
      && (forall x <- t.slots :: t.slots[x].row == r.key ==> t.slots[x].handle.None?)
  {
    var r, bare := s.instances[row], s.(rows := s.rows - {s.instances[row].key});
    ProvidedNow(s, row);
    CoreFrame(s, bare);
    SyncedFewer(s, bare);
    hide Core, Structure, AllSynced;
    HideEffect(bare, r.provided, r.key);
    CoreParts(Hide(bare, r.provided, r.key));
    SlotsEmptied(s, Hide(bare, r.provided, r.key), row);
  }

  lemma CoreParts(s: Runtime)
    requires Core(s)
    ensures HandlesOk(s) && MirrorOk(s)
  {}

  lemma KeyIsRow(s: Runtime, key: string)
    requires RowsOk(s) && key in s.rows
    ensures IsActive(s, s.rows[key]) && s.instances[s.rows[key]].key == key
  {}

  lemma UnloadSound(s: Runtime, key: string)
    requires Sound(s)
    ensures Sound(BeginUnload(s, key))
  {
    if key in s.rows {
      KeyIsRow(s, key);
      var row := s.rows[key];
      var r := s.instances[row];
      hide Core, Structure, AllSynced, SlotOwned, Hide, RemoveSlots, HiddenServices;
      HiddenState(s, row);
      var hidden := Hide(s.(rows := s.rows - {key}), r.provided, key);
      var marked := WithRow(hidden, row, hidden.instances[row].(announced := [], all := r.steps, phase := Unloading));
      CoreFrame(hidden, marked);
      RemoveSlotsEffect(marked, r.exports + r.announced, key);
      var t := BeginUnload(s, key);
      assert t == RemoveSlots(marked, r.exports + r.announced, key);
      MarkedStructure(s, row);
      StructureParts(s);
      StructureFrame(Marked(s, row), t);
      SyncedFewer(hidden, t);
      UnloadedOwned(s, t, row);
    }
  }

  lemma StructureParts(s: Runtime)
    requires Structure(s)
    ensures RowsOk(s)
  {}

  // ── Running the stack ───────────────────────────────────────────

  lemma PoppedStack(s: Runtime, row: nat, k: nat, r: Row)
    requires Structure(s) && row < |s.instances| && k < |s.instances|
    requires r == s.instances[row].(steps := r.steps) && r.steps <= s.instances[row].steps
    ensures StackOk(WithRow(s, row, r), k)
  {
    var t := WithRow(s, row, r);
    assert StackOk(s, k);
    forall i | 0 <= i < |t.instances[k].steps| ensures StepOk(t, k, t.instances[k].steps[i]) {
      assert StepOk(s, k, s.instances[k].steps[i]);
    }
    hide Structure, StepOk;
  }

  lemma PoppedService(s: Runtime, row: nat, r: Row, x: string)
    requires Structure(s) && row < |s.instances| && s.instances[row].steps != [] && x in s.services
    requires r == s.instances[row].(steps := s.instances[row].steps[..|s.instances[row].steps| - 1])
    requires var last := s.instances[row].steps[|s.instances[row].steps| - 1];
      last.Withdrawal? ==> last.registration in s.withdrawn
    ensures ServiceOk(WithRow(s, row, r), x)
  {
    assert ServiceOk(s, x);
    var steps := s.instances[row].steps;
    assert steps == r.steps + [steps[|steps| - 1]];
    hide Structure;
  }

  /** A stack's last step off it, when it is no withdrawal to come. */
  lemma PoppedStructure(s: Runtime, row: nat)
    requires Structure(s) && row < |s.instances| && s.instances[row].steps != []
    requires var last := s.instances[row].steps[|s.instances[row].steps| - 1];
      last.Withdrawal? ==> last.registration in s.withdrawn
    ensures Structure(WithRow(s, row,
      s.instances[row].(steps := s.instances[row].steps[..|s.instances[row].steps| - 1])))
  {
    var r := s.instances[row].(steps := s.instances[row].steps[..|s.instances[row].steps| - 1]);
    var t := WithRow(s, row, r);
    forall x <- t.services ensures ServiceOk(t, x) { PoppedService(s, row, r, x); }
    forall k: nat | k < |t.instances| ensures StackOk(t, k) { PoppedStack(s, row, k, r); }
    SameRows(s, t);
    hide ServiceOk, StackOk, IsolateOk, RowsOk;
  }

  lemma SameRows(s: Runtime, t: Runtime)
    requires RowsOk(s) && t.rows == s.rows && |t.instances| == |s.instances|
    requires forall k: nat :: k < |s.instances| ==>
      t.instances[k].phase.Active? == s.instances[k].phase.Active? && t.instances[k].key == s.instances[k].key
    ensures RowsOk(t)
  {
    assert forall k: nat :: IsActive(t, k) <==> IsActive(s, k);
  }

  lemma SlotsApart(s: Runtime, t: Runtime)
    requires (forall x <- s.slots :: SlotOwned(s, x)) && t.slots == s.slots && |t.instances| == |s.instances|
    requires forall k: nat ::
      k < |s.instances| && s.instances[k].phase.Active? ==> SameOwner(s.instances[k], t.instances[k])
    ensures forall x <- t.slots :: SlotOwned(t, x)
  {
    forall x <- t.slots ensures SlotOwned(t, x) { assert SlotOwned(s, x); }
  }

  predicate SameOwner(r: Row, u: Row) {
    u.phase == r.phase && u.key == r.key && u.exports == r.exports && u.announced == r.announced
  }

  /** The state with the last step of a stack off it. */
  function Popped(s: Runtime, row: nat): Runtime
    requires row < |s.instances| && s.instances[row].steps != []
  {
    WithRow(s, row, s.instances[row].(steps := s.instances[row].steps[..|s.instances[row].steps| - 1]))
  }

  lemma PoppedFrame(s: Runtime, row: nat)
    requires row < |s.instances| && s.instances[row].steps != []
    requires Core(s) && AllSynced(s) && (forall x <- s.slots :: SlotOwned(s, x))
    ensures var t := Popped(s, row); Core(t) && AllSynced(t) && (forall x <- t.slots :: SlotOwned(t, x))
  {
    hide Core, SlotOwned, AllSynced;
    CoreFrame(s, Popped(s, row));
    SlotsApart(s, Popped(s, row));
    SyncedFewer(s, Popped(s, row));
  }

  lemma LastStep(s: Runtime, row: nat)
    requires Structure(s) && row < |s.instances| && s.instances[row].steps != []
    ensures StepOk(s, row, s.instances[row].steps[|s.instances[row].steps| - 1])
  {
    assert StackOk(s, row);
  }

  lemma StepSound(s: Runtime, row: nat)
    requires Sound(s) && row < |s.instances| && s.instances[row].steps != []
    ensures Sound(RunStep(s, row))
  {
    var last := s.instances[row].steps[|s.instances[row].steps| - 1];
    LastStep(s, row);
    if last.Withdrawal? && last.registration !in s.withdrawn {
      WithdrawalRuns(s, row, last.registration);
    } else {
      hide Core, Structure, SlotOwned, AllSynced, StepOk, RunStep;
      NothingRuns(s, row);
      PoppedStructure(s, row);
      PoppedFrame(s, row);
    }
  }

  lemma NothingRuns(s: Runtime, row: nat)
    requires Structure(s) && row < |s.instances| && s.instances[row].steps != []
    requires var last := s.instances[row].steps[|s.instances[row].steps| - 1];
      last.Withdrawal? ==> last.registration in s.withdrawn
    ensures RunStep(s, row) == Popped(s, row)
  {
    hide Structure, Withdraw;
    var last := s.instances[row].steps[|s.instances[row].steps| - 1];
    if last.Withdrawal? { GoneIsLeft(s, Popped(s, row), last.registration); }
  }

  /** Withdrawing what was withdrawn changes nothing. */
  lemma GoneIsLeft(s: Runtime, t: Runtime, registration: nat)
    requires Structure(s) && registration in s.withdrawn && t.services == s.services && t.registered == s.registered
    ensures Withdraw(t, registration) == t
  {
    if registration < |s.registered| && s.registered[registration].id in s.services {
      assert ServiceOk(s, s.registered[registration].id);
    }
  }

  /** Taking the step off the stack and removing the registration, in either order. */
  lemma StepIsRemoval(s: Runtime, row: nat, registration: nat)
    requires row < |s.instances| && s.instances[row].steps != []
    requires s.instances[row].steps[|s.instances[row].steps| - 1] == Withdrawal(registration)
    requires StepOk(s, row, Withdrawal(registration)) && registration !in s.withdrawn
    ensures RunStep(s, row) == Refresh(Removed(Popped(s, row), registration), s.registered[registration].id)
    ensures Removed(Popped(s, row), registration) == Popped(Removed(s, registration), row)
  {
    hide Refresh;
  }

  lemma WithdrawalRuns(s: Runtime, row: nat, registration: nat)
    requires Sound(s) && row < |s.instances| && s.instances[row].steps != []
    requires s.instances[row].steps[|s.instances[row].steps| - 1] == Withdrawal(registration)
    requires StepOk(s, row, Withdrawal(registration)) && registration !in s.withdrawn
    ensures Sound(RunStep(s, row))
  {
    var id, removed := s.registered[registration].id, Removed(s, registration);
    StepIsRemoval(s, row, registration);
    hide Core, Structure, SlotOwned, Refresh, AllSynced, RunStep;
    RemovedStructure(s, registration);
    PoppedStructure(removed, row);
    PoppedFrame(s, row);
    RemovedSlots(Popped(s, row), registration);
    CoreFrame(s, Popped(removed, row));
    RefreshSound(Popped(removed, row), id);
  }

  // ── The rest ────────────────────────────────────────────────────

  lemma EffectSound(s: Runtime, row: nat, what: nat)
    requires Sound(s) && row < |s.instances| && s.instances[row].phase.Active?
    ensures Sound(WithRow(s, row, s.instances[row].(steps := s.instances[row].steps + [Cleanup(what)])))
  {
    var t := WithRow(s, row, s.instances[row].(steps := s.instances[row].steps + [Cleanup(what)]));
    CoreFrame(s, t);
    SlotsApart(s, t);
    SyncedFewer(s, t);
    SameRows(s, t);
    forall x <- t.services ensures ServiceOk(t, x) { assert ServiceOk(s, x); }
    forall k: nat | k < |t.instances| ensures StackOk(t, k) { EffectStack(s, row, what, k); }
    hide Core, ServiceOk, StackOk, IsolateOk, RowsOk, SlotOwned, AllSynced;
  }

  lemma EffectStack(s: Runtime, row: nat, what: nat, k: nat)
    requires Structure(s) && row < |s.instances| && s.instances[row].phase.Active? && k < |s.instances|
    ensures StackOk(WithRow(s, row, s.instances[row].(steps := s.instances[row].steps + [Cleanup(what)])), k)
  {
    var t := WithRow(s, row, s.instances[row].(steps := s.instances[row].steps + [Cleanup(what)]));
    assert StackOk(s, k);
    forall i | 0 <= i < |t.instances[k].steps| ensures StepOk(t, k, t.instances[k].steps[i]) {
      if i < |s.instances[k].steps| { assert StepOk(s, k, s.instances[k].steps[i]); }
    }
    hide Structure, StepOk;
  }

  lemma EndSound(s: Runtime, row: nat)
    requires Sound(s) && row < |s.instances| && s.instances[row].phase.Unloading? && s.instances[row].steps == []
    ensures Sound(WithRow(s, row, s.instances[row].(provided := [], phase := Unloaded)))
    ensures forall id <- s.services :: s.services[id].owner != row
  {
    var t := WithRow(s, row, s.instances[row].(provided := [], phase := Unloaded));
    forall id <- s.services ensures s.services[id].owner != row { assert ServiceOk(s, id); }
    CoreFrame(s, t);
    SlotsApart(s, t);
    SyncedFewer(s, t);
    SameRows(s, t);
    forall x <- t.services ensures ServiceOk(t, x) { assert ServiceOk(s, x); }
    forall k: nat | k < |t.instances| ensures StackOk(t, k) {
      assert StackOk(s, k);
      forall i | 0 <= i < |t.instances[k].steps| ensures StepOk(t, k, t.instances[k].steps[i]) {
        assert StepOk(s, k, s.instances[k].steps[i]);
      }
    }
    hide Core, ServiceOk, StackOk, IsolateOk, RowsOk, SlotOwned, AllSynced;
  }

  lemma ReleasedSlot(s: Runtime, h: string, x: string)
    requires HandlesOk(s) && x in s.slots
    ensures x in Release(s, h).slots && SlotOk(Release(s, h), x)
  {
    hide IsSlotId, Issued, HandleOf;
    assert SlotOk(s, x);
    if s.slots[x].handle.Some? { HandleNames(s, x); }
    hide HandlesOk;
  }

  lemma ReleasedHandle(s: Runtime, h: string, x: string)
    requires HandlesOk(s) && x in Release(s, h).handles
    ensures HandleOk(Release(s, h), x)
  {
    hide IsSlotId, Issued, HandleOf;
    assert HandleOk(s, x);
    SameGiven(s, Release(s, h), x);
    hide HandlesOk;
  }

  lemma ReleasedGiven(s: Runtime, h: string, g: Given)
    requires HandlesOk(s) && GivenOk(s, g) && h in s.handles
    ensures GivenOk(Release(s, h), g)
  {
    hide IsSlotId, Issued, HandleOf;
    HandleReleased(s, h);
    hide HandlesOk;
  }

  lemma HandleIssued(s: Runtime, h: string)
    requires HandlesOk(s) && h in s.handles
    ensures Issued(s, h)
  {
    assert HandleOk(s, h);
  }

  lemma ReleaseFrame(s: Runtime, h: string)
    requires h in s.handles
    ensures var t := Release(s, h);
      t == s.(handles := t.handles, released := s.released + {h})
  {}

  /** The same slots, and another table of handles that is right. */
  lemma CoreWith(s: Runtime, t: Runtime)
    requires MirrorOk(s) && HandlesOk(t)
    requires t.slots == s.slots && t.version == s.version && t.notices == s.notices
    ensures Core(t)
  {
    hide HandlesOk;
    assert forall id: string :: SlotHandle(t, id) == SlotHandle(s, id);
  }

  lemma ReleasedHandles(s: Runtime, h: string)
    requires HandlesOk(s) && h in s.handles
    ensures HandlesOk(Release(s, h))
  {
    hide Release, Issued, SlotOk, HandleOk, GivenOk;
    var t := Release(s, h);
    ReleaseFrame(s, h);
    forall x <- t.slots ensures SlotOk(t, x) { ReleasedSlot(s, h, x); }
    forall x <- t.handles ensures HandleOk(t, x) { ReleasedHandle(s, h, x); }
    forall i | 0 <= i < |t.given| ensures GivenOk(t, t.given[i]) { ReleasedGiven(s, h, s.given[i]); }
    forall x <- t.released ensures Issued(t, x) { ReleasedIssued(s, h, x); }
  }

  lemma ReleasedIssued(s: Runtime, h: string, x: string)
    requires HandlesOk(s) && h in s.handles && x in s.released + {h}
    ensures Issued(Release(s, h), x)
  {
    hide Issued;
    HandleIssued(s, h);
    SameGiven(s, Release(s, h), x);
  }

  lemma ReleaseOk(s: Runtime, h: string)
    requires Core(s)
    ensures Core(Release(s, h))
  {
    if h in s.handles {
      hide HandlesOk, MirrorOk, Release;
      ReleasedHandles(s, h);
      ReleaseFrame(s, h);
      CoreWith(s, Release(s, h));
    }
  }

  lemma {:induction false} RefreshNothing(s: Runtime, ids: seq<string>)
    requires AllSynced(s)
    ensures RefreshAll(s, ids) == s
    decreases |ids|
  {
    if ids != [] {
      assert ids[0] in s.slots ==> Synced(s, ids[0]);
      RefreshNothing(s, ids[1..]);
    }
  }

  lemma ReleaseSound(s: Runtime, h: string)
    requires Sound(s)
    ensures Sound(Release(s, h))
  {
    hide Core, Structure, SlotOwned, AllSynced;
    ReleaseOk(s, h);
    StructureFrame(s, Release(s, h));
    SyncedFewer(s, Release(s, h));
    SlotsApart(s, Release(s, h));
  }

  /** Everything that happens to a runtime keeps the invariant. */
  lemma PerformSound(s: Runtime, act: Act)
    requires Sound(s)
    ensures Sound(Perform(s, act))
  {
    hide Sound, Provide, Load, Withdraw, BeginUnload, RunStep, Release, RefreshAll;
    match act
    case Loads(key, isolate, names) => LoadSound(s, key, isolate, names);
    case Provides(row, name, item) => if IsActive(s, row) { ProvideSound(s, row, name, item); }
    case Effects(row, what) => if IsActive(s, row) { EffectSound(s, row, what); }
    case Withdraws(registration) => WithdrawSound(s, registration);
    case Applied(row) => if row < |s.instances| { SyncedNow(s); RefreshNothing(s, s.instances[row].exports); }
    case Unloads(key) => UnloadSound(s, key);
    case Steps(row) => if row < |s.instances| && s.instances[row].steps != [] { StepSound(s, row); }
    case Ends(row) =>
      if row < |s.instances| && s.instances[row].phase.Unloading? && s.instances[row].steps == [] { EndSound(s, row); }
    case Releases(handle) => ReleaseSound(s, handle);
  }

  lemma SyncedNow(s: Runtime)
    requires Sound(s)
    ensures AllSynced(s)
  {}

  lemma {:induction false} PlaySound(acts: seq<Act>)
    ensures Sound(Play(acts))
    decreases |acts|
  {
    if acts != [] {
      PlaySound(acts[..|acts| - 1]);
      PerformSound(Play(acts[..|acts| - 1]), acts[|acts| - 1]);
    }
  }
}
