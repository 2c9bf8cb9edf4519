/** The runtime as the object it is: its tables change in place, and each method is proved to do
    what `Registry` says of that step. */
module RuntimeClass {
  import opened Options
  import Registry
  import opened RegistryOutcomes

  class Runtime {
    var rows: map<string, nat>
    var instances: seq<Registry.Row>
    var services: map<string, Registry.Service>
    var slots: map<string, Registry.Slot>
    var handles: map<string, Registry.Handle>
    var generations: map<string, nat>
    var version: nat
    var notices: seq<Registry.Notice>
    var registered: seq<Registry.Registration>
    ghost var withdrawn: set<nat>
    ghost var given: seq<Registry.Given>
    ghost var released: set<string>

    ghost function State(): Registry.Runtime
      reads this
    {
      Registry.Runtime(rows, instances, services, slots, handles, generations, version, notices, registered, withdrawn,
        given, released)
    }

    constructor ()
      ensures State() == Registry.Fresh()
    {
      rows, instances, services, slots, handles, generations := map[], [], map[], map[], map[], map[];
      version, notices, registered, withdrawn, given, released := 0, [], [], {}, [], {};
    }

    /** Report the object now in a slot, under a new handle. */
    method Refresh(id: string)
      modifies this`slots, this`handles, this`generations, this`version, this`notices, this`given
      ensures State() == Registry.Refresh(old(State()), id)
    {
      hide Registry.Change;
      if id !in slots { return; }
      var slot := slots[id];
      var current := None;
      if id in services && services[id].row == slot.row && !services[id].unloading {
        current := Some(services[id].item);
      }
      if current == slot.item { return; }
      Vacate(id);
      if current.Some? { Fill(id, current.value); }
      ChangeIs(old(State()), id, current);
      version := version + 1;
      notices := notices + [Registry.Notice(id, slots[id].handle, version)];
    }

    method Vacate(id: string)
      requires id in slots
      modifies this`slots, this`handles
      ensures State() == Registry.Vacate(old(State()), id) && id in slots
    {
      if slots[id].handle.Some? { Retire(slots[id].handle.value); }
      slots := slots[id := slots[id].(item := None, handle := None)];
    }

    method Fill(id: string, item: nat)
      requires id in slots
      modifies this`slots, this`handles, this`generations, this`given
      ensures State() == Registry.Fill(old(State()), id, item) && id in slots
    {
      var generation := (if id in generations then generations[id] else 0) + 1;
      generations := generations[id := generation];
      var handle := Registry.HandleOf(id, generation);
      slots := slots[id := slots[id].(item := Some(item), handle := Some(handle))];
      handles := handles[handle := Registry.Handle(id, item, true, false, false)];
      given := given + [Registry.Given(handle, id, generation, item)];
    }

    method Retire(handle: string)
      modifies this`handles
      ensures handles == Registry.Retire(old(handles), handle)
    {
      if handle !in handles { return; }
      var entry := handles[handle].(current := false);
      handles := if entry.released then handles - {handle} else handles[handle := entry];
    }

    /** Every handle on a slot's objects says that the service is gone. */
    method Gone(id: string)
      modifies this`handles
      ensures handles == Registry.Gone(old(handles), id)
    {
      var left := handles.Keys;
      while left != {}
        invariant left <= handles.Keys <= old(handles).Keys
        invariant forall h <- old(handles) :: h in left ==> h in handles && handles[h] == old(handles)[h]
        invariant forall h <- old(handles) :: h !in left ==> (h in handles <==> h in Registry.Gone(old(handles), id))
        invariant forall h <- handles :: h !in left ==> handles[h] == Registry.Gone(old(handles), id)[h]
        decreases left
      {
        var handle :| handle in left;
        left := left - {handle};
        if handles[handle].name == id {
          var entry := handles[handle].(current := false, gone := true);
          handles := if entry.released then handles - {handle} else handles[handle := entry];
        }
      }
    }

    /** Provide an object as `name`; false when the name is provided already, or cannot be one. */
    method Provide(row: nat, name: string, item: nat) returns (ok: bool)
      requires row < |instances|
      modifies this
      ensures State() == Registry.Provide(old(State()), row, name, item)
      ensures var id := Registry.IdIn(old(instances)[row], name); ok <==> id.Some? && id.value !in old(services)
      ensures |registered| == |old(registered)| + if ok then 1 else 0
    {
      hide Registry.Refresh, Registry.IdIn;
      var r := instances[row];
      var id := Registry.IdIn(r, name);
      if id.None? || id.value in services { return false; }
      if id.value !in slots && '#' !in name {
        slots := slots[id.value := Registry.Slot(r.key, row, None, None, true)];
        r := r.(announced := r.announced + [id.value]);
      }
      ghost var announced := instances[row := r];
      services := services[id.value := Registry.Service(|registered|, r.key, row, item, false)];
      instances := instances[row := r.(provided := r.provided + [id.value],
        steps := r.steps + [Registry.Withdrawal(|registered|)])];
      assert instances == announced[row := instances[row]] && announced == old(instances)[row := r];
      assert Registry.Announce(old(State()), row, name, id.value).instances == announced;
      registered := registered + [Registry.Registration(id.value, row, item)];
      Refresh(id.value);
      ok := true;
    }

    /** Withdraw a registration; nothing once it is gone, or its name is provided again. */
    method Withdraw(registration: nat)
      modifies this
      ensures State() == Registry.Withdraw(old(State()), registration)
    {
      hide Registry.Refresh;
      if registration >= |registered| { return; }
      var it := registered[registration];
      if it.id !in services || services[it.id].registration != registration || it.owner >= |instances| { return; }
      var r := instances[it.owner];
      services := services - {it.id};
      instances := instances[it.owner := r.(provided := Registry.Filter(r.provided, it.id))];
      withdrawn := withdrawn + {registration};
      Refresh(it.id);
    }

    /** The first part of an unload: what the row provides is hidden, and its slots go. */
    method BeginUnload(key: string)
      modifies this
      ensures State() == Registry.BeginUnload(old(State()), key)
    {
      if key !in rows || rows[key] >= |instances| { return; }
      var row := rows[key];
      var r := instances[row];
      rows := rows - {key};
      HideAll(r.provided, key);
      if row >= |instances| { return; }
      instances := instances[row := instances[row].(announced := [], all := r.steps, phase := Registry.Unloading)];
      RemoveAll(r.exports + r.announced, key);
    }

    method HideAll(ids: seq<string>, key: string)
      modifies this
      ensures State() == Registry.Hide(old(State()), ids, key)
    {
      hide Registry.Refresh;
      for i := 0 to |ids|
        invariant Registry.Hide(State(), ids[i..], key) == Registry.Hide(old(State()), ids, key)
      {
        var id := ids[i];
        assert ids[i..][1..] == ids[i + 1..];
        if id in services && services[id].row == key {
          services := services[id := services[id].(unloading := true)];
          Refresh(id);
        }
      }
    }

    method RemoveAll(ids: seq<string>, key: string)
      modifies this`slots, this`handles
      ensures State() == Registry.RemoveSlots(old(State()), ids, key)
    {
      hide Registry.Gone;
      for i := 0 to |ids|
        invariant Registry.RemoveSlots(State(), ids[i..], key) == Registry.RemoveSlots(old(State()), ids, key)
      {
        var id := ids[i];
        assert ids[i..][1..] == ids[i + 1..];
        if id in slots && slots[id].row == key {
          slots := slots - {id};
          Gone(id);
        }
      }
    }

    /** Run the last step of an unload stack. */
    method RunStep(row: nat)
      requires row < |instances| && instances[row].steps != []
      modifies this
      ensures State() == Registry.RunStep(old(State()), row)
    {
      hide Registry.Withdraw;
      var steps := instances[row].steps;
      var step := steps[|steps| - 1];
      instances := instances[row := instances[row].(steps := steps[..|steps| - 1])];
      if step.Withdrawal? { Withdraw(step.registration); }
    }

    /** The host lets go of a handle. */
    method Release(handle: string)
      modifies this`handles, this`released
      ensures State() == Registry.Release(old(State()), handle)
    {
      if handle !in handles { return; }
      released := released + {handle};
      handles := if handles[handle].current then handles[handle := handles[handle].(released := true)]
        else handles - {handle};
    }

    /** The object a call to a handle reaches, if any. */
    method Dispatch(handle: string) returns (reached: Registry.Reached)
      ensures reached == Registry.Dispatch(State(), handle)
    {
      if handle !in handles { return Registry.Unknown; }
      var entry := handles[handle];
      if entry.gone { return Registry.Unavailable; }
      return Registry.Served(entry.item);
    }

    /** Load a row: its exports take their slots; false when a name cannot, or a slot is taken. */
    method Load(key: string, isolate: map<string, string>, names: seq<string>) returns (ok: bool)
      modifies this
      ensures State() == Registry.Load(old(State()), key, isolate, names)
      ensures ok <==> State() != old(State())
      ensures ok <==> key in rows && key !in old(rows)
      ensures ok <==> CanLoad(old(State()), key, isolate, names)
    {
      hide CanLoad;
      LoadsExactly(State(), key, isolate, names);
      if key in rows || !Registry.IsolateOk(isolate) { return false; }
      var ids := Registry.ExportIds(isolate, names);
      if ids.None? { return false; }
      for i := 0 to |ids.value|
        invariant State() == old(State())
        invariant forall k :: 0 <= k < i ==> ids.value[k] !in slots
      {
        if ids.value[i] in slots { return false; }
      }
      var row := |instances|;
      rows := rows[key := row];
      instances := instances + [Registry.Row(key, isolate, ids.value, [], [], [], [], Registry.Active)];
      TakeSlots(ids.value, key, row);
      ok := true;
    }

    method TakeSlots(ids: seq<string>, key: string, owner: nat)
      modifies this`slots
      ensures slots == Registry.AddSlots(old(slots), ids, key, owner)
    {
      for i := 0 to |ids|
        invariant Registry.AddSlots(slots, ids[i..], key, owner) == Registry.AddSlots(old(slots), ids, key, owner)
      {
        assert ids[i..][1..] == ids[i + 1..];
        slots := slots[ids[i] := Registry.Slot(key, owner, None, None, false)];
      }
    }
  }

  lemma ChangeIs(s: Registry.Runtime, id: string, now: Option<nat>)
    requires id in s.slots
    ensures Registry.Change(s, id, now) ==
      if now.None? then Registry.Vacate(s, id) else Registry.Fill(Registry.Vacate(s, id), id, now.value)
  {}
}
