/** What a runtime promises of every run of loads, provides, withdrawals, unloads and releases. */
module RegistryRuns {
  import opened Options
  import opened Registry
  import opened RegistryHandles
  import opened RegistrySound

  /** No handle is ever given to two objects. */
  lemma HandlesNeverReused(acts: seq<Act>)
    ensures var given := Play(acts).given;
      forall i, j :: 0 <= i < j < |given| ==> given[i].handle != given[j].handle
  {
    PlaySound(acts);
  }

  /** At most one handle of an id is current, and it is its slot's. A handle given is kept exactly
      while it is current or not released, and then it names the object it was given to. */
  lemma CurrentIsTheSlots(acts: seq<Act>)
    ensures var s := Play(acts);
      && (forall h <- s.handles :: s.handles[h].current <==> SlotHandle(s, s.handles[h].name) == Some(h))
      && (forall g <- s.given :: g.handle in s.handles <==>
         SlotHandle(s, g.id) == Some(g.handle) || g.handle !in s.released)
      && (forall g <- s.given :: g.handle in s.handles ==>
         s.handles[g.handle].name == g.id && s.handles[g.handle].item == g.item)
  {
    PlaySound(acts);
    var s := Play(acts);
    forall h <- s.handles ensures s.handles[h].current <==> SlotHandle(s, s.handles[h].name) == Some(h) {
      HandleReleased(s, h);
    }
    forall g <- s.given ensures GivenOk(s, g) {}
  }

  /** Applied in the order of their versions, which rise by one, the notices give each slot's
      handle, and none where there is no slot. */
  lemma MirrorIsTheSlots(acts: seq<Act>)
    ensures var s := Play(acts);
      && (forall i :: 0 <= i < |s.notices| ==> s.notices[i].version == i + 1)
      && (forall id: string :: Mirror(s.notices, id) == SlotHandle(s, id))
      && (forall id <- s.slots :: s.slots[id].handle.Some? <==> Current(s, id).Some?)
  {
    PlaySound(acts);
    var s := Play(acts);
    forall id <- s.slots ensures s.slots[id].handle.Some? <==> Current(s, id).Some? {
      assert SlotOk(s, id) && Synced(s, id);
    }
  }

  /** Once a row unloads the host holds nothing of what it exported or announced. */
  lemma UnloadedIsNull(acts: seq<Act>, key: string)
    requires key in Play(acts).rows
    ensures var s, t := Play(acts), Play(acts + [Unloads(key)]);
      forall id <- s.slots :: s.slots[id].row == key ==> id !in t.slots && Mirror(t.notices, id).None?
  {
    var s, t := Play(acts), Play(acts + [Unloads(key)]);
    assert (acts + [Unloads(key)])[..|acts|] == acts;
    assert t == BeginUnload(s, key);
    hide Sound, BeginUnload, Play, Perform;
    PlaySound(acts);
    SlotsGone(s, key);
    MirrorIsTheSlots(acts + [Unloads(key)]);
  }

  lemma SlotsGone(s: Runtime, key: string)
    requires Sound(s) && key in s.rows
    ensures forall id <- s.slots :: s.slots[id].row == key ==> id !in BeginUnload(s, key).slots
  {
    UnloadSound(s, key);
    var t := BeginUnload(s, key);
    UnloadedRows(s, key);
    hide Sound, BeginUnload;
    forall id <- s.slots | s.slots[id].row == key ensures id !in t.slots {
      if id in t.slots { SlotIsLoaded(t, id); }
    }
  }

  /** A slot's row is loaded. */
  lemma SlotIsLoaded(s: Runtime, id: string)
    requires Sound(s) && id in s.slots
    ensures s.slots[id].row in s.rows
  {
    assert SlotOwned(s, id);
  }

  /** Its slots keep their rows, and the row's key is not loaded. */
  lemma UnloadedRows(s: Runtime, key: string)
    requires Sound(s) && key in s.rows
    ensures var t := BeginUnload(s, key);
      key !in t.rows && forall id <- t.slots :: id in s.slots && t.slots[id].row == s.slots[id].row
  {
    KeyIsRow(s, key);
    var row := s.rows[key];
    var r := s.instances[row];
    hide Core, Structure, AllSynced, SlotOwned, Hide, RemoveSlots, HiddenServices;
    HiddenState(s, row);
    var hidden := Hide(s.(rows := s.rows - {key}), r.provided, key);
    var marked := WithRow(hidden, row, hidden.instances[row].(announced := [], all := r.steps, phase := Unloading));
    CoreFrame(hidden, marked);
    RemoveSlotsEffect(marked, r.exports + r.announced, key);
  }

  // ── The order of an unload ──────────────────────────────────────

  /** The service of registration `r` of a row's, provided by the first `k` of its steps. */
  ghost predicate ProvidedBefore(s: Runtime, row: nat, k: nat, id: string, r: nat)
    requires row < |s.instances| && k <= |s.instances[row].all|
  {
    && Withdrawal(r) in s.instances[row].all[..k] && r !in s.withdrawn
    && r < |s.registered| && s.registered[r].id == id
  }

  /** While a row unloads, with the first `k` of its steps still to run: its own row sees exactly
      the services registered by these and not withdrawn, and no other row sees any of them. */
  lemma UnloadOrder(acts: seq<Act>, row: nat)
    requires var s := Play(acts); row < |s.instances| && s.instances[row].phase.Unloading?
    ensures var s := Play(acts);
      var r, k := s.instances[row], |s.instances[row].steps|;
      && k <= |r.all| && r.steps == r.all[..k]
      && (forall id: string, g: nat :: ProvidedBefore(s, row, k, id, g) ==>
          id in s.services && s.services[id].owner == row && Find(s, id, r.key) == Some(s.registered[g].item))
      && (forall id <- s.services :: s.services[id].owner == row ==>
          ProvidedBefore(s, row, k, id, s.services[id].registration)
          && forall reader: string :: reader != r.key ==> Find(s, id, reader).None?)
  {
    PlaySound(acts);
    var s := Play(acts);
    var r, k := s.instances[row], |s.instances[row].steps|;
    assert StackOk(s, row);
    assert r.steps == r.all[..k];
    forall id: string, g: nat | ProvidedBefore(s, row, k, id, g)
      ensures id in s.services && s.services[id].owner == row && Find(s, id, r.key) == Some(s.registered[g].item)
    {
      StepOfRow(s, row, g);
    }
    forall id <- s.services | s.services[id].owner == row
      ensures ProvidedBefore(s, row, k, id, s.services[id].registration)
      ensures forall reader: string :: reader != r.key ==> Find(s, id, reader).None?
    {
      assert ServiceOk(s, id);
    }
  }

  lemma StepOfRow(s: Runtime, row: nat, g: nat)
    requires Structure(s) && row < |s.instances| && Withdrawal(g) in s.instances[row].steps && g !in s.withdrawn
    ensures g < |s.registered| && var id := s.registered[g].id;
      id in s.services && s.services[id].registration == g && s.services[id].owner == row
      && s.services[id].row == s.instances[row].key && s.services[id].item == s.registered[g].item
  {
    assert StackOk(s, row);
    var i :| 0 <= i < |s.instances[row].steps| && s.instances[row].steps[i] == Withdrawal(g);
    assert StepOk(s, row, s.instances[row].steps[i]);
    assert ServiceOk(s, s.registered[g].id);
  }

  /** A service is seen while its row is active, and then under its row's key alone: also by
      another row that took the key while the first still unloads. */
  lemma SeenExactly(acts: seq<Act>, id: string, reader: string)
    requires id in Play(acts).services
    ensures Play(acts).services[id].owner < |Play(acts).instances|
    ensures var s := Play(acts);
      Find(s, id, reader).Some? <==>
        IsActive(s, s.services[id].owner) || reader == s.instances[s.services[id].owner].key
  {
    PlaySound(acts);
    assert ServiceOk(Play(acts), id);
  }

  lemma PlayMore(acts: seq<Act>, act: Act)
    ensures Play(acts + [act]) == Perform(Play(acts), act)
  {
    assert (acts + [act])[..|acts|] == acts;
  }

  /** A row loaded, that provides one service: `#` keeps it from having a slot. */
  function Providing(): Runtime {
    Fresh().(rows := map["k" := 0], instances := [Row("k", map[], [], [], ["#"], [Withdrawal(0)], [], Active)],
             services := map["#" := Service(0, "k", 0, 7, false)], registered := [Registration("#", 0, 7)])
  }

  lemma ProvidingIs()
    ensures Play([Loads("k", map[], []), Provides(0, "#", 7)]) == Providing()
  {
    var none: map<string, string> := map[];
    var loaded := Fresh().(rows := map["k" := 0], instances := [Row("k", none, [], [], [], [], [], Active)]);
    assert Load(Fresh(), "k", none, []) == loaded;
    assert [] + [Loads("k", none, [])] == [Loads("k", none, [])];
    PlayMore([], Loads("k", none, []));
    assert [Loads("k", none, [])] + [Provides(0, "#", 7)] == [Loads("k", none, []), Provides(0, "#", 7)];
    PlayMore([Loads("k", none, [])], Provides(0, "#", 7));
    hide Play;
    assert IdIn(loaded.instances[0], "#") == Some("#");
    assert Announce(loaded, 0, "#", "#") == loaded;
    var r := Registered(loaded, 0, "#", 7);
    assert r.instances[0] == Providing().instances[0] && r.instances == Providing().instances;
    assert r.services == Providing().services && r.registered == Providing().registered;
    assert Provide(loaded, 0, "#", 7) == r;
  }

  /** A row that takes the key of one still unloading sees what that one provides; no other does. */
  lemma SeenUnderTheKey()
    ensures var s := Play([Loads("k", map[], []), Provides(0, "#", 7), Unloads("k"), Loads("k", map[], [])]);
      && "k" in s.rows && s.rows["k"] == 1 && |s.instances| == 2 && s.instances[0].phase.Unloading?
      && "#" in s.services && s.services["#"].owner == 0 && Find(s, "#", "k") == Some(7) &&
         Find(s, "#", "other") == None
  {
    var none: map<string, string> := map[];
    var two := [Loads("k", none, []), Provides(0, "#", 7)];
    ProvidingIs();
    PlayMore(two, Unloads("k"));
    PlayMore(two + [Unloads("k")], Loads("k", none, []));
    assert two + [Unloads("k")] + [Loads("k", none, [])] ==
      [Loads("k", none, []), Provides(0, "#", 7), Unloads("k"), Loads("k", none, [])];
    hide Play;
    HidesOne();
  }

  lemma HidesOne()
    ensures var s := BeginUnload(Providing(), "k");
      && s.rows == map[] && |s.instances| == 1 && s.instances[0].phase.Unloading? && s.instances[0].key == "k"
      && s.services == map["#" := Service(0, "k", 0, 7, true)] && s.slots == map[]
  {
    var bare := Providing().(rows := map[]);
    assert Providing().rows - {"k"} == map[];
    var hidden := bare.(services := map["#" := Service(0, "k", 0, 7, true)]);
    assert ["#"][1..] == [];
    assert Hide(bare, ["#"], "k") == Hide(hidden, [], "k") == hidden;
  }

  /** When a row's unload ended no registration of it remains. */
  lemma NothingRemains(acts: seq<Act>, row: nat)
    requires var s := Play(acts); row < |s.instances| && s.instances[row].phase.Unloaded?
    ensures var s := Play(acts); forall id <- s.services :: s.services[id].owner != row
  {
    PlaySound(acts);
    var s := Play(acts);
    assert StackOk(s, row);
    forall id <- s.services ensures s.services[id].owner != row { assert ServiceOk(s, id); }
  }

  /** An unload's steps run from the last: each step run is the last of those not yet run. */
  lemma StepsRunInReverse(acts: seq<Act>, row: nat)
    requires var s := Play(acts);
      row < |s.instances| && s.instances[row].phase.Unloading? && s.instances[row].steps != []
    ensures |Play(acts).instances[row].steps| <= |Play(acts).instances[row].all|
    ensures row < |Play(acts + [Steps(row)]).instances|
    ensures var s, t := Play(acts), Play(acts + [Steps(row)]);
      && t.instances[row].steps == s.instances[row].all[..|s.instances[row].steps| - 1]
      && var last := s.instances[row].steps[|s.instances[row].steps| - 1];
         last.Withdrawal? ==> last.registration in t.withdrawn
  {
    hide *;
    var s := Play(acts);
    PlayMore(acts, Steps(row));
    StepRuns(s, row);
    PlaySound(acts);
    SoundParts(s);
    StackUnloads(s, row);
    StepTaken(s, row);
  }

  lemma StepRuns(s: Runtime, row: nat)
    requires row < |s.instances| && s.instances[row].phase.Unloading? && s.instances[row].steps != []
    ensures Perform(s, Steps(row)) == RunStep(s, row)
  {
    hide RunStep;
  }

  lemma StackUnloads(s: Runtime, row: nat)
    requires Structure(s) && row < |s.instances| && s.instances[row].phase.Unloading?
    ensures s.instances[row].steps <= s.instances[row].all
  {
    assert StackOk(s, row);
  }

  lemma RemovalTaken(s: Runtime, row: nat, registration: nat)
    requires row < |s.instances| && s.instances[row].steps != []
    requires s.instances[row].steps[|s.instances[row].steps| - 1] == Withdrawal(registration)
    requires StepOk(s, row, Withdrawal(registration)) && registration !in s.withdrawn
    ensures var t, steps := RunStep(s, row), s.instances[row].steps;
      row < |t.instances| && t.instances[row].steps == steps[..|steps| - 1] && registration in t.withdrawn
  {
    StepIsRemoval(s, row, registration);
    hide Refresh, RunStep, Synced;
    RefreshFrame(Removed(Popped(s, row), registration), s.registered[registration].id);
  }

  lemma StepTaken(s: Runtime, row: nat)
    requires Structure(s) && row < |s.instances| && s.instances[row].steps != []
    ensures row < |RunStep(s, row).instances|
    ensures var t, steps := RunStep(s, row), s.instances[row].steps;
      && t.instances[row].steps == steps[..|steps| - 1]
      && (steps[|steps| - 1].Withdrawal? ==> steps[|steps| - 1].registration in t.withdrawn)
  {
    var last := s.instances[row].steps[|s.instances[row].steps| - 1];
    LastStep(s, row);
    hide Structure, Refresh, RunStep, Synced;
    if last.Withdrawal? && last.registration !in s.withdrawn {
      RemovalTaken(s, row, last.registration);
    } else {
      NothingRuns(s, row);
    }
  }

  // ── Withdrawing again ───────────────────────────────────────────

  /** A withdrawal, called however often, removes its own registration and no other. */
  lemma WithdrawsItsOwn(acts: seq<Act>, registration: nat)
    ensures var s, t := Play(acts), Withdraw(Play(acts), registration);
      && Withdraw(t, registration) == t
      && (forall id <- s.services :: s.services[id].registration != registration ==>
         id in t.services && t.services[id] == s.services[id])
      && (forall id <- t.services ::
         t.services[id].registration != registration && id in s.services && t.services[id] == s.services[id])
  {
    PlaySound(acts);
    hide *;
    var s := Play(acts);
    var t := Withdraw(s, registration);
    WithdrawSound(s, registration);
    SoundParts(s);
    SoundParts(t);
    WithdrawnServices(s, registration);
    if t != s { GoneIsLeft(t, t, registration); }
  }

  /** What a withdrawal takes: the service of its own registration, and no other's. */
  lemma WithdrawnServices(s: Runtime, registration: nat)
    requires Structure(s)
    ensures var t := Withdraw(s, registration);
      && (forall id <- s.services :: s.services[id].registration != registration ==>
         id in t.services && t.services[id] == s.services[id])
      && (forall id <- t.services ::
         t.services[id].registration != registration && id in s.services && t.services[id] == s.services[id])
      && (t != s ==> registration in t.withdrawn)
  {
    forall id <- s.services
      ensures var it := s.services[id];
        && it.registration < |s.registered| && s.registered[it.registration] == Registration(id, it.owner, it.item)
        && it.owner < |s.instances|
    {
      assert ServiceOk(s, id);
    }
    hide Structure, Refresh, Synced;
    if registration < |s.registered| && s.registered[registration].owner < |s.instances| {
      RefreshFrame(Removed(s, registration), s.registered[registration].id);
    }
  }

  lemma SoundParts(s: Runtime)
    requires Sound(s)
    ensures Core(s) && Structure(s)
  {}
}
