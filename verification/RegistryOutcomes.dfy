/** What a runtime's acts come to, told by what was done: which loads and provides succeed, which
    slots there are, what an unload has to run, and which handles were released. */
module RegistryOutcomes {
  import opened Options
  import opened Registry
  import opened RegistryHandles
  import opened RegistrySound
  import RegistryRuns

  // ── Names ───────────────────────────────────────────────────────

  /** The id of a name where a row has it: alone, or under the label the row gave it. */
  function IdText(isolate: map<string, string>, name: string): string {
    if name in isolate then name + [NUL] + isolate[name] else name
  }

  predicate IsLabel(scope: string) {
    scope != "" && NUL !in scope
  }

  predicate LabelsOk(isolate: map<string, string>) {
    forall name <- isolate :: NUL !in name && IsLabel(isolate[name])
  }

  lemma IsolatesExactly(isolate: map<string, string>)
    ensures IsolateOk(isolate) <==> LabelsOk(isolate)
  {}

  lemma IdExactly(isolate: map<string, string>, name: string)
    requires LabelsOk(isolate)
    ensures ScopedId(name, if name in isolate then Some(isolate[name]) else None) ==
      if NUL in name then None else Some(IdText(isolate, name))
  {}

  predicate IsExport(name: string) {
    '#' !in name && NUL !in name
  }

  lemma {:induction false} ExportsExactly(isolate: map<string, string>, names: seq<string>)
    requires LabelsOk(isolate)
    ensures ExportIds(isolate, names).Some? <==> forall i :: 0 <= i < |names| ==> IsExport(names[i])
    ensures ExportIds(isolate, names).Some? ==> |ExportIds(isolate, names).value| == |names|
    ensures ExportIds(isolate, names).Some? ==>
      forall i :: 0 <= i < |names| ==> ExportIds(isolate, names).value[i] == IdText(isolate, names[i])
    decreases |names|
  {
    if names != [] {
      IdExactly(isolate, names[0]);
      ExportsExactly(isolate, names[1..]);
      assert forall i :: 1 <= i < |names| ==> names[i] == names[1..][i - 1];
    }
  }

  // ── Loading ─────────────────────────────────────────────────────

  /** Nothing stands in the way of a load. */
  ghost predicate CanLoad(s: Runtime, key: string, isolate: map<string, string>, names: seq<string>) {
    && key !in s.rows && LabelsOk(isolate)
    && (forall i :: 0 <= i < |names| ==> IsExport(names[i]) && IdText(isolate, names[i]) !in s.slots)
  }

  /** A row just loaded: it has run nothing. */
  ghost predicate IsNew(r: Row, key: string, isolate: map<string, string>, names: seq<string>) {
    && r.key == key && r.isolate == isolate && r.phase.Active?
    && r.steps == [] && r.provided == [] && r.announced == [] && |r.exports| == |names|
    && (forall i :: 0 <= i < |names| ==> r.exports[i] == IdText(isolate, names[i]))
  }

  /** Each export has an empty slot of the row's; every other slot is as before. */
  ghost predicate TakesSlots(
    before: map<string, Slot>, after: map<string, Slot>, key: string, row: nat, isolate: map<string, string>,
    names: seq<string>) {
    && (forall i :: 0 <= i < |names| ==> IdText(isolate, names[i]) in after)
    && (forall i :: 0 <= i < |names| ==> after[IdText(isolate, names[i])] == Slot(key, row, None, None, false))
    && (forall id <- before :: id in after && after[id] == before[id])
    && (forall id <- after :: id in before || exists i :: 0 <= i < |names| && IdText(isolate, names[i]) == id)
  }

  lemma {:induction false} SlotsAdded(slots: map<string, Slot>, ids: seq<string>, key: string, owner: nat)
    ensures var t := AddSlots(slots, ids, key, owner);
      && (forall x :: x in t <==> x in slots || x in ids)
      && (forall x <- t :: t[x] == if x in ids then Slot(key, owner, None, None, false) else slots[x])
    decreases |ids|
  {
    if ids != [] {
      var more := slots[ids[0] := Slot(key, owner, None, None, false)];
      SlotsAdded(more, ids[1..], key, owner);
      assert forall x :: x in ids <==> x == ids[0] || x in ids[1..];
      assert forall x :: x in more <==> x in slots || x == ids[0];
    }
  }

  /** A load that is not refused, in other words. */
  lemma LoadIs(s: Runtime, key: string, isolate: map<string, string>, names: seq<string>)
    ensures CanLoad(s, key, isolate, names) <==>
      key !in s.rows && IsolateOk(isolate) && ExportIds(isolate, names).Some? &&
      forall id <- ExportIds(isolate, names).value :: id !in s.slots
  {
    IsolatesExactly(isolate);
    if LabelsOk(isolate) { ExportsExactly(isolate, names); }
    hide LabelsOk, IsolateOk, IsExport, IdText, ExportIds;
  }

  lemma SlotsTaken(
    slots: map<string, Slot>, ids: seq<string>, key: string, row: nat, isolate: map<string, string>, names: seq<string>)
    requires |ids| == |names| && forall i :: 0 <= i < |names| ==> ids[i] == IdText(isolate, names[i])
    requires forall id <- ids :: id !in slots
    ensures TakesSlots(slots, AddSlots(slots, ids, key, row), key, row, isolate, names)
  {
    hide IdText, AddSlots;
    SlotsAdded(slots, ids, key, row);
    assert forall i :: 0 <= i < |names| ==> ids[i] in ids;
  }

  /** A row is loaded exactly when its key is not, every label and name can be an id, no export has
      a `#` and none has a slot yet. */
  lemma LoadsExactly(s: Runtime, key: string, isolate: map<string, string>, names: seq<string>)
    ensures var t, row := Load(s, key, isolate, names), |s.instances|;
      if CanLoad(s, key, isolate, names) then
        && t.rows == s.rows[key := row] && |t.instances| == row + 1 && t.instances[..row] == s.instances
        && IsNew(t.instances[row], key, isolate, names) && TakesSlots(s.slots, t.slots, key, row, isolate, names)
        && t == s.(rows := t.rows, instances := t.instances, slots := t.slots)
      else
        t == s
  {
    LoadIs(s, key, isolate, names);
    hide LabelsOk, IsolateOk, IsExport, AddSlots, ExportIds, TakesSlots;
    if CanLoad(s, key, isolate, names) {
      IsolatesExactly(isolate);
      ExportsExactly(isolate, names);
      SlotsTaken(s.slots, ExportIds(isolate, names).value, key, |s.instances|, isolate, names);
    }
    hide CanLoad, IdText;
  }

  // ── Providing ───────────────────────────────────────────────────

  /** Nothing stands in the way of providing `name`: its row is active, and nobody provides it. */
  ghost predicate CanProvide(s: Runtime, row: nat, name: string) {
    IsActive(s, row) && NUL !in name && IdText(s.instances[row].isolate, name) !in s.services
  }

  /** The row that provided: the registration is the last on its stack, and a name without a slot
      is announced. */
  function ProvidedRow(s: Runtime, r: Row, id: string, name: string): Row {
    r.(provided := r.provided + [id], steps := r.steps + [Withdrawal(|s.registered|)],
       announced := if id in s.slots || '#' in name then r.announced else r.announced + [id])
  }

  /** What is provided now is seen by every reader, and by the host in a slot of the row's. */
  ghost predicate Shows(s: Runtime, t: Runtime, row: nat, id: string, name: string, item: nat)
    requires row < |s.instances|
  {
    && (forall reader: string :: Find(t, id, reader) == Some(item))
    && (id in t.slots <==> id in s.slots || '#' !in name)
    && (id in t.slots && id !in s.slots ==> t.slots[id].owner == row && t.slots[id].row == s.instances[row].key)
    && (id in s.slots ==> t.slots[id].owner == s.slots[id].owner && t.slots[id].row == s.slots[id].row)
    && (id in t.slots ==> t.slots[id].item == if t.slots[id].row == s.instances[row].key then Some(item) else None)
    && (forall x :: x != id ==> (x in t.slots <==> x in s.slots) && (x in s.slots ==> t.slots[x] == s.slots[x]))
  }

  lemma ProvideIs(s: Runtime, row: nat, name: string, item: nat)
    requires row < |s.instances| && LabelsOk(s.instances[row].isolate)
    ensures var id := IdText(s.instances[row].isolate, name);
      Provide(s, row, name, item) ==
        if NUL in name || id in s.services then s
        else Refresh(Registered(Announce(s, row, name, id), row, id, item), id)
  {
    IdExactly(s.instances[row].isolate, name);
    hide Refresh, Registered, Announce;
  }

  /** A name is provided exactly when its row is active, it can be an id and nobody provides it. */
  lemma ProvidesExactly(acts: seq<Act>, row: nat, name: string, item: nat)
    ensures var s, t := Play(acts), Play(acts + [Provides(row, name, item)]);
      if CanProvide(s, row, name) then
        var id := IdText(s.instances[row].isolate, name);
        && t.services == s.services[id := Service(|s.registered|, s.instances[row].key, row, item, false)]
        && t.registered == s.registered + [Registration(id, row, item)] && t.rows == s.rows
        && t.instances == s.instances[row := ProvidedRow(s, s.instances[row], id, name)]
        && Shows(s, t, row, id, name, item)
      else
        t == s
  {
    RegistryRuns.PlayMore(acts, Provides(row, name, item));
    PlaySound(acts);
    var s := Play(acts);
    hide Play, Sound;
    if IsActive(s, row) {
      RowLabels(s, row);
      ProvideIs(s, row, name, item);
      hide Refresh, Registered, Announce, IdText, LabelsOk, Provide;
      if CanProvide(s, row, name) { ProvidedShows(s, row, IdText(s.instances[row].isolate, name), name, item); }
    }
  }

  lemma RowLabels(s: Runtime, row: nat)
    requires Sound(s) && row < |s.instances|
    ensures LabelsOk(s.instances[row].isolate)
  {
    IsolatesExactly(s.instances[row].isolate);
  }

  lemma ProvidedTables(s: Runtime, row: nat, id: string, name: string, item: nat)
    requires row < |s.instances| && id !in s.services
    ensures row < |Announce(s, row, name, id).instances|
    ensures var t := Registered(Announce(s, row, name, id), row, id, item);
      && t.services == s.services[id := Service(|s.registered|, s.instances[row].key, row, item, false)]
      && t.registered == s.registered + [Registration(id, row, item)] && t.rows == s.rows && t.released == s.released
      && t.instances == s.instances[row := ProvidedRow(s, s.instances[row], id, name)]
      && t.slots == if id in s.slots || '#' in name then s.slots
                    else s.slots[id := Slot(s.instances[row].key, row, None, None, true)]
  {}

  lemma ProvidedShows(s: Runtime, row: nat, id: string, name: string, item: nat)
    requires row < |s.instances| && id !in s.services
    ensures var t := Refresh(Registered(Announce(s, row, name, id), row, id, item), id);
      && t.services == s.services[id := Service(|s.registered|, s.instances[row].key, row, item, false)]
      && t.registered == s.registered + [Registration(id, row, item)] && t.rows == s.rows && t.released == s.released
      && t.instances == s.instances[row := ProvidedRow(s, s.instances[row], id, name)]
      && Shows(s, t, row, id, name, item)
  {
    hide Registered, Announce, Refresh, ProvidedRow;
    ProvidedTables(s, row, id, name, item);
    RefreshFrame(Registered(Announce(s, row, name, id), row, id, item), id);
  }

  // ── Withdrawing ─────────────────────────────────────────────────

  /** A registration serves: under its id is what it was made for. */
  predicate Serves(s: Runtime, registration: nat) {
    && registration < |s.registered| && s.registered[registration].id in s.services
    && s.services[s.registered[registration].id].registration == registration
  }

  lemma WithdrawalTakes(s: Runtime, registration: nat)
    requires Serves(s, registration) && s.registered[registration].owner < |s.instances|
    ensures var t, id := Withdraw(s, registration), s.registered[registration].id;
      && t.services == s.services - {id} && t.withdrawn == s.withdrawn + {registration}
      && t.registered == s.registered && t.rows == s.rows && t.slots.Keys == s.slots.Keys
  {
    var it := s.registered[registration];
    var r := s.instances[it.owner];
    var removed := WithRow(s, it.owner, r.(provided := Filter(r.provided, it.id)))
      .(services := s.services - {it.id}, withdrawn := s.withdrawn + {registration});
    RefreshFrame(removed, it.id);
    hide Refresh;
  }

  /** A withdrawal takes the service away exactly when its own registration is the one that serves,
      whoever calls it and whenever. */
  lemma WithdrawsExactly(acts: seq<Act>, registration: nat)
    ensures var s, t := Play(acts), Play(acts + [Withdraws(registration)]);
      if Serves(s, registration) then
        var id := s.registered[registration].id;
        && t.services == s.services - {id} && t.withdrawn == s.withdrawn + {registration}
        && t.registered == s.registered && t.rows == s.rows && t.slots.Keys == s.slots.Keys
      else t == s
  {
    RegistryRuns.PlayMore(acts, Withdraws(registration));
    PlaySound(acts);
    var s := Play(acts);
    hide Play, Sound;
    if Serves(s, registration) {
      ServesOwner(s, registration);
      WithdrawalTakes(s, registration);
      hide Withdraw;
    }
  }

  lemma ServesOwner(s: Runtime, registration: nat)
    requires Sound(s) && Serves(s, registration)
    ensures s.registered[registration].owner < |s.instances|
  {
    assert ServiceOk(s, s.registered[registration].id);
  }

  // ── Rows, slots and stacks ──────────────────────────────────────

  /** Rows are the same rows, and slots the same slots: only what is provided, and what is in the
      slots, can differ, and the stacks of rows that unload. */
  ghost predicate SameRows(s: Runtime, t: Runtime) {
    && |t.instances| == |s.instances| && t.slots.Keys == s.slots.Keys
    && (forall k :: 0 <= k < |s.instances| ==> SameRow(s.instances[k], t.instances[k]))
    && (forall id <- s.slots :: t.slots[id].owner == s.slots[id].owner && t.slots[id].row == s.slots[id].row)
  }

  predicate SameRow(r: Row, u: Row) {
    && u.key == r.key && u.phase == r.phase && u.exports == r.exports && u.announced == r.announced
    && if r.phase.Active? then u.steps == r.steps else u.all == r.all
  }

  lemma RefreshSame(s: Runtime, id: string)
    ensures SameRows(s, Refresh(s, id)) && Refresh(s, id).released == s.released
  {
    RefreshFrame(s, id);
    hide Refresh;
  }

  lemma SameRowsTrans(s: Runtime, t: Runtime, u: Runtime)
    requires SameRows(s, t) && SameRows(t, u)
    ensures SameRows(s, u)
  {}

  lemma WithdrawSame(s: Runtime, registration: nat)
    ensures SameRows(s, Withdraw(s, registration)) && Withdraw(s, registration).released == s.released
  {
    if registration < |s.registered| && s.registered[registration].owner < |s.instances| {
      var it := s.registered[registration];
      var r := s.instances[it.owner];
      var removed := WithRow(s, it.owner, r.(provided := Filter(r.provided, it.id)))
        .(services := s.services - {it.id}, withdrawn := s.withdrawn + {registration});
      RefreshSame(removed, it.id);
      hide Refresh;
      SameRowsTrans(s, removed, Refresh(removed, it.id));
    }
  }

  lemma {:induction false} RefreshAllSame(s: Runtime, ids: seq<string>)
    ensures SameRows(s, RefreshAll(s, ids)) && RefreshAll(s, ids).released == s.released
    decreases |ids|
  {
    if ids != [] {
      hide Refresh;
      RefreshSame(s, ids[0]);
      RefreshAllSame(Refresh(s, ids[0]), ids[1..]);
      SameRowsTrans(s, Refresh(s, ids[0]), RefreshAll(s, ids));
    }
  }

  lemma RunStepSame(s: Runtime, row: nat)
    requires row < |s.instances| && s.instances[row].steps != [] && s.instances[row].phase.Unloading?
    ensures SameRows(s, RunStep(s, row)) && RunStep(s, row).released == s.released
  {
    var last := s.instances[row].steps[|s.instances[row].steps| - 1];
    var popped := WithRow(s, row, s.instances[row].(steps := s.instances[row].steps[..|s.instances[row].steps| - 1]));
    assert SameRows(s, popped);
    hide Withdraw;
    if last.Withdrawal? {
      WithdrawSame(popped, last.registration);
      SameRowsTrans(s, popped, Withdraw(popped, last.registration));
    }
  }

  /** What neither loads, provides, unloads, ends an unload nor has an effect leaves rows and slots
      the same. */
  lemma OthersSame(s: Runtime, act: Act)
    requires act.Withdraws? || act.Applied? || act.Steps? || act.Releases?
    ensures SameRows(s, Perform(s, act))
    ensures !act.Releases? ==> Perform(s, act).released == s.released
  {
    hide SameRows, Withdraw, RefreshAll, RunStep, Release;
    SameAsBefore(s);
    match act
    case Withdraws(registration) => WithdrawSame(s, registration);
    case Applied(row) => if row < |s.instances| { RefreshAllSame(s, s.instances[row].exports); }
    case Steps(row) =>
      if row < |s.instances| && s.instances[row].phase.Unloading? && s.instances[row].steps != [] {
        RunStepSame(s, row);
      }
    case Releases(handle) => ReleaseSame(s, handle);
  }

  lemma SameAsBefore(s: Runtime)
    ensures SameRows(s, s)
  {}

  lemma ReleaseSame(s: Runtime, handle: string)
    ensures SameRows(s, Release(s, handle))
  {}

  /** What an unload leaves of rows and slots. */
  lemma UnloadTakes(s: Runtime, key: string)
    requires Sound(s) && key in s.rows
    ensures s.rows[key] < |s.instances|
    ensures var t, row := BeginUnload(s, key), s.rows[key];
      var r := s.instances[row];
      && t.instances == s.instances[row := r.(announced := [], all := r.steps, phase := Unloading)]
      && (forall x :: x in t.slots <==> x in s.slots && !(x in r.exports + r.announced && s.slots[x].row == key))
      && (forall x <- t.slots :: t.slots[x].owner == s.slots[x].owner && t.slots[x].row == s.slots[x].row)
      && t.released == s.released
  {
    KeyIsRow(s, key);
    var row := s.rows[key];
    var r := s.instances[row];
    hide Core, Structure, AllSynced, SlotOwned, Hide, RemoveSlots, HiddenServices;
    HiddenState(s, row);
    var hidden := Hide(s.(rows := s.rows - {key}), r.provided, key);
    var marked := WithRow(hidden, row, hidden.instances[row].(announced := [], all := r.steps, phase := Unloading));
    CoreFrame(hidden, marked);
    RemoveSlotsEffect(marked, r.exports + r.announced, key);
  }

  // ── Which slots there are ───────────────────────────────────────

  /** What a row exports or announced has a slot of the row's. */
  ghost predicate Kept(s: Runtime) {
    forall row: nat :: IsActive(s, row) ==> RowKept(s, row)
  }

  ghost predicate RowKept(s: Runtime, row: nat)
    requires row < |s.instances|
  {
    forall id <- s.instances[row].exports + s.instances[row].announced :: id in s.slots && s.slots[id].owner == row
  }

  lemma SameKept(s: Runtime, t: Runtime)
    requires Kept(s) && SameRows(s, t)
    ensures Kept(t)
  {
    forall row: nat | IsActive(t, row) ensures RowKept(t, row) { assert IsActive(s, row); }
  }

  lemma LoadKept(s: Runtime, key: string, isolate: map<string, string>, names: seq<string>)
    requires Kept(s)
    ensures Kept(Load(s, key, isolate, names))
  {
    var t := Load(s, key, isolate, names);
    LoadsExactly(s, key, isolate, names);
    hide Load, CanLoad, IdText;
    if t != s {
      forall row: nat | IsActive(t, row) ensures RowKept(t, row) {
        if row < |s.instances| {
          assert t.instances[..|s.instances|][row] == s.instances[row];
          assert IsActive(s, row) && RowKept(s, row);
        }
      }
    }
  }

  lemma ProvideKept(s: Runtime, row: nat, name: string, item: nat)
    requires Kept(s) && IsActive(s, row) && LabelsOk(s.instances[row].isolate)
    ensures Kept(Provide(s, row, name, item))
  {
    var t, id := Provide(s, row, name, item), IdText(s.instances[row].isolate, name);
    ProvideIs(s, row, name, item);
    hide Provide, IdText, LabelsOk;
    if t != s {
      ProvidedShows(s, row, id, name, item);
      hide Registered, Announce, Refresh, Shows;
      forall k: nat | IsActive(t, k) ensures RowKept(t, k) {
        assert IsActive(s, k);
        RowStaysKept(s, t, row, id, name, item, k);
      }
    }
  }

  lemma RowStaysKept(s: Runtime, t: Runtime, row: nat, id: string, name: string, item: nat, k: nat)
    requires row < |s.instances| && k < |s.instances| && RowKept(s, k) && Shows(s, t, row, id, name, item)
    requires t.instances == s.instances[row := ProvidedRow(s, s.instances[row], id, name)]
    ensures RowKept(t, k)
  {
    hide Find;
  }

  lemma UnloadKept(s: Runtime, key: string)
    requires Sound(s) && Kept(s) && key in s.rows
    ensures Kept(BeginUnload(s, key))
  {
    var t := BeginUnload(s, key);
    UnloadTakes(s, key);
    hide BeginUnload, Core, AllSynced;
    forall k: nat | IsActive(t, k) ensures RowKept(t, k) {
      assert IsActive(s, k) && RowKept(s, k);
      OtherKey(s, key, k);
      forall id <- t.instances[k].exports + t.instances[k].announced ensures id in t.slots && t.slots[id].owner == k {
        assert id in s.instances[k].exports + s.instances[k].announced;
        assert SlotOwned(s, id);
      }
    }
  }

  /** Two rows loaded have two keys. */
  lemma OtherKey(s: Runtime, key: string, k: nat)
    requires Sound(s) && key in s.rows && IsActive(s, k) && k != s.rows[key]
    ensures s.instances[k].key != key
  {}

  lemma EffectKept(s: Runtime, row: nat, what: nat)
    requires Kept(s) && IsActive(s, row)
    ensures Kept(Perform(s, Effects(row, what)))
  {
    var t := Perform(s, Effects(row, what));
    forall k: nat | IsActive(t, k) ensures RowKept(t, k) { assert IsActive(s, k) && RowKept(s, k); }
  }

  lemma EndKept(s: Runtime, row: nat)
    requires Kept(s)
    ensures Kept(Perform(s, Ends(row)))
  {
    var t := Perform(s, Ends(row));
    forall k: nat | IsActive(t, k) ensures RowKept(t, k) { assert IsActive(s, k) && RowKept(s, k); }
  }

  lemma PerformKept(s: Runtime, act: Act)
    requires Sound(s) && Kept(s)
    ensures Kept(Perform(s, act))
  {
    hide Sound, Kept, Load, Provide, BeginUnload, Withdraw, RefreshAll, RunStep, Release;
    match act
    case Loads(key, isolate, names) => LoadKept(s, key, isolate, names);
    case Provides(row, name, item) =>
      if IsActive(s, row) {
        RowLabels(s, row);
        ProvideKept(s, row, name, item);
      }
    case Effects(row, what) => if IsActive(s, row) { EffectKept(s, row, what); }
    case Unloads(key) => if key in s.rows { UnloadKept(s, key); } else { NotLoaded(s, key); }
    case Withdraws(_) => OthersKept(s, act);
    case Applied(_) => OthersKept(s, act);
    case Steps(_) => OthersKept(s, act);
    case Ends(row) => EndKept(s, row);
    case Releases(_) => OthersKept(s, act);
  }

  lemma OthersKept(s: Runtime, act: Act)
    requires Kept(s) && (act.Withdraws? || act.Applied? || act.Steps? || act.Releases?)
    ensures Kept(Perform(s, act))
  {
    hide Perform;
    OthersSame(s, act);
    SameKept(s, Perform(s, act));
  }

  lemma NotLoaded(s: Runtime, key: string)
    requires key !in s.rows
    ensures BeginUnload(s, key) == s
  {}

  lemma {:induction false} PlayKept(acts: seq<Act>)
    ensures Kept(Play(acts))
    decreases |acts|
  {
    hide Kept, Perform;
    if acts == [] {
      FreshKept();
    } else {
      PlayKept(acts[..|acts| - 1]);
      PlaySound(acts[..|acts| - 1]);
      PerformKept(Play(acts[..|acts| - 1]), acts[|acts| - 1]);
    }
  }

  lemma FreshKept()
    ensures Kept(Fresh())
  {}

  /** A row that has slot `id`: it is active, and exports the id or announced it. */
  ghost predicate Has(s: Runtime, row: nat, id: string) {
    IsActive(s, row) && (id in s.instances[row].exports || id in s.instances[row].announced)
  }

  /** Over every run, there is a slot for exactly what an active row exports or announced, one row's
      each, and in it is what that row provides now. */
  lemma SlotsExactly(acts: seq<Act>, id: string)
    ensures var s := Play(acts);
      && (id in s.slots <==> exists row: nat :: Has(s, row, id))
      && (id in s.slots ==>
          && (forall row: nat :: Has(s, row, id) <==> row == s.slots[id].owner)
          && s.slots[id].row == s.instances[s.slots[id].owner].key
          && s.slots[id].item == Current(s, id))
  {
    PlaySound(acts);
    PlayKept(acts);
    var s := Play(acts);
    hide Play, Core, Structure;
    if id in s.slots {
      assert SlotOwned(s, id) && Synced(s, id);
      assert Has(s, s.slots[id].owner, id);
    }
    forall row: nat | Has(s, row, id) ensures id in s.slots && s.slots[id].owner == row {
      assert RowKept(s, row) && id in s.instances[row].exports + s.instances[row].announced;
    }
  }

  // ── What an unload has to run ───────────────────────────────────

  /** What an act puts on a row's stack: an effect's cleanup, or the withdrawal of what it provides. */
  function Pushed(s: Runtime, act: Act, row: nat): seq<Step> {
    if act.Effects? && act.row == row && IsActive(s, row) then [Cleanup(act.what)]
    else if act.Provides? && act.row == row && |Perform(s, act).registered| > |s.registered|
    then [Withdrawal(|s.registered|)]
    else []
  }

  /** What a row did while it was active, in order. */
  function DoneBy(acts: seq<Act>, row: nat): seq<Step>
    decreases |acts|
  {
    if acts == [] then []
    else DoneBy(acts[..|acts| - 1], row) + Pushed(Play(acts[..|acts| - 1]), acts[|acts| - 1], row)
  }

  /** An active row's stack is all it did, and a row that unloads had all of it to run. */
  ghost predicate StackIs(s: Runtime, row: nat, done: seq<Step>) {
    if row >= |s.instances| then done == []
    else if s.instances[row].phase.Active? then s.instances[row].steps == done
    else s.instances[row].all == done
  }

  lemma SameStack(s: Runtime, t: Runtime, row: nat, done: seq<Step>)
    requires SameRows(s, t) && StackIs(s, row, done)
    ensures StackIs(t, row, done)
  {}

  lemma LoadStack(s: Runtime, key: string, isolate: map<string, string>, names: seq<string>, row: nat, done: seq<Step>)
    requires StackIs(s, row, done)
    ensures StackIs(Load(s, key, isolate, names), row, done)
  {
    LoadsExactly(s, key, isolate, names);
    var t := Load(s, key, isolate, names);
    hide Load, CanLoad, TakesSlots;
    if t != s && row < |s.instances| { assert t.instances[..|s.instances|][row] == s.instances[row]; }
  }

  lemma ProvideStack(s: Runtime, k: nat, name: string, item: nat, row: nat, done: seq<Step>)
    requires StackIs(s, row, done) && IsActive(s, k) && LabelsOk(s.instances[k].isolate)
    ensures var t := Provide(s, k, name, item);
      StackIs(t, row, done + if k == row && |t.registered| > |s.registered| then [Withdrawal(|s.registered|)] else [])
  {
    var t, id := Provide(s, k, name, item), IdText(s.instances[k].isolate, name);
    ProvideIs(s, k, name, item);
    hide Provide, IdText, LabelsOk;
    assert done + [] == done;
    if t != s {
      ProvidedShows(s, k, id, name, item);
      hide Registered, Announce, Refresh, Shows;
    }
  }

  lemma UnloadStack(s: Runtime, key: string, row: nat, done: seq<Step>)
    requires Sound(s) && StackIs(s, row, done) && key in s.rows
    ensures StackIs(BeginUnload(s, key), row, done)
  {
    UnloadTakes(s, key);
    SoundRows(s, key);
    hide BeginUnload, Sound;
  }

  lemma SoundRows(s: Runtime, key: string)
    requires Sound(s) && key in s.rows
    ensures IsActive(s, s.rows[key])
  {}

  lemma PerformStack(s: Runtime, act: Act, row: nat, done: seq<Step>)
    requires Sound(s) && StackIs(s, row, done)
    ensures StackIs(Perform(s, act), row, done + Pushed(s, act, row))
  {
    hide Sound, StackIs, Load, Provide, BeginUnload, Withdraw, RefreshAll, RunStep, Release;
    assert done + [] == done;
    match act
    case Loads(key, isolate, names) => LoadStack(s, key, isolate, names, row, done);
    case Provides(k, name, item) =>
      if IsActive(s, k) {
        RowLabels(s, k);
        ProvideStack(s, k, name, item, row, done);
      }
    case Effects(k, what) => if IsActive(s, k) { EffectStackIs(s, k, what, row, done); }
    case Unloads(key) => if key in s.rows { UnloadStack(s, key, row, done); } else { NotLoaded(s, key); }
    case Withdraws(_) => OthersStack(s, act, row, done);
    case Applied(_) => OthersStack(s, act, row, done);
    case Steps(_) => OthersStack(s, act, row, done);
    case Ends(k) => EndStack(s, k, row, done);
    case Releases(_) => OthersStack(s, act, row, done);
  }

  lemma EffectStackIs(s: Runtime, k: nat, what: nat, row: nat, done: seq<Step>)
    requires StackIs(s, row, done) && IsActive(s, k)
    ensures StackIs(Perform(s, Effects(k, what)), row, if k == row then done + [Cleanup(what)] else done)
  {}

  lemma EndStack(s: Runtime, k: nat, row: nat, done: seq<Step>)
    requires StackIs(s, row, done)
    ensures StackIs(Perform(s, Ends(k)), row, done)
  {}

  lemma OthersStack(s: Runtime, act: Act, row: nat, done: seq<Step>)
    requires StackIs(s, row, done) && (act.Withdraws? || act.Applied? || act.Steps? || act.Releases?)
    ensures StackIs(Perform(s, act), row, done)
  {
    hide Perform;
    OthersSame(s, act);
    SameStack(s, Perform(s, act), row, done);
  }

  /** Over every run, the stack of an active row is all it did since it was loaded, in order; and
      what a row had to run when its unload began was all of that. */
  lemma {:induction false} StacksExactly(acts: seq<Act>, row: nat)
    ensures StackIs(Play(acts), row, DoneBy(acts, row))
    decreases |acts|
  {
    hide StackIs, Perform, Pushed;
    if acts == [] {
      NothingDone(row);
    } else {
      StacksExactly(acts[..|acts| - 1], row);
      PlaySound(acts[..|acts| - 1]);
      PerformStack(Play(acts[..|acts| - 1]), acts[|acts| - 1], row, DoneBy(acts[..|acts| - 1], row));
    }
  }

  lemma NothingDone(row: nat)
    ensures StackIs(Fresh(), row, [])
  {}

  /** A row unloads exactly when its key is unloaded, and its unload ends exactly when it is ended
      with nothing left to run; nothing else changes a row's phase. */
  lemma PhasesExactly(acts: seq<Act>, act: Act, row: nat)
    requires row < |Play(acts).instances|
    ensures row < |Play(acts + [act]).instances|
    ensures var r := Play(acts).instances[row];
      Play(acts + [act]).instances[row].phase ==
        if r.phase.Active? && act == Unloads(r.key) then Unloading
        else if r.phase.Unloading? && act == Ends(row) && r.steps == [] then Unloaded
        else r.phase
  {
    RegistryRuns.PlayMore(acts, act);
    PlaySound(acts);
    hide Play, Sound, Perform;
    PerformPhase(Play(acts), act, row);
  }

  lemma PerformPhase(s: Runtime, act: Act, row: nat)
    requires Sound(s) && row < |s.instances|
    ensures row < |Perform(s, act).instances|
    ensures var r := s.instances[row];
      Perform(s, act).instances[row].phase ==
        if r.phase.Active? && act == Unloads(r.key) then Unloading
        else if r.phase.Unloading? && act == Ends(row) && r.steps == [] then Unloaded
        else r.phase
  {
    hide Sound, Load, Provide, BeginUnload, Withdraw, RefreshAll, RunStep, Release;
    match act
    case Loads(key, isolate, names) => LoadPhase(s, key, isolate, names, row);
    case Provides(k, name, item) => if IsActive(s, k) { ProvidePhase(s, k, name, item, row); }
    case Effects(k, what) =>
    case Unloads(key) => UnloadPhase(s, key, row);
    case Withdraws(_) => OthersPhase(s, act, row);
    case Applied(_) => OthersPhase(s, act, row);
    case Steps(_) => OthersPhase(s, act, row);
    case Ends(_) =>
    case Releases(_) => OthersPhase(s, act, row);
  }

  lemma OthersPhase(s: Runtime, act: Act, row: nat)
    requires row < |s.instances| && (act.Withdraws? || act.Applied? || act.Steps? || act.Releases?)
    ensures row < |Perform(s, act).instances| && Perform(s, act).instances[row].phase == s.instances[row].phase
  {
    hide Perform;
    OthersSame(s, act);
  }

  lemma LoadPhase(s: Runtime, key: string, isolate: map<string, string>, names: seq<string>, row: nat)
    requires row < |s.instances|
    ensures var t := Load(s, key, isolate, names); row < |t.instances| && t.instances[row] == s.instances[row]
  {
    LoadsExactly(s, key, isolate, names);
    var t := Load(s, key, isolate, names);
    hide Load, CanLoad, IsNew, TakesSlots;
    if t != s { assert t.instances[..|s.instances|][row] == s.instances[row]; }
  }

  lemma ProvidePhase(s: Runtime, k: nat, name: string, item: nat, row: nat)
    requires Sound(s) && IsActive(s, k) && row < |s.instances|
    ensures var t := Provide(s, k, name, item);
      row < |t.instances| && t.instances[row].phase == s.instances[row].phase
  {
    RowLabels(s, k);
    ProvideIs(s, k, name, item);
    var id := IdText(s.instances[k].isolate, name);
    hide Sound, Provide, Registered, Announce, Refresh, LabelsOk, IdText, Shows;
    if NUL !in name && id !in s.services { ProvidedShows(s, k, id, name, item); }
  }

  lemma UnloadPhase(s: Runtime, key: string, row: nat)
    requires Sound(s) && row < |s.instances|
    ensures var t := BeginUnload(s, key);
      && row < |t.instances|
      && t.instances[row].phase ==
         if s.instances[row].phase.Active? && s.instances[row].key == key then Unloading else s.instances[row].phase
  {
    if key in s.rows { UnloadTakes(s, key); } else { NotLoaded(s, key); }
    ActiveKey(s, key, row);
    hide Sound, BeginUnload;
  }

  lemma ActiveKey(s: Runtime, key: string, row: nat)
    requires Sound(s) && row < |s.instances|
    ensures s.instances[row].phase.Active? && s.instances[row].key == key <==> key in s.rows && s.rows[key] == row
  {
    if key in s.rows { KeyIsRow(s, key); }
    assert IsActive(s, row) <==> s.instances[row].phase.Active?;
  }

  // ── What was released ───────────────────────────────────────────

  /** The host let go of `handle` at `i`, while it was kept. */
  ghost predicate ReleasedAt(acts: seq<Act>, i: nat, handle: string) {
    i < |acts| && acts[i] == Releases(handle) && handle in Play(acts[..i]).handles
  }

  lemma ReleasedMore(acts: seq<Act>, act: Act, i: nat, handle: string)
    ensures ReleasedAt(acts + [act], i, handle) <==>
      ReleasedAt(acts, i, handle) || (i == |acts| && act == Releases(handle) && handle in Play(acts).handles)
  {
    hide Play;
    var more := acts + [act];
    if i < |acts| { assert more[i] == acts[i] && more[..i] == acts[..i]; }
    assert more[|acts|] == act && more[..|acts|] == acts;
  }

  lemma PerformReleased(s: Runtime, act: Act)
    requires Sound(s)
    ensures Perform(s, act).released ==
      if act.Releases? && act.handle in s.handles then s.released + {act.handle} else s.released
  {
    hide Sound, Load, Provide, BeginUnload, Withdraw, RefreshAll, RunStep;
    match act
    case Loads(key, isolate, names) => LoadsExactly(s, key, isolate, names); hide CanLoad, IsNew, TakesSlots;
    case Provides(row, name, item) => if IsActive(s, row) { ProvideReleased(s, row, name, item); }
    case Effects(row, what) =>
    case Unloads(key) => if key in s.rows { UnloadTakes(s, key); } else { NotLoaded(s, key); }
    case Withdraws(_) => OthersSame(s, act);
    case Applied(_) => OthersSame(s, act);
    case Steps(_) => OthersSame(s, act);
    case Ends(_) =>
    case Releases(_) =>
  }

  lemma ProvideReleased(s: Runtime, row: nat, name: string, item: nat)
    requires Sound(s) && IsActive(s, row)
    ensures Provide(s, row, name, item).released == s.released
  {
    RowLabels(s, row);
    ProvideIs(s, row, name, item);
    var id := IdText(s.instances[row].isolate, name);
    hide Sound, Provide, Registered, Announce, Refresh, LabelsOk, IdText;
    if NUL !in name && id !in s.services { ProvidedShows(s, row, id, name, item); }
  }

  /** Over every run, the handles counted as released are those the host let go of while they were
      kept. */
  lemma {:induction false} ReleasedExactly(acts: seq<Act>, handle: string)
    ensures handle in Play(acts).released <==> exists i: nat :: ReleasedAt(acts, i, handle)
    decreases |acts|
  {
    hide *;
    if acts == [] {
      NoneReleased(handle);
    } else {
      var before, act := acts[..|acts| - 1], acts[|acts| - 1];
      assert acts == before + [act];
      ReleasedExactly(before, handle);
      PlaySound(before);
      RegistryRuns.PlayMore(before, act);
      PerformReleased(Play(before), act);
      ReleasedSome(before, act, handle);
    }
  }

  lemma ReleasedSome(acts: seq<Act>, act: Act, handle: string)
    ensures (exists i: nat :: ReleasedAt(acts + [act], i, handle)) <==>
      (exists i: nat :: ReleasedAt(acts, i, handle)) || (act == Releases(handle) && handle in Play(acts).handles)
  {
    hide *;
    forall i: nat
      ensures ReleasedAt(acts + [act], i, handle) <==>
        ReleasedAt(acts, i, handle) || (i == |acts| && act == Releases(handle) && handle in Play(acts).handles)
    {
      ReleasedMore(acts, act, i, handle);
    }
    if act == Releases(handle) && handle in Play(acts).handles { assert ReleasedAt(acts + [act], |acts|, handle); }
  }

  lemma NoneReleased(handle: string)
    ensures (forall i: nat :: !ReleasedAt([], i, handle)) && Play([]).released == {}
  {}
}
