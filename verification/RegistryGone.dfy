/** What a call to a handle reaches, over every run: the object it was given to, as long as the slot
    it was given in stays. */
module RegistryGone {
  import opened Options
  import opened Registry
  import opened RegistryHandles
  import opened RegistrySound

  /** For each slot that was removed, the generation it had reached when it last was. */
  type Ends = map<string, nat>

  function EndOf(ends: Ends, id: string): nat {
    if id in ends then ends[id] else 0
  }

  function Removals(s: Runtime, t: Runtime): Ends {
    map id | id in s.slots.Keys - t.slots.Keys :: GenerationOf(t, id)
  }

  function EndsOf(acts: seq<Act>): Ends
    decreases |acts|
  {
    if acts == [] then map[]
    else
      var before := acts[..|acts| - 1];
      EndsOf(before) + Removals(Play(before), Play(acts))
  }

  /** A handle kept says that its service is gone exactly when its slot was removed since it was
      given; without a slot nothing given in it is left. */
  ghost predicate GoneOk(s: Runtime, ends: Ends) {
    && (forall id: string ::
       EndOf(ends, id) <= GenerationOf(s, id) && (id !in s.slots ==> EndOf(ends, id) == GenerationOf(s, id)))
    && (forall i :: 0 <= i < |s.given| ==> GoneSince(s, ends, s.given[i]))
  }

  ghost predicate GoneSince(s: Runtime, ends: Ends, g: Given) {
    g.handle in s.handles ==> (s.handles[g.handle].gone <==> g.generation <= EndOf(ends, g.id))
  }

  lemma GoneFrame(s: Runtime, t: Runtime, ends: Ends)
    requires GoneOk(s, ends) && s.slots.Keys <= t.slots.Keys && t.generations == s.generations && t.given == s.given
    requires forall h <- t.handles :: h in s.handles && t.handles[h].gone == s.handles[h].gone
    ensures GoneOk(t, ends)
  {
    forall i | 0 <= i < |t.given| ensures GoneSince(t, ends, t.given[i]) { assert GoneSince(s, ends, s.given[i]); }
  }

  lemma VacateGone(s: Runtime, id: string, ends: Ends)
    requires GoneOk(s, ends) && id in s.slots
    ensures GoneOk(Vacate(s, id), ends)
  {
    hide GoneOk;
    GoneFrame(s, Vacate(s, id), ends);
  }

  lemma FillGone(s: Runtime, id: string, item: nat, ends: Ends)
    requires HandlesOk(s) && GoneOk(s, ends) && id in s.slots && s.slots[id].handle == None
    ensures GoneOk(Fill(s, id, item), ends)
  {
    hide SlotOk, HandleOk, GivenOk, HandleOf;
    var t := Fill(s, id, item);
    NextIsNew(s, id);
    hide HandlesOk;
    forall i | 0 <= i < |t.given| ensures GoneSince(t, ends, t.given[i]) {
      if i < |s.given| {
        assert GoneSince(s, ends, s.given[i]);
        assert Issued(s, s.given[i].handle);
      }
    }
    hide Issued, GoneSince;
  }

  lemma ChangeGone(s: Runtime, id: string, now: Option<nat>, ends: Ends)
    requires HandlesOk(s) && GoneOk(s, ends) && id in s.slots
    ensures GoneOk(Change(s, id, now), ends)
  {
    VacateOk(s, id);
    hide HandlesOk, GoneOk, Fill;
    VacateGone(s, id, ends);
    if now.Some? { FillGone(Vacate(s, id), id, now.value, ends); }
  }

  lemma RefreshGone(s: Runtime, id: string, ends: Ends)
    requires HandlesOk(s) && GoneOk(s, ends)
    ensures GoneOk(Refresh(s, id), ends) && Refresh(s, id).slots.Keys == s.slots.Keys
  {
    RefreshFrame(s, id);
    hide HandlesOk, GoneOk, Current, Change;
    if id in s.slots && Current(s, id) != s.slots[id].item {
      ChangeGone(s, id, Current(s, id), ends);
      GoneFrame(Change(s, id, Current(s, id)), Refresh(s, id), ends);
    }
  }

  function Unslotted(s: Runtime, id: string): Runtime {
    s.(slots := s.slots - {id}, handles := Gone(s.handles, id))
  }

  lemma RemovedSince(s: Runtime, id: string, ends: Ends, g: Given)
    requires GivenOk(s, g) && GoneSince(s, ends, g)
    ensures GoneSince(Unslotted(s, id), ends[id := GenerationOf(s, id)], g)
  {
    hide IsSlotId, HandleOf;
  }

  /** A slot removed: every handle given in it is gone. */
  lemma RemoveGone(s: Runtime, id: string, ends: Ends)
    requires HandlesOk(s) && GoneOk(s, ends) && id in s.slots
    ensures GoneOk(Unslotted(s, id), ends[id := GenerationOf(s, id)])
  {
    hide GoneSince, GivenOk, SlotOk, HandleOk, Gone;
    var t, later := Unslotted(s, id), ends[id := GenerationOf(s, id)];
    forall i | 0 <= i < |t.given| ensures GoneSince(t, later, t.given[i]) { RemovedSince(s, id, ends, s.given[i]); }
    hide HandlesOk;
    assert forall x: string :: GenerationOf(t, x) == GenerationOf(s, x);
  }

  lemma RemovalsMore(s: Runtime, t: Runtime, u: Runtime, id: string, ends: Ends)
    requires id in s.slots && t.slots.Keys == s.slots.Keys - {id} && u.slots.Keys <= t.slots.Keys
    requires u.generations == t.generations == s.generations
    ensures ends[id := GenerationOf(s, id)] + Removals(t, u) == ends + Removals(s, u)
  {}

  lemma {:induction false} RemoveSlotsGone(s: Runtime, ids: seq<string>, key: string, ends: Ends)
    requires Core(s) && GoneOk(s, ends) && (forall x <- s.slots :: s.slots[x].row == key ==> s.slots[x].handle.None?)
    ensures var t := RemoveSlots(s, ids, key);
      GoneOk(t, ends + Removals(s, t)) && t.generations == s.generations && t.slots.Keys <= s.slots.Keys
    decreases |ids|
  {
    hide Core, GoneOk, Gone, Removals, GenerationOf;
    var t := RemoveSlots(s, ids, key);
    if ids == [] {
      NoRemovals(s, ends);
    } else if ids[0] in s.slots && s.slots[ids[0]].row == key {
      var u := Unslotted(s, ids[0]);
      RemoveSlotOk(s, ids[0]);
      CoreParts(s);
      RemoveGone(s, ids[0], ends);
      RemoveSlotsGone(u, ids[1..], key, ends[ids[0] := GenerationOf(s, ids[0])]);
      RemovalsMore(s, u, t, ids[0], ends);
    } else {
      RemoveSlotsGone(s, ids[1..], key, ends);
    }
  }

  lemma NoRemovals(s: Runtime, ends: Ends)
    ensures ends + Removals(s, s) == ends
  {}

  lemma {:induction false} HideGone(s: Runtime, ids: seq<string>, key: string, ends: Ends)
    requires Core(s) && GoneOk(s, ends)
    ensures GoneOk(Hide(s, ids, key), ends)
    decreases |ids|
  {
    hide Core, GoneOk, Refresh;
    if ids != [] {
      var id := ids[0];
      if id in s.services && s.services[id].row == key {
        var u := s.(services := s.services[id := s.services[id].(unloading := true)]);
        CoreFrame(s, u);
        CoreParts(u);
        RefreshOk(u, id);
        GoneFrame(s, u, ends);
        RefreshGone(u, id, ends);
        HideGone(Refresh(u, id), ids[1..], key, ends);
      } else {
        HideGone(s, ids[1..], key, ends);
      }
    }
  }

  /** The state an unload leaves before its slots are removed. */
  lemma MarkedGone(s: Runtime, row: nat, ends: Ends)
    requires Sound(s) && IsActive(s, row) && GoneOk(s, ends)
    ensures var r := s.instances[row];
      var hidden := Hide(s.(rows := s.rows - {r.key}), r.provided, r.key);
      && row < |hidden.instances|
      && var marked := WithRow(hidden, row,
         hidden.instances[row].(announced := [], all := r.steps, phase := Unloading));
         && Core(marked) && GoneOk(marked, ends) && marked.slots.Keys == s.slots.Keys
         && (forall x <- marked.slots :: marked.slots[x].row == r.key ==> marked.slots[x].handle.None?)
  {
    hide Structure, AllSynced, SlotOwned, Hide, HiddenServices, HandlesOk, MirrorOk, GoneOk;
    HiddenState(s, row);
    var r, bare := s.instances[row], s.(rows := s.rows - {s.instances[row].key});
    hide Core;
    CoreFrame(s, bare);
    GoneFrame(s, bare, ends);
    HideGone(bare, r.provided, r.key, ends);
    var hidden := Hide(bare, r.provided, r.key);
    var marked := WithRow(hidden, row, hidden.instances[row].(announced := [], all := r.steps, phase := Unloading));
    CoreFrame(hidden, marked);
    GoneFrame(hidden, marked, ends);
  }

  lemma UnloadGone(s: Runtime, key: string, ends: Ends)
    requires Sound(s) && GoneOk(s, ends)
    ensures var t := BeginUnload(s, key); GoneOk(t, ends + Removals(s, t))
  {
    if key !in s.rows {
      NoRemovals(s, ends);
    } else {
      KeyIsRow(s, key);
      var row := s.rows[key];
      var r := s.instances[row];
      MarkedGone(s, row, ends);
      hide Sound, Core, RowsOk, Hide, RemoveSlots, GoneOk, IsActive;
      var hidden := Hide(s.(rows := s.rows - {key}), r.provided, key);
      var marked := WithRow(hidden, row, hidden.instances[row].(announced := [], all := r.steps, phase := Unloading));
      RemoveSlotsGone(marked, r.exports + r.announced, key, ends);
      assert Removals(marked, BeginUnload(s, key)) == Removals(s, BeginUnload(s, key));
    }
  }

  lemma AnnounceGone(s: Runtime, row: nat, name: string, id: string, ends: Ends)
    requires row < |s.instances| && GoneOk(s, ends)
    ensures var t := Announce(s, row, name, id);
      GoneOk(t, ends) && s.slots.Keys <= t.slots.Keys && |t.instances| == |s.instances|
  {
    hide GoneOk;
    GoneFrame(s, Announce(s, row, name, id), ends);
  }

  lemma RegisteredGone(s: Runtime, row: nat, id: string, item: nat, ends: Ends)
    requires row < |s.instances| && Core(s) && GoneOk(s, ends)
    ensures var t := Refresh(Registered(s, row, id, item), id); GoneOk(t, ends) && t.slots.Keys == s.slots.Keys
  {
    hide GoneOk, Core, Refresh;
    var t := Registered(s, row, id, item);
    CoreFrame(s, t);
    CoreParts(t);
    GoneFrame(s, t, ends);
    RefreshGone(t, id, ends);
  }

  lemma ProvideGone(s: Runtime, row: nat, name: string, item: nat, ends: Ends)
    requires Sound(s) && IsActive(s, row) && GoneOk(s, ends)
    ensures GoneOk(Provide(s, row, name, item), ends) && s.slots.Keys <= Provide(s, row, name, item).slots.Keys
  {
    hide GoneOk, Sound, Core, Refresh, Registered, Announce, IdIn;
    var id := IdIn(s.instances[row], name);
    if id.Some? && id.value !in s.services {
      AnnounceSound(s, row, name, id.value);
      AnnounceGone(s, row, name, id.value, ends);
      SoundIsCore(Announce(s, row, name, id.value));
      RegisteredGone(Announce(s, row, name, id.value), row, id.value, item, ends);
    }
  }

  lemma WithdrawGone(s: Runtime, registration: nat, ends: Ends)
    requires Core(s) && GoneOk(s, ends)
    ensures GoneOk(Withdraw(s, registration), ends) && Withdraw(s, registration).slots.Keys == s.slots.Keys
  {
    hide GoneOk, Core, Refresh;
    if Withdraw(s, registration) != s {
      var t := Removed(s, registration);
      CoreFrame(s, t);
      CoreParts(t);
      GoneFrame(s, t, ends);
      RefreshGone(t, s.registered[registration].id, ends);
    }
  }

  lemma StepGone(s: Runtime, row: nat, ends: Ends)
    requires Core(s) && row < |s.instances| && s.instances[row].steps != [] && GoneOk(s, ends)
    ensures GoneOk(RunStep(s, row), ends) && RunStep(s, row).slots.Keys == s.slots.Keys
  {
    hide GoneOk, Core, Withdraw;
    var t := Popped(s, row);
    CoreFrame(s, t);
    GoneFrame(s, t, ends);
    var last := s.instances[row].steps[|s.instances[row].steps| - 1];
    if last.Withdrawal? { WithdrawGone(t, last.registration, ends); }
  }

  lemma ReleaseGone(s: Runtime, h: string, ends: Ends)
    requires GoneOk(s, ends)
    ensures GoneOk(Release(s, h), ends)
  {
    hide GoneOk;
    GoneFrame(s, Release(s, h), ends);
  }

  lemma {:induction false} SlotsAdded(slots: map<string, Slot>, ids: seq<string>, key: string, owner: nat)
    ensures slots.Keys <= AddSlots(slots, ids, key, owner).Keys
    decreases |ids|
  {
    if ids != [] { SlotsAdded(slots[ids[0] := Slot(key, owner, None, None, false)], ids[1..], key, owner); }
  }

  lemma LoadGone(s: Runtime, key: string, isolate: map<string, string>, names: seq<string>, ends: Ends)
    requires GoneOk(s, ends)
    ensures GoneOk(Load(s, key, isolate, names), ends) && s.slots.Keys <= Load(s, key, isolate, names).slots.Keys
  {
    hide GoneOk;
    var ids := ExportIds(isolate, names);
    if ids.Some? { SlotsAdded(s.slots, ids.value, key, |s.instances|); }
    GoneFrame(s, Load(s, key, isolate, names), ends);
  }

  lemma SlotsStay(s: Runtime, t: Runtime, ends: Ends)
    requires s.slots.Keys <= t.slots.Keys
    ensures ends + Removals(s, t) == ends
  {}

  /** Changes of a row's own record touch no handle and no slot. */
  lemma RowGone(s: Runtime, row: nat, r: Row, ends: Ends)
    requires row < |s.instances| && GoneOk(s, ends)
    ensures GoneOk(WithRow(s, row, r), ends) && WithRow(s, row, r).slots == s.slots
  {
    hide GoneOk;
    GoneFrame(s, WithRow(s, row, r), ends);
  }

  /** Whatever happens but an unload removes no slot. */
  lemma OtherGone(s: Runtime, act: Act, ends: Ends)
    requires Sound(s) && GoneOk(s, ends) && !act.Unloads?
    ensures var t := Perform(s, act); GoneOk(t, ends) && s.slots.Keys <= t.slots.Keys
  {
    SoundIsCore(s);
    hide Sound, Core, GoneOk, Provide, Load, Withdraw, RunStep, Release, RefreshAll, AllSynced, WithRow, BeginUnload;
    match act
    case Loads(key, isolate, names) => LoadGone(s, key, isolate, names, ends);
    case Provides(row, name, item) => if IsActive(s, row) { ProvideGone(s, row, name, item, ends); }
    case Effects(row, what) =>
      if row < |s.instances| {
        RowGone(s, row, s.instances[row].(steps := s.instances[row].steps + [Cleanup(what)]), ends);
      }
    case Withdraws(registration) => WithdrawGone(s, registration, ends);
    case Applied(row) => if row < |s.instances| { RefreshNothing(s, s.instances[row].exports); }
    case Unloads(key) => {}
    case Steps(row) => if row < |s.instances| && s.instances[row].steps != [] { StepGone(s, row, ends); }
    case Ends(row) =>
      if row < |s.instances| { RowGone(s, row, s.instances[row].(provided := [], phase := Unloaded), ends); }
    case Releases(handle) => { ReleaseGone(s, handle, ends); ReleasedSlots(s, handle); }
  }

  lemma SoundIsCore(s: Runtime)
    requires Sound(s)
    ensures Core(s) && AllSynced(s)
  {}

  lemma ReleasedSlots(s: Runtime, h: string)
    ensures Release(s, h).slots == s.slots
  {}

  /** Over every run, a handle kept says that its service is gone exactly when its slot was removed
      since it was given. */
  lemma {:induction false} PlayGone(acts: seq<Act>)
    ensures GoneOk(Play(acts), EndsOf(acts))
    decreases |acts|
  {
    if acts != [] {
      var before, act := acts[..|acts| - 1], acts[|acts| - 1];
      PlayGone(before);
      PlaySound(before);
      hide GoneOk, Sound, Perform, Removals;
      if act.Unloads? {
        UnloadGone(Play(before), act.key, EndsOf(before));
        PerformUnloads(Play(before), act.key);
      } else {
        OtherGone(Play(before), act, EndsOf(before));
        SlotsStay(Play(before), Play(acts), EndsOf(before));
      }
    }
  }

  lemma PerformUnloads(s: Runtime, key: string)
    ensures Perform(s, Unloads(key)) == BeginUnload(s, key)
  {}

  /** The slot a handle was given in was not removed since. */
  predicate SlotStays(acts: seq<Act>, g: Given) {
    g.generation > EndOf(EndsOf(acts), g.id)
  }

  /** What a call to a handle given should come to, by what became of the handle and its slot. */
  function Expected(s: Runtime, acts: seq<Act>, g: Given): Reached {
    if SlotHandle(s, g.id) != Some(g.handle) && g.handle in s.released then Unknown
    else if SlotStays(acts, g) then Served(g.item)
    else Unavailable
  }

  /** A call to a handle reaches the object it was given to, also one its row replaced since, until
      the slot is removed; then it says that the service is gone, also when another row provides
      it. A handle released and replaced is unknown, as is one never given. */
  lemma ReachesItsOwn(acts: seq<Act>)
    ensures var s := Play(acts);
      && (forall g <- s.given :: Dispatch(s, g.handle) == Expected(s, acts, g))
      && (forall h: string :: !Issued(s, h) ==> Dispatch(s, h) == Unknown)
  {
    PlaySound(acts);
    PlayGone(acts);
    var s := Play(acts);
    forall g <- s.given ensures Dispatch(s, g.handle) == Expected(s, acts, g) {
      assert GivenOk(s, g) && GoneSince(s, EndsOf(acts), g);
    }
    forall h: string | !Issued(s, h) ensures Dispatch(s, h) == Unknown {
      if h in s.handles { HandleIssued(s, h); }
    }
  }
}
