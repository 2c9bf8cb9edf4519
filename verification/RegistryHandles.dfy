/** The handles of a runtime's slots, and the host's mirror of them: what every change of a slot
    keeps. */
module RegistryHandles {
  import opened Options
  import opened Digits
  import opened Registry

  // ── Handles are apart ───────────────────────────────────────────

  function CountOf(s: string, c: char): nat {
    if s == "" then 0 else CountOf(s[1..], c) + if s[0] == c then 1 else 0
  }

  lemma {:induction false} CountJoined(s: string, t: string, c: char)
    ensures CountOf(s + t, c) == CountOf(s, c) + CountOf(t, c)
  {
    if s == "" {
      assert s + t == t;
    } else {
      CountJoined(s[1..], t, c);
      assert (s + t)[1..] == s[1..] + t;
    }
  }

  lemma {:induction false} CountNone(s: string, c: char)
    ensures CountOf(s, c) == 0 <==> c !in s
  {
    if s != "" { CountNone(s[1..], c); }
  }

  /** A slot's id holds at most one NUL, and no `#` before it. */
  lemma SlotIdShape(id: string)
    requires IsSlotId(id)
    ensures CountOf(id, NUL) <= 1 && (NUL in id <==> CountOf(id, NUL) == 1)
    ensures NUL !in id ==> '#' !in id
  {
    var name, scope :| '#' !in name && ScopedId(name, scope) == Some(id);
    CountNone(id, NUL);
    CountNone(name, NUL);
    if scope.Some? {
      CountNone(scope.value, NUL);
      CountJoined(name + [NUL], scope.value, NUL);
      CountJoined(name, [NUL], NUL);
      assert id == (name + [NUL]) + scope.value;
    }
  }

  lemma DigitsOnly(n: nat, c: char)
    requires c == '#' || c == NUL
    ensures c !in NatText(n)
  {
    forall i | 0 <= i < |NatText(n)| ensures NatText(n)[i] != c { assert IsDigit(NatText(n)[i]); }
  }

  /** A marked handle: its mark, and the marks in it. */
  lemma MarkedShape(id: string, generation: nat)
    requires IsSlotId(id) && generation != 1
    ensures var h := HandleOf(id, generation);
      && CountOf(h, NUL) == (if NUL in id then 2 else 0)
      && (NUL !in id ==> '#' in h)
  {
    SlotIdShape(id);
    CountNone(id, NUL);
    var mark := if NUL in id then NUL else '#';
    DigitsOnly(generation, NUL);
    CountNone(NatText(generation), NUL);
    CountJoined(id + [mark], NatText(generation), NUL);
    CountJoined(id, [mark], NUL);
    assert HandleOf(id, generation) == (id + [mark]) + NatText(generation);
    assert HandleOf(id, generation)[|id|] == mark;
  }

  lemma MarkAfter(a: string, b: string, x: string, y: string, mark: char)
    requires a + [mark] + x == b + [mark] + y && |a| < |b|
    ensures mark in x
  {
    assert (b + [mark] + y)[|b|] == mark;
    assert (a + [mark] + x)[|b|] == x[|b| - |a| - 1];
  }

  /** Two texts cut at their last mark: with none after it, the parts are equal. */
  lemma LastMark(a: string, b: string, x: string, y: string, mark: char)
    requires a + [mark] + x == b + [mark] + y && mark !in x && mark !in y
    ensures a == b && x == y
  {
    var s, t := a + [mark] + x, b + [mark] + y;
    if |a| < |b| { MarkAfter(a, b, x, y, mark); }
    if |b| < |a| { MarkAfter(b, a, y, x, mark); }
    assert a == s[..|a|] && b == t[..|b|] && x == s[|a| + 1..] && y == t[|b| + 1..];
  }

  /** No two objects' handles are one: scoped ids, labels with `#` and all. */
  lemma HandlesApart(id: string, generation: nat, id2: string, generation2: nat)
    requires IsSlotId(id) && IsSlotId(id2) && HandleOf(id, generation) == HandleOf(id2, generation2)
    ensures id == id2 && generation == generation2
  {
    SlotIdShape(id);
    SlotIdShape(id2);
    if generation != 1 { MarkedShape(id, generation); }
    if generation2 != 1 { MarkedShape(id2, generation2); }
    CountNone(id, NUL);
    CountNone(id2, NUL);
    if generation != 1 && generation2 != 1 {
      var mark := if NUL in id then NUL else '#';
      DigitsOnly(generation, mark);
      DigitsOnly(generation2, mark);
      LastMark(id, id2, NatText(generation), NatText(generation2), mark);
      NatRead(generation);
      NatRead(generation2);
    }
  }

  // ── What is kept ────────────────────────────────────────────────

  function SlotHandle(s: Runtime, id: string): Option<string> {
    if id in s.slots then s.slots[id].handle else None
  }

  ghost predicate Issued(s: Runtime, handle: string) {
    exists i :: 0 <= i < |s.given| && s.given[i].handle == handle
  }

  /** A slot has a handle exactly when it has an object: the last one given in it. */
  ghost predicate SlotOk(s: Runtime, id: string)
    requires id in s.slots
  {
    var slot := s.slots[id];
    && IsSlotId(id)
    && (slot.handle.Some? <==> slot.item.Some?)
    && (slot.handle.Some? ==>
        && GenerationOf(s, id) >= 1
        && slot.handle == Some(HandleOf(id, GenerationOf(s, id)))
        && slot.handle.value in s.handles
        && s.handles[slot.handle.value].item == slot.item.value)
  }

  /** A handle kept is one that was given; it is current exactly when it is its slot's. */
  ghost predicate HandleOk(s: Runtime, h: string)
    requires h in s.handles
  {
    var handle := s.handles[h];
    && Issued(s, h) && IsSlotId(handle.name)
    && (handle.current <==> SlotHandle(s, handle.name) == Some(h))
    && (handle.released <==> h in s.released)
    && (handle.current || !handle.released)
    && !(handle.current && handle.gone)
  }

  /** A handle given is kept exactly while it is current or not released. */
  ghost predicate GivenOk(s: Runtime, g: Given) {
    && IsSlotId(g.id) && g.handle == HandleOf(g.id, g.generation) && 1 <= g.generation <= GenerationOf(s, g.id)
    && (g.handle in s.handles <==> SlotHandle(s, g.id) == Some(g.handle) || g.handle !in s.released)
    && (g.handle in s.handles ==> s.handles[g.handle].name == g.id && s.handles[g.handle].item == g.item)
  }

  ghost predicate HandlesOk(s: Runtime) {
    && (forall id <- s.slots :: SlotOk(s, id))
    && (forall h <- s.handles :: HandleOk(s, h))
    && (forall i :: 0 <= i < |s.given| ==> GivenOk(s, s.given[i]))
    && (forall i, j :: 0 <= i < j < |s.given| ==> s.given[i].handle != s.given[j].handle)
    && (forall h <- s.released :: Issued(s, h))
  }

  /** What the host holds of slot `id`, having applied these notices. */
  function Mirror(notices: seq<Notice>, id: string): Option<string> {
    if notices == [] then None
    else if notices[|notices| - 1].id == id then notices[|notices| - 1].handle
    else Mirror(notices[..|notices| - 1], id)
  }

  /** Each notice has the next version, and together they say what the slots hold. */
  ghost predicate MirrorOk(s: Runtime) {
    && s.version == |s.notices|
    && (forall i :: 0 <= i < |s.notices| ==> s.notices[i].version == i + 1)
    && (forall id: string :: Mirror(s.notices, id) == SlotHandle(s, id))
  }

  ghost predicate Core(s: Runtime) {
    HandlesOk(s) && MirrorOk(s)
  }

  // ── A slot emptied, filled, and told of ─────────────────────────

  lemma VacatedSlot(s: Runtime, id: string, x: string)
    requires HandlesOk(s) && id in s.slots && x in s.slots
    ensures SlotOk(Vacate(s, id), x)
  {
    assert SlotOk(s, x);
    if x != id && s.slots[id].handle.Some? && s.slots[x].handle.Some? {
      HandleNames(s, x);
      HandleNames(s, id);
    }
  }

  lemma VacatedHandle(s: Runtime, id: string, h: string)
    requires HandlesOk(s) && id in s.slots && h in Vacate(s, id).handles
    ensures HandleOk(Vacate(s, id), h)
  {
    hide Issued, IsSlotId;
    assert HandleOk(s, h);
    SameGiven(s, Vacate(s, id), h);
    if s.slots[id].handle == Some(h) { HandleNames(s, id); }
    hide HandlesOk;
  }

  lemma VacatedGiven(s: Runtime, id: string, i: nat)
    requires HandlesOk(s) && id in s.slots && i < |s.given|
    ensures GivenOk(Vacate(s, id), s.given[i])
  {
    hide Issued, IsSlotId, HandleOf, SlotOk, HandleOk;
    assert GivenOk(s, s.given[i]);
    if s.slots[id].handle.Some? { HandleNames(s, id); HandleReleased(s, s.slots[id].handle.value); }
    hide HandlesOk;
  }

  lemma HandleReleased(s: Runtime, h: string)
    requires HandlesOk(s) && h in s.handles
    ensures s.handles[h].released <==> h in s.released
    ensures s.handles[h].current <==> SlotHandle(s, s.handles[h].name) == Some(h)
  {
    assert HandleOk(s, h);
  }

  lemma SameGiven(s: Runtime, t: Runtime, h: string)
    requires s.given == t.given
    ensures Issued(s, h) <==> Issued(t, h)
  {}

  lemma VacateOk(s: Runtime, id: string)
    requires HandlesOk(s) && id in s.slots
    ensures var t := Vacate(s, id); HandlesOk(t) && SlotHandle(t, id) == None
  {
    var t := Vacate(s, id);
    forall x <- t.slots ensures SlotOk(t, x) { VacatedSlot(s, id, x); }
    forall h <- t.handles ensures HandleOk(t, h) { VacatedHandle(s, id, h); }
    forall i | 0 <= i < |t.given| ensures GivenOk(t, t.given[i]) { VacatedGiven(s, id, i); }
    forall h <- t.released ensures Issued(t, h) { SameGiven(s, t, h); }
    hide SlotOk, HandleOk, GivenOk, Issued;
  }

  /** A slot's handle is named after it, and current. */
  lemma HandleNames(s: Runtime, id: string)
    requires HandlesOk(s) && id in s.slots && s.slots[id].handle.Some?
    ensures var h := s.slots[id].handle.value; h in s.handles && s.handles[h].name == id && s.handles[h].current
  {
    var h := s.slots[id].handle.value;
    assert SlotOk(s, id) && HandleOk(s, h);
    var i :| 0 <= i < |s.given| && s.given[i].handle == h;
    assert GivenOk(s, s.given[i]);
    HandlesApart(id, GenerationOf(s, id), s.given[i].id, s.given[i].generation);
  }

  /** The next generation's handle was never given. */
  lemma NextIsNew(s: Runtime, id: string)
    requires HandlesOk(s) && id in s.slots
    ensures var h := HandleOf(id, GenerationOf(s, id) + 1); !Issued(s, h) && h !in s.handles && h !in s.released
  {
    var h := HandleOf(id, GenerationOf(s, id) + 1);
    assert SlotOk(s, id);
    forall i | 0 <= i < |s.given| ensures s.given[i].handle != h {
      assert GivenOk(s, s.given[i]);
      if s.given[i].handle == h { HandlesApart(id, GenerationOf(s, id) + 1, s.given[i].id, s.given[i].generation); }
    }
    if h in s.handles { assert HandleOk(s, h); }
  }

  lemma GivenLater(s: Runtime, t: Runtime, h: string)
    requires s.given <= t.given && Issued(s, h)
    ensures Issued(t, h)
  {
    var i :| 0 <= i < |s.given| && s.given[i].handle == h;
    assert t.given[i].handle == h;
  }

  lemma FilledSlot(s: Runtime, id: string, item: nat, x: string)
    requires HandlesOk(s) && id in s.slots && x in s.slots
    ensures SlotOk(Fill(s, id, item), x)
  {
    NextIsNew(s, id);
    assert SlotOk(s, x) && SlotOk(s, id);
    hide HandlesOk, HandleOf, Issued, IsSlotId;
  }

  lemma FilledHandle(s: Runtime, id: string, item: nat, h: string)
    requires HandlesOk(s) && id in s.slots && s.slots[id].handle == None && h in Fill(s, id, item).handles
    ensures HandleOk(Fill(s, id, item), h)
  {
    var t, new1 := Fill(s, id, item), HandleOf(id, GenerationOf(s, id) + 1);
    NextIsNew(s, id);
    assert SlotOk(s, id);
    assert t.given[|s.given|].handle == new1;
    if h != new1 {
      assert HandleOk(s, h);
      GivenLater(s, t, h);
    }
    hide HandlesOk, HandleOf, IsSlotId;
  }

  lemma FilledGiven(s: Runtime, id: string, item: nat, i: nat)
    requires HandlesOk(s) && id in s.slots && s.slots[id].handle == None && i <= |s.given|
    ensures var t := Fill(s, id, item); GivenOk(t, t.given[i])
    ensures var t := Fill(s, id, item); i < |s.given| ==> t.given[i].handle != t.given[|s.given|].handle
  {
    hide HandleOk;
    NextIsNew(s, id);
    assert SlotOk(s, id);
    if i < |s.given| {
      assert GivenOk(s, s.given[i]);
      assert Issued(s, s.given[i].handle);
    }
    hide HandlesOk, HandleOf, IsSlotId, Issued;
  }

  lemma FillOk(s: Runtime, id: string, item: nat)
    requires HandlesOk(s) && id in s.slots && s.slots[id].handle == None
    ensures var t := Fill(s, id, item); HandlesOk(t) && t.slots[id].item == Some(item)
  {
    var t := Fill(s, id, item);
    forall x <- t.slots ensures SlotOk(t, x) { FilledSlot(s, id, item, x); }
    forall x <- t.handles ensures HandleOk(t, x) { FilledHandle(s, id, item, x); }
    forall i | 0 <= i < |t.given| ensures GivenOk(t, t.given[i]) { FilledGiven(s, id, item, i); }
    forall i | 0 <= i < |s.given| ensures t.given[i].handle != t.given[|s.given|].handle {
      FilledGiven(s, id, item, i);
    }
    forall x <- t.released ensures Issued(t, x) { GivenLater(s, t, x); }
    hide SlotOk, HandleOk, GivenOk, Issued;
  }

  // ── Refreshing ──────────────────────────────────────────────────

  /** Slot `id` holds what it should. */
  predicate Synced(s: Runtime, id: string) {
    id in s.slots ==> s.slots[id].item == Current(s, id)
  }

  /** What refreshing a slot leaves alone. */
  ghost predicate SameButSlot(s: Runtime, t: Runtime, id: string) {
    && t.rows == s.rows && t.instances == s.instances && t.services == s.services
    && t.registered == s.registered && t.withdrawn == s.withdrawn && t.released == s.released && s.given <= t.given
    && t.slots.Keys == s.slots.Keys
    && (forall x <- s.slots :: x != id ==> t.slots[x] == s.slots[x])
    && (id in s.slots ==> t.slots[id] == s.slots[id].(item := t.slots[id].item, handle := t.slots[id].handle))
  }

  lemma MirrorMore(notices: seq<Notice>, n: Notice)
    ensures forall id: string :: Mirror(notices + [n], id) == if n.id == id then n.handle else Mirror(notices, id)
  {
    assert (notices + [n])[..|notices|] == notices;
  }

  lemma RefreshFrame(s: Runtime, id: string)
    ensures var t := Refresh(s, id); SameButSlot(s, t, id) && Synced(t, id)
  {}

  lemma ChangeOk(s: Runtime, id: string, now: Option<nat>)
    requires HandlesOk(s) && id in s.slots
    ensures var t := Change(s, id, now); HandlesOk(t) && t.version == s.version && t.notices == s.notices
  {
    VacateOk(s, id);
    if now.Some? { FillOk(Vacate(s, id), id, now.value); }
    hide HandlesOk;
  }

  lemma NoticeOk(s: Runtime, t: Runtime, id: string)
    requires MirrorOk(s) && SameButSlot(s, t, id) && t.version == s.version + 1
    requires t.notices == s.notices + [Notice(id, SlotHandle(t, id), t.version)]
    ensures MirrorOk(t)
  {
    MirrorMore(s.notices, Notice(id, SlotHandle(t, id), t.version));
  }

  /** Refreshing a slot puts in it what it should hold, and the host hears of it. */
  lemma RefreshOk(s: Runtime, id: string)
    requires Core(s)
    ensures var t := Refresh(s, id); Core(t) && SameButSlot(s, t, id) && Synced(t, id)
  {
    var t := Refresh(s, id);
    RefreshFrame(s, id);
    hide HandlesOk, MirrorOk, Change, SameButSlot, Synced;
    if t != s {
      ChangeOk(s, id, Current(s, id));
      NoticesApart(Change(s, id, Current(s, id)), t);
      NoticeOk(s, t, id);
    }
  }

  /** The handles' invariant says nothing of the notices. */
  lemma NoticesApart(s: Runtime, t: Runtime)
    requires HandlesOk(s) && t == s.(version := t.version, notices := t.notices)
    ensures HandlesOk(t)
  {
    forall x <- t.slots ensures SlotOk(t, x) { assert SlotOk(s, x); }
    forall h <- t.handles ensures HandleOk(t, h) { assert HandleOk(s, h); SameGiven(s, t, h); }
    forall i | 0 <= i < |t.given| ensures GivenOk(t, t.given[i]) { assert GivenOk(s, s.given[i]); }
    forall h <- t.released ensures Issued(t, h) { SameGiven(s, t, h); }
    hide Issued;
  }
}
