/** The reference tables of one session: what it exported to the far end, what it imported,
    and how granting, rolling back, receiving and giving back change them. */
module References {
  import opened Options
  import opened Wire

  /** A value of this side that crosses by reference; the kind is the value's own. */
  datatype Local = Local(identity: nat, kind: Kind)

  /** What a reference id names: fixed when the id is allocated. */
  datatype Name = Name(value: Local, origin: Path, business: bool)
  datatype Export = Export(name: Name, grants: nat)

  /** One received reference. `live`: its proxy was not collected. */
  datatype Record = Record(id: nat, kind: Kind, origin: Path, grants: nat, live: bool, released: bool)

  /** A reference inside a value this side sends: a value of its own, or a proxy it received. */
  datatype Item = Own(value: Local) | Imported(record: nat)

  /** What a call is answered with: a value with these references, or an error.
      `encodes`: nothing else in the value stops it; `sound`: nor at the far end. */
  datatype Answer = Value(items: seq<Item>, encodes: bool, sound: bool) | Failure

  /** What an exported Promise came to. */
  datatype Outcome = Unsettled | Settled(answer: Answer)

  /** What this side exported. `names` is history: every id it ever gave a value. */
  datatype Exports = Exports(
    ref: nat,
    identities: map<Local, nat>,
    entries: map<nat, Export>,
    futures: map<nat, Outcome>,
    active: int,
    names: map<nat, Name>)

  /** What this side imported: each proxy's record, and the current one of each id. */
  datatype Imports = Imports(current: map<nat, nat>, records: seq<Record>)

  /** What surrounds an encoding: the path of the code that sends, whether it is business,
      and whether the far end takes plugin definitions. */
  datatype Context = Context(path: Path, business: bool, plugins: bool)

  // ── Encoding ────────────────────────────────────────────────────

  /** One more grant of `id`, unless they cannot be counted any more. */
  function Bump(x: Exports, id: nat): (Exports, Option<Reference>)
    requires id in x.entries
  {
    var entry := x.entries[id];
    if entry.grants + 1 > MAX_SAFE then (x, None)
    else (x.(entries := x.entries[id := entry.(grants := entry.grants + 1)]),
          Some(Reference(id, entry.name.value.kind, false, entry.name.origin)))
  }

  /** A new entry for `v`, not yet granted. */
  function Enter(x: Exports, v: Local, ctx: Context): Exports {
    var id := x.ref + 1;
    var name := Name(v, ctx.path, ctx.business);
    Exports(id, x.identities[v := id], x.entries[id := Export(name, 0)],
            if v.kind.Future? then x.futures[id := Unsettled] else x.futures,
            if v.kind.Future? && ctx.business then x.active + 1 else x.active,
            x.names[id := name])
  }

  function GrantOne(x: Exports, records: seq<Record>, item: Item, ctx: Context): (Exports, Option<Reference>) {
    match item
    case Imported(k) =>
      if k < |records| && !records[k].released
      then (x, Some(Reference(records[k].id, records[k].kind, true, records[k].origin)))
      else (x, None)
    case Own(v) =>
      if v in x.identities && x.identities[v] in x.entries then Bump(x, x.identities[v])
      else if x.ref + 1 > MAX_SAFE || (v.kind.Plugin? && !ctx.plugins) then (x.(ref := x.ref + 1), None)
      else Bump(Enter(x, v, ctx), x.ref + 1)
  }

  /** How far encoding came: the references written, the ids granted, whether it goes on. */
  datatype Granting = Granting(exports: Exports, refs: seq<Reference>, ids: seq<nat>, ok: bool)

  function Grant(x: Exports, records: seq<Record>, items: seq<Item>, ctx: Context): Granting {
    if items == [] then Granting(x, [], [], true)
    else
      var g := Grant(x, records, items[..|items| - 1], ctx);
      if !g.ok then g
      else
        var (next, ref) := GrantOne(g.exports, records, items[|items| - 1], ctx);
        match ref
        case None => g.(exports := next, ok := false)
        case Some(r) => Granting(next, g.refs + [r], if r.home then g.ids else g.ids + [r.id], true)
  }

  /** One grant of `id` taken back; an entry without grants is forgotten. */
  function Drop(x: Exports, id: nat): Exports {
    if id !in x.entries then x
    else
      var entry := x.entries[id];
      if entry.grants <= 1 then x.(entries := x.entries - {id})
      else x.(entries := x.entries[id := entry.(grants := entry.grants - 1)])
  }

  function Rollback(x: Exports, ids: seq<nat>): Exports {
    if ids == [] then x else Drop(Rollback(x, ids[..|ids| - 1]), ids[|ids| - 1])
  }

  /** Encode a value with these references: all of them are granted, or none. */
  function Encode(
    x: Exports, records: seq<Record>, items: seq<Item>, encodes: bool,
    ctx: Context): (Exports, Option<seq<Reference>>) {
    var g := Grant(x, records, items, ctx);
    if g.ok && encodes then (g.exports, Some(g.refs)) else (Rollback(g.exports, g.ids), None)
  }

  /** `count` grants of `id` given back by the far end. */
  function TakeBack(x: Exports, id: nat, count: nat): Exports
    requires id in x.entries && count <= x.entries[id].grants
  {
    var entry := x.entries[id];
    if count == entry.grants then x.(entries := x.entries - {id})
    else x.(entries := x.entries[id := entry.(grants := entry.grants - count)])
  }

  // ── Decoding ────────────────────────────────────────────────────

  /** How far decoding came: the records of the references imported, whether a value was
      refused, and whether the frame is not one an honest far end sends. */
  datatype Decoding = Decoding(imports: Imports, imported: seq<nat>, refused: bool, fault: bool)

  /** Whether `id` is exported here as a value of `kind`. */
  predicate Exported(x: Exports, id: nat, kind: Kind) {
    id in x.entries && x.entries[id].name.value.kind == kind
  }

  /** The record the proxy of `id` is kept under, unless it was collected. */
  function Current(m: Imports, id: nat): Option<nat> {
    if id in m.current && m.current[id] < |m.records| && m.records[m.current[id]].live then Some(m.current[id])
    else None
  }

  function DecodeOne(x: Exports, d: Decoding, r: Reference, host: bool): Decoding {
    var m := d.imports;
    if r.id == 0 || r.id > MAX_SAFE then d.(fault := true)
    else if r.home then d.(fault := !Exported(x, r.id, r.kind))
    else if r.kind.Plugin? && !host then
      // Not for this side: a record without a proxy, given back with the refused value.
      Decoding(m.(records := m.records + [Record(r.id, r.kind, r.origin, 1, false, false)]),
               d.imported + [|m.records|], true, false)
    else match Current(m, r.id)
      case Some(k) =>
        var record := m.records[k];
        if record.kind != r.kind || record.origin != r.origin || record.grants + 1 > MAX_SAFE then d.(fault := true)
        else d.(imports := m.(records := m.records[k := record.(grants := record.grants + 1)]),
          imported := d.imported + [k])
      case None =>
        d.(imports := Imports(m.current[r.id := |m.records|],
          m.records + [Record(r.id, r.kind, r.origin, 1, true, false)]),
           imported := d.imported + [|m.records|])
  }

  function Decode(x: Exports, m: Imports, refs: seq<Reference>, host: bool): Decoding {
    if refs == [] then Decoding(m, [], false, false)
    else
      var d := Decode(x, m, refs[..|refs| - 1], host);
      if d.fault then d else DecodeOne(x, d, refs[|refs| - 1], host)
  }

  /** Give a received reference back, with every grant it has; again does nothing. */
  function GiveBack(m: Imports, k: nat): (Imports, seq<Frame>) {
    if k >= |m.records| || m.records[k].released then (m, [])
    else
      var record := m.records[k];
      (Imports(if record.id in m.current && m.current[record.id] == k then m.current - {record.id} else m.current,
               m.records[k := record.(released := true)]),
       [Release(record.id, record.grants)])
  }

  function Count(ks: seq<nat>, k: nat): nat {
    if ks == [] then 0 else Count(ks[1..], k) + if ks[0] == k then 1 else 0
  }

  function Without(ks: seq<nat>, k: nat): (rest: seq<nat>)
    ensures |rest| <= |ks|
  {
    if ks == [] then [] else if ks[0] == k then Without(ks[1..], k) else [ks[0]] + Without(ks[1..], k)
  }

  /** Give back `count` grants of a record: the record with them, when it has no more. */
  function GiveSome(m: Imports, k: nat, count: nat): (Imports, seq<Frame>) {
    if k >= |m.records| || m.records[k].released then (m, [])
    else if count >= m.records[k].grants then GiveBack(m, k)
    else (m.(records := m.records[k := m.records[k].(grants := m.records[k].grants - count)]),
          [Release(m.records[k].id, count)])
  }

  /** Give back what a refused value imported, record by record. */
  function Dismiss(m: Imports, imported: seq<nat>): (Imports, seq<Frame>)
    decreases |imported|
  {
    if imported == [] then (m, [])
    else
      var k := imported[0];
      var (one, first) := GiveSome(m, k, Count(imported, k));
      var (all, rest) := Dismiss(one, Without(imported[1..], k));
      (all, first + rest)
  }

  /** What a payload becomes here: taken, refused with everything in it given back, or a fault. */
  datatype Taking = Taking(imports: Imports, releases: seq<Frame>, refused: bool, fault: bool)

  function Take(x: Exports, m: Imports, payload: Payload, host: bool): Taking {
    var d := Decode(x, m, payload.refs, host);
    if d.fault then Taking(m, [], false, true)
    else if !d.refused && payload.sound then Taking(d.imports, [], false, false)
    else
      var (after, releases) := Dismiss(d.imports, d.imported);
      Taking(after, releases, true, false)
  }

  // ── What the tables keep ────────────────────────────────────────

  function GrantsOf(x: Exports, id: nat): nat {
    if id in x.entries then x.entries[id].grants else 0
  }

  /** The grants of `id` this side holds: those of all its records not given back. */
  function Held(records: seq<Record>, id: nat): nat {
    if records == [] then 0
    else Held(records[..|records| - 1], id) + Holds(records[|records| - 1], id)
  }

  function Holds(r: Record, id: nat): nat {
    if r.id == id && !r.released then r.grants else 0
  }

  /** The ids given to business Promises that did not settle: one Promise has more when it was
      entered anew. */
  ghost function Unfinished(x: Exports): set<nat> {
    set id | id in x.futures && x.futures[id].Unsettled? && id in x.names && x.names[id].business
  }

  /** Calls in progress counted in `active`, beside the Promises not settled. */
  ghost function Calls(x: Exports): int {
    x.active - |Unfinished(x)|
  }

  ghost predicate ExportsOk(x: Exports) {
    && (forall id <- x.entries ::
       id in x.names && x.entries[id].name == x.names[id] && 1 <= x.entries[id].grants <= MAX_SAFE)
    && NamesOk(x)
  }

  ghost predicate NamesOk(x: Exports) {
    && (forall id <- x.names :: 1 <= id <= x.ref && id <= MAX_SAFE)
    && (forall v <- x.identities :: x.identities[v] in x.names && x.names[x.identities[v]].value == v)
    && (forall id <- x.names :: x.names[id].value.kind.Future? ==> id in x.futures)
    && (forall id <- x.futures :: id in x.names)
  }

  ghost predicate ImportsOk(m: Imports) {
    && (forall k :: 0 <= k < |m.records| ==> m.records[k].grants >= 1)
    && (forall id <- m.current ::
       m.current[id] < |m.records| && m.records[m.current[id]].id == id && !m.records[m.current[id]].released)
  }

  /** What no operation undoes: an id once allocated names its value for ever, and no id is
      allocated twice. */
  ghost predicate Extends(x: Exports, y: Exports) {
    && x.ref <= y.ref
    && (forall id <- x.names :: id in y.names && y.names[id] == x.names[id])
    && (forall id <- y.names :: id in x.names || id > x.ref)
  }

  // ── Granting ────────────────────────────────────────────────────

  /** `r` on the wire stands for `item`: the id it carries names the value, or is the one it came under. */
  ghost predicate Stands(x: Exports, records: seq<Record>, r: Reference, item: Item) {
    match item
    case Own(v) => !r.home && r.id in x.names && x.names[r.id].value == v && v.kind == r.kind &&
      x.names[r.id].origin == r.origin
    case Imported(k) =>
      && k < |records| && !records[k].released
      && r == Reference(records[k].id, records[k].kind, true, records[k].origin)
  }

  lemma SameFutures(x: Exports, y: Exports)
    requires x.futures == y.futures && x.names == y.names && x.active == y.active
    ensures Unfinished(x) == Unfinished(y) && Calls(x) == Calls(y)
  {}

  lemma BumpEffect(x: Exports, id: nat)
    requires NamesOk(x) && id in x.entries && id in x.names
    requires forall i <- x.entries :: i in x.names && x.entries[i].name == x.names[i] && x.entries[i].grants <= MAX_SAFE
    requires forall i <- x.entries :: i != id ==> x.entries[i].grants >= 1
    requires x.entries[id].grants >= 1 || x.entries[id].grants < MAX_SAFE
    ensures var (y, r) := Bump(x, id);
      && ExportsOk(y) && y == x.(entries := y.entries)
      && (r.Some? ==> r.value == Reference(id, x.names[id].value.kind, false, x.names[id].origin))
      && (x.entries[id].grants == 0 ==> r.Some?)
      && (forall i: nat :: GrantsOf(y, i) == GrantsOf(x, i) + if r.Some? && i == id then 1 else 0)
  {}

  lemma EnterEffect(x: Exports, v: Local, ctx: Context)
    requires ExportsOk(x) && x.ref + 1 <= MAX_SAFE
    ensures var y := Enter(x, v, ctx);
      && NamesOk(y) && Extends(x, y) && Calls(y) == Calls(x)
      && (forall i: nat :: GrantsOf(y, i) == GrantsOf(x, i))
      && (forall i <- y.entries :: i in y.names && y.entries[i].name == y.names[i] && y.entries[i].grants <= MAX_SAFE)
      && (forall i <- y.entries :: i != x.ref + 1 ==> y.entries[i].grants >= 1)
  {
    EnterCalls(x, v, ctx);
  }

  lemma EnterCalls(x: Exports, v: Local, ctx: Context)
    requires NamesOk(x)
    ensures Calls(Enter(x, v, ctx)) == Calls(x)
  {
    assert x.ref + 1 !in x.names && x.ref + 1 !in x.futures;
    UnfinishedElsewhere(x, Enter(x, v, ctx), x.ref + 1, Name(v, ctx.path, ctx.business));
  }

  /** Tables that differ at one new id only: at most that id is newly unfinished. */
  lemma UnfinishedElsewhere(x: Exports, y: Exports, id: nat, name: Name)
    requires id !in x.futures && (y.futures == x.futures || y.futures == x.futures[id := Unsettled])
    requires y.names == x.names[id := name]
    requires forall i <- x.futures :: i in x.names
    ensures |Unfinished(y)| == |Unfinished(x)| + if id in Unfinished(y) then 1 else 0
  {
    assert Unfinished(y) == if id in Unfinished(y) then Unfinished(x) + {id} else Unfinished(x);
  }

  /** Everything one grant keeps. */
  ghost predicate Granted1(x: Exports, y: Exports, r: Option<Reference>) {
    && ExportsOk(y) && Extends(x, y) && Calls(y) == Calls(x)
    && (forall id: nat :: GrantsOf(y, id) == GrantsOf(x, id) + if r.Some? && !r.value.home &&
       r.value.id == id then 1 else 0)
  }

  lemma KnownEntryEffect(x: Exports, records: seq<Record>, v: Local, ctx: Context)
    requires ExportsOk(x) && v in x.identities && x.identities[v] in x.entries
    ensures var (y, r) := GrantOne(x, records, Own(v), ctx);
      Granted1(x, y, r) && (r.Some? ==> Stands(y, records, r.value, Own(v)))
  {
    BumpEffect(x, x.identities[v]);
    SameFutures(x, Bump(x, x.identities[v]).0);
  }

  lemma NewEntryEffect(x: Exports, records: seq<Record>, v: Local, ctx: Context)
    requires ExportsOk(x) && x.ref + 1 <= MAX_SAFE && !(v.kind.Plugin? && !ctx.plugins)
    requires v !in x.identities || x.identities[v] !in x.entries
    ensures var (y, r) := GrantOne(x, records, Own(v), ctx);
      Granted1(x, y, r) && (r.Some? ==> Stands(y, records, r.value, Own(v)))
  {
    var z := Enter(x, v, ctx);
    EnterEffect(x, v, ctx);
    BumpEffect(z, x.ref + 1);
    SameFutures(z, Bump(z, x.ref + 1).0);
  }

  lemma SpentEffect(x: Exports, records: seq<Record>, v: Local, ctx: Context)
    requires ExportsOk(x) && (v !in x.identities || x.identities[v] !in x.entries)
    requires x.ref + 1 > MAX_SAFE || (v.kind.Plugin? && !ctx.plugins)
    ensures var (y, r) := GrantOne(x, records, Own(v), ctx); Granted1(x, y, r) && r.None?
  {
    SameFutures(x, x.(ref := x.ref + 1));
  }

  lemma GrantOneEffect(x: Exports, records: seq<Record>, item: Item, ctx: Context)
    requires ExportsOk(x)
    ensures var (y, r) := GrantOne(x, records, item, ctx);
      Granted1(x, y, r) && (r.Some? ==> Stands(y, records, r.value, item))
  {
    match item
    case Imported(k) =>
    case Own(v) =>
      if v in x.identities && x.identities[v] in x.entries {
        KnownEntryEffect(x, records, v, ctx);
      } else if x.ref + 1 > MAX_SAFE || (v.kind.Plugin? && !ctx.plugins) {
        SpentEffect(x, records, v, ctx);
      } else {
        NewEntryEffect(x, records, v, ctx);
      }
  }

  function CountIds(ids: seq<nat>, id: nat): nat {
    if ids == [] then 0 else CountIds(ids[..|ids| - 1], id) + if ids[|ids| - 1] == id then 1 else 0
  }

  lemma ExtendsTrans(x: Exports, y: Exports, z: Exports)
    requires Extends(x, y) && Extends(y, z)
    ensures Extends(x, z)
  {}

  lemma StandsLater(x: Exports, y: Exports, records: seq<Record>, r: Reference, item: Item)
    requires Stands(x, records, r, item) && Extends(x, y)
    ensures Stands(y, records, r, item)
  {}

  /** Encoding grants exactly the references it writes. */
  lemma {:induction false} GrantEffect(x: Exports, records: seq<Record>, items: seq<Item>, ctx: Context)
    requires ExportsOk(x)
    ensures var g := Grant(x, records, items, ctx);
      && ExportsOk(g.exports) && Extends(x, g.exports) && Calls(g.exports) == Calls(x)
      && (forall id: nat :: GrantsOf(g.exports, id) == GrantsOf(x, id) + Grants(g.refs, id))
    decreases |items|
  {
    if items != [] {
      var front, last := items[..|items| - 1], items[|items| - 1];
      GrantEffect(x, records, front, ctx);
      var g := Grant(x, records, front, ctx);
      if g.ok {
        GrantOneEffect(g.exports, records, last, ctx);
        var (y, r) := GrantOne(g.exports, records, last, ctx);
        ExtendsTrans(x, g.exports, y);
        if r.Some? { assert (g.refs + [r.value])[..|g.refs|] == g.refs; }
      }
    }
  }

  /** The ids it notes for a rollback are those it granted. */
  lemma {:induction false} GrantIds(x: Exports, records: seq<Record>, items: seq<Item>, ctx: Context, id: nat)
    ensures var g := Grant(x, records, items, ctx); CountIds(g.ids, id) == Grants(g.refs, id)
    decreases |items|
  {
    if items != [] {
      GrantIds(x, records, items[..|items| - 1], ctx, id);
      var g, h := Grant(x, records, items[..|items| - 1], ctx), Grant(x, records, items, ctx);
      if h.ok {
        assert h.refs[..|h.refs| - 1] == g.refs;
        if !h.refs[|h.refs| - 1].home { assert h.ids[..|h.ids| - 1] == g.ids; }
      }
    }
  }

  /** Each reference written stands for its item. */
  lemma {:induction false} GrantStands(x: Exports, records: seq<Record>, items: seq<Item>, ctx: Context)
    requires ExportsOk(x)
    ensures var g := Grant(x, records, items, ctx);
      && |g.refs| <= |items| && (g.ok ==> |g.refs| == |items|)
      && (forall i :: 0 <= i < |g.refs| ==> Stands(g.exports, records, g.refs[i], items[i]))
    decreases |items|
  {
    if items != [] {
      var front, last := items[..|items| - 1], items[|items| - 1];
      GrantStands(x, records, front, ctx);
      var g, h := Grant(x, records, front, ctx), Grant(x, records, items, ctx);
      if g.ok {
        GrantEffect(x, records, front, ctx);
        GrantOneEffect(g.exports, records, last, ctx);
        forall i | 0 <= i < |h.refs| ensures Stands(h.exports, records, h.refs[i], items[i]) {
          if i < |g.refs| { StandsLater(g.exports, h.exports, records, g.refs[i], front[i]); }
        }
      }
    }
  }

  // ── Rolling back ────────────────────────────────────────────────

  lemma DropEffect(x: Exports, id: nat)
    requires ExportsOk(x) && GrantsOf(x, id) >= 1
    ensures var y := Drop(x, id);
      && ExportsOk(y) && y == x.(entries := y.entries)
      && (forall i: nat :: GrantsOf(y, i) == GrantsOf(x, i) - if i == id then 1 else 0)
  {}

  /** Taking back grants that were given leaves the others. */
  lemma {:induction false} RollbackEffect(x: Exports, ids: seq<nat>)
    requires ExportsOk(x)
    requires forall id: nat :: CountIds(ids, id) <= GrantsOf(x, id)
    ensures var y := Rollback(x, ids);
      && ExportsOk(y) && y == x.(entries := y.entries)
      && (forall id: nat :: GrantsOf(y, id) == GrantsOf(x, id) - CountIds(ids, id))
    decreases |ids|
  {
    if ids != [] {
      var front, last := ids[..|ids| - 1], ids[|ids| - 1];
      forall id: nat ensures CountIds(front, id) + (if id == last then 1 else 0) <= GrantsOf(x, id) {
        assert CountIds(ids, id) <= GrantsOf(x, id);
      }
      RollbackEffect(x, front);
      DropEffect(Rollback(x, front), last);
    }
  }

  /** Entries are what their grants and the names say. */
  lemma SameEntries(x: Exports, y: Exports)
    requires ExportsOk(x) && ExportsOk(y) && Extends(x, y)
    requires forall id: nat :: GrantsOf(y, id) == GrantsOf(x, id)
    ensures y.entries == x.entries
  {
    forall id: nat ensures id in y.entries <==> id in x.entries {
      assert GrantsOf(y, id) == GrantsOf(x, id);
    }
    assert y.entries.Keys == x.entries.Keys;
    forall id | id in x.entries ensures y.entries[id] == x.entries[id] {
      assert GrantsOf(y, id) == GrantsOf(x, id);
      assert y.entries[id].name == y.names[id] == x.names[id];
    }
  }

  /** A refused encoding leaves every entry and every grant as it was; only ids were spent. */
  lemma RefusedEncodingRestores(x: Exports, records: seq<Record>, items: seq<Item>, encodes: bool, ctx: Context)
    requires ExportsOk(x)
    requires Encode(x, records, items, encodes, ctx).1.None?
    ensures var y := Encode(x, records, items, encodes, ctx).0;
      y.entries == x.entries && ExportsOk(y) && Extends(x, y) && Calls(y) == Calls(x)
  {
    var g := Grant(x, records, items, ctx);
    GrantEffect(x, records, items, ctx);
    forall id: nat ensures CountIds(g.ids, id) == Grants(g.refs, id) {
      GrantIds(x, records, items, ctx, id);
    }
    RollbackEffect(g.exports, g.ids);
    var y := Rollback(g.exports, g.ids);
    SameFutures(g.exports, y);
    SameEntries(x, y);
  }

  /** What `Encode` keeps either way: every grant is of a reference written. */
  lemma EncodeEffect(x: Exports, records: seq<Record>, items: seq<Item>, encodes: bool, ctx: Context)
    requires ExportsOk(x)
    ensures var (y, refs) := Encode(x, records, items, encodes, ctx);
      && ExportsOk(y) && Extends(x, y) && Calls(y) == Calls(x)
      && (forall id: nat :: GrantsOf(y, id) == GrantsOf(x, id) + if refs.Some? then Grants(refs.value, id) else 0)
      && (refs.Some? ==> |refs.value| == |items| && forall i :: 0 <= i < |items| ==>
         Stands(y, records, refs.value[i], items[i]))
  {
    if Encode(x, records, items, encodes, ctx).1.None? {
      RefusedEncodingRestores(x, records, items, encodes, ctx);
    } else {
      GrantEffect(x, records, items, ctx);
      GrantStands(x, records, items, ctx);
    }
  }

  lemma TakeBackEffect(x: Exports, id: nat, count: nat)
    requires ExportsOk(x) && id in x.entries && count <= x.entries[id].grants
    ensures var y := TakeBack(x, id, count);
      && ExportsOk(y) && y == x.(entries := y.entries) && Calls(y) == Calls(x)
      && (forall i: nat :: GrantsOf(y, i) == GrantsOf(x, i) - if i == id then count else 0)
  {
    SameFutures(x, TakeBack(x, id, count));
  }

  // ── Receiving ───────────────────────────────────────────────────

  lemma {:induction false} HeldUpdate(records: seq<Record>, k: nat, record: Record, id: nat)
    requires k < |records|
    ensures Held(records[k := record], id) + Holds(records[k], id) == Held(records, id) + Holds(record, id)
    decreases |records|
  {
    var front := records[..|records| - 1];
    if k == |records| - 1 {
      assert records[k := record][..|records| - 1] == front;
    } else {
      HeldUpdate(front, k, record, id);
      assert records[k := record][..|records| - 1] == front[k := record];
    }
  }

  lemma HeldOne(records: seq<Record>, record: Record, id: nat)
    ensures Held(records + [record], id) == Held(records, id) + Holds(record, id)
  {
    assert (records + [record])[..|records|] == records;
  }

  lemma {:induction false} HeldAtLeast(records: seq<Record>, k: nat)
    requires k < |records| && !records[k].released
    ensures Held(records, records[k].id) >= records[k].grants
    decreases |records|
  {
    if k < |records| - 1 {
      HeldAtLeast(records[..|records| - 1], k);
    }
  }

  /** A record is of one of these references, as the far end granted it. */
  ghost predicate Known(offers: set<Reference>, x: Record) {
    Reference(x.id, x.kind, false, x.origin) in offers
  }

  ghost predicate AllKnown(offers: set<Reference>, records: seq<Record>) {
    forall k :: 0 <= k < |records| ==> Known(offers, records[k])
  }

  lemma NewRecord(m: Imports, r: Record, id: nat)
    requires ImportsOk(m) && r.grants == 1 && !r.released
    ensures Held(m.records + [r], id) == Held(m.records, id) + if r.id == id then 1 else 0
    ensures ImportsOk(m.(records := m.records + [r]))
    ensures ImportsOk(Imports(m.current[r.id := |m.records|], m.records + [r]))
  {
    HeldOne(m.records, r, id);
  }

  lemma MoreGrants(m: Imports, k: nat, id: nat)
    requires ImportsOk(m) && k < |m.records| && !m.records[k].released
    ensures var r := m.records[k].(grants := m.records[k].grants + 1);
      && Held(m.records[k := r], id) == Held(m.records, id) + (if r.id == id then 1 else 0)
      && ImportsOk(m.(records := m.records[k := r]))
  {
    HeldUpdate(m.records, k, m.records[k].(grants := m.records[k].grants + 1), id);
  }

  /** What decoding one reference keeps: one more grant held, of the reference it is. */
  lemma DecodeOneEffect(x: Exports, d: Decoding, r: Reference, host: bool, id: nat)
    requires ImportsOk(d.imports) && !DecodeOne(x, d, r, host).fault
    ensures var e := DecodeOne(x, d, r, host);
      && ImportsOk(e.imports) && |e.imports.records| >= |d.imports.records|
      && Held(e.imports.records, id) == Held(d.imports.records, id) + if !r.home && r.id == id then 1 else 0
  {
    var m := d.imports;
    if !r.home {
      if r.kind.Plugin? && !host {
        NewRecord(m, Record(r.id, r.kind, r.origin, 1, false, false), id);
      } else {
        match Current(m, r.id)
        case Some(k) => MoreGrants(m, k, id);
        case None => NewRecord(m, Record(r.id, r.kind, r.origin, 1, true, false), id);
      }
    }
  }

  lemma DecodeOneKnown(x: Exports, d: Decoding, r: Reference, host: bool, offers: set<Reference>)
    requires ImportsOk(d.imports) && AllKnown(offers, d.imports.records) && (r.home || r in offers)
    ensures AllKnown(offers, DecodeOne(x, d, r, host).imports.records)
  {
    var m, e := d.imports, DecodeOne(x, d, r, host);
    forall k | 0 <= k < |e.imports.records| ensures Known(offers, e.imports.records[k]) {
      if k < |m.records| { assert Known(offers, m.records[k]); }
    }
  }

  /** Decoding a frame that is not a fault holds exactly the grants it carries. */
  lemma {:induction false} DecodeEffect(x: Exports, m: Imports, refs: seq<Reference>, host: bool)
    requires ImportsOk(m) && !Decode(x, m, refs, host).fault
    ensures var d := Decode(x, m, refs, host);
      && ImportsOk(d.imports) && |d.imports.records| >= |m.records|
      && (forall id: nat :: Held(d.imports.records, id) == Held(m.records, id) + Grants(refs, id))
    decreases |refs|
  {
    if refs != [] {
      DecodeEffect(x, m, refs[..|refs| - 1], host);
      var d := Decode(x, m, refs[..|refs| - 1], host);
      DecodeOneEffect(x, d, refs[|refs| - 1], host, 0);
      forall id: nat
        ensures Held(Decode(x, m, refs, host).imports.records, id) == Held(m.records, id) + Grants(refs, id)
      {
        DecodeOneEffect(x, d, refs[|refs| - 1], host, id);
      }
    }
  }

  /** Every record after decoding is of a reference already known or in the frame. */
  lemma {:induction false} DecodeKnown(x: Exports, m: Imports, refs: seq<Reference>, host: bool, offers: set<Reference>)
    requires ImportsOk(m) && !Decode(x, m, refs, host).fault && AllKnown(offers, m.records)
    requires forall r <- refs :: !r.home ==> r in offers
    ensures AllKnown(offers, Decode(x, m, refs, host).imports.records)
    decreases |refs|
  {
    if refs != [] {
      var front := refs[..|refs| - 1];
      DecodeKnown(x, m, front, host, offers);
      DecodeEffect(x, m, front, host);
      DecodeOneKnown(x, Decode(x, m, front, host), refs[|refs| - 1], host, offers);
    }
  }

  // ── Giving back ─────────────────────────────────────────────────

  /** What a giving back keeps: held plus given back is what it was, and every record its reference. */
  ghost predicate Gives(m: Imports, n: Imports, frames: seq<Frame>) {
    && ImportsOk(n) && |n.records| == |m.records|
    && (forall id: nat :: Held(n.records, id) + Total(Released(id), frames) == Held(m.records, id))
    && (forall k :: 0 <= k < |n.records| ==> Alike(m.records[k], n.records[k]))
    && (forall i :: 0 <= i < |frames| ==> frames[i].Release? && frames[i].count >= 1)
  }

  ghost predicate Alike(r: Record, s: Record) {
    r.id == s.id && r.kind == s.kind && r.origin == s.origin && (r.released ==> s.released)
  }

  lemma OneRelease(m: Imports, k: nat, record: Record, count: nat, id: nat)
    requires k < |m.records| && Alike(m.records[k], record)
    requires Holds(m.records[k], m.records[k].id) == Holds(record, record.id) + count
    ensures Held(m.records[k := record], id) + Total(Released(id), [Release(record.id, count)]) == Held(m.records, id)
  {
    HeldUpdate(m.records, k, record, id);
    TotalOne(Released(id), [], Release(record.id, count));
    assert [] + [Release(record.id, count)] == [Release(record.id, count)];
  }

  lemma GiveBackEffect(m: Imports, k: nat)
    requires ImportsOk(m)
    ensures var (n, frames) := GiveBack(m, k); Gives(m, n, frames)
  {
    if k < |m.records| && !m.records[k].released {
      var (n, frames) := GiveBack(m, k);
      forall id: nat ensures Held(n.records, id) + Total(Released(id), frames) == Held(m.records, id) {
        OneRelease(m, k, n.records[k], m.records[k].grants, id);
      }
    }
  }

  lemma GiveSomeEffect(m: Imports, k: nat, count: nat)
    requires ImportsOk(m) && count >= 1
    ensures var (n, frames) := GiveSome(m, k, count); Gives(m, n, frames)
  {
    if k < |m.records| && !m.records[k].released {
      if count >= m.records[k].grants {
        GiveBackEffect(m, k);
      } else {
        var (n, frames) := GiveSome(m, k, count);
        forall id: nat ensures Held(n.records, id) + Total(Released(id), frames) == Held(m.records, id) {
          OneRelease(m, k, n.records[k], count, id);
        }
      }
    }
  }

  lemma GivesTrans(m: Imports, n: Imports, o: Imports, first: seq<Frame>, rest: seq<Frame>)
    requires Gives(m, n, first) && Gives(n, o, rest)
    ensures Gives(m, o, first + rest)
  {
    forall id: nat ensures Held(o.records, id) + Total(Released(id), first + rest) == Held(m.records, id) {
      TotalSplit(Released(id), first, rest);
      assert Held(o.records, id) + Total(Released(id), rest) == Held(n.records, id);
    }
  }

  lemma {:induction false} DismissEffect(m: Imports, imported: seq<nat>)
    requires ImportsOk(m)
    ensures var (n, frames) := Dismiss(m, imported); Gives(m, n, frames)
    decreases |imported|
  {
    if imported != [] {
      var k := imported[0];
      var (one, first) := GiveSome(m, k, Count(imported, k));
      GiveSomeEffect(m, k, Count(imported, k));
      var (all, rest) := Dismiss(one, Without(imported[1..], k));
      DismissEffect(one, Without(imported[1..], k));
      GivesTrans(m, one, all, first, rest);
    }
  }

  /** Taking a payload, refused or not: held plus given back is what was held plus what it grants. */
  lemma TakeEffect(x: Exports, m: Imports, payload: Payload, host: bool, offers: set<Reference>)
    requires ImportsOk(m) && AllKnown(offers, m.records) && !Take(x, m, payload, host).fault
    requires forall r <- payload.refs :: !r.home ==> r in offers
    ensures var k := Take(x, m, payload, host);
      && ImportsOk(k.imports) && AllKnown(offers, k.imports.records)
      && (forall id: nat ::
         Held(k.imports.records, id) + Total(Released(id), k.releases) == Held(m.records, id) + Grants(payload.refs, id))
      && (forall i :: 0 <= i < |k.releases| ==> k.releases[i].Release? && k.releases[i].count >= 1)
  {
    var d := Decode(x, m, payload.refs, host);
    DecodeEffect(x, m, payload.refs, host);
    DecodeKnown(x, m, payload.refs, host, offers);
    DismissEffect(d.imports, d.imported);
    var (n, frames) := Dismiss(d.imports, d.imported);
    forall k | 0 <= k < |n.records| ensures Known(offers, n.records[k]) {
      assert Known(offers, d.imports.records[k]) && Alike(d.imports.records[k], n.records[k]);
    }
  }
}
