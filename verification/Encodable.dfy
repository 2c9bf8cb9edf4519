/** When the references in a value can be sent, and what sending them exports. */
module Encodable {
  import opened Wire
  import opened References

  // ── What is asked of a value's references ───────────────────────

  /** A value of this side is exported now. */
  predicate IsOut(x: Exports, v: Local) {
    v in x.identities && x.identities[v] in x.entries
  }

  function GrantsFor(x: Exports, v: Local): nat {
    if IsOut(x, v) then x.entries[x.identities[v]].grants else 0
  }

  /** The values among `items` that are not exported yet. */
  function Newcomers(x: Exports, items: seq<Item>): set<Local> {
    set it <- items | it.Own? && !IsOut(x, it.value) :: it.value
  }

  /** One of them can be sent: a proxy that is not released; or a value whose grants, with all of
      these, can be counted. */
  predicate CanGo(x: Exports, records: seq<Record>, items: seq<Item>, it: Item) {
    match it
    case Imported(k) => k < |records| && !records[k].released
    case Own(v) => GrantsFor(x, v) + multiset(items)[it] <= MAX_SAFE
  }

  /** All of them can; ids are left for the newcomers; and none of these is a plugin the far end
      does not take. */
  ghost predicate CanEncode(x: Exports, records: seq<Record>, items: seq<Item>, ctx: Context) {
    && (forall it <- items :: CanGo(x, records, items, it))
    && (Newcomers(x, items) == {} || x.ref + |Newcomers(x, items)| <= MAX_SAFE)
    && (ctx.plugins || forall v <- Newcomers(x, items) :: !v.kind.Plugin?)
  }

  // ── One at a time ───────────────────────────────────────────────

  predicate CanGrant(x: Exports, records: seq<Record>, item: Item, ctx: Context) {
    match item
    case Imported(k) => k < |records| && !records[k].released
    case Own(v) =>
      if IsOut(x, v) then GrantsFor(x, v) + 1 <= MAX_SAFE
      else x.ref + 1 <= MAX_SAFE && (ctx.plugins || !v.kind.Plugin?)
  }

  /** `v` is exported once more, if it is sent by `item`. */
  ghost predicate Out(x: Exports, y: Exports, item: Item, v: Local) {
    && (IsOut(y, v) <==> IsOut(x, v) || item == Own(v))
    && GrantsFor(y, v) == GrantsFor(x, v) + if item == Own(v) then 1 else 0
  }

  /** Names given since are those of values sent, under the path and the business they were sent in. */
  ghost predicate NamedFor(x: Exports, y: Exports, items: seq<Item>, ctx: Context) {
    forall id <- y.names :: id !in x.names ==> NameFor(y.names[id], items, ctx)
  }

  predicate NameFor(name: Name, items: seq<Item>, ctx: Context) {
    Own(name.value) in items && name.origin == ctx.path && name.business == ctx.business
  }

  /** No two values have one id. */
  lemma OwnIds(x: Exports, v: Local, u: Local)
    requires NamesOk(x) && v in x.identities && u in x.identities && x.identities[v] == x.identities[u]
    ensures v == u
  {}

  lemma BumpOut(x: Exports, v: Local, u: Local)
    requires NamesOk(x) && IsOut(x, v) && GrantsFor(x, v) + 1 <= MAX_SAFE
    ensures Out(x, Bump(x, x.identities[v]).0, Own(v), u)
  {
    if u in x.identities && x.identities[u] == x.identities[v] { OwnIds(x, u, v); }
  }

  lemma EnterOut(x: Exports, v: Local, ctx: Context, u: Local)
    requires ExportsOk(x) && !IsOut(x, v)
    ensures var y := Bump(Enter(x, v, ctx), x.ref + 1).0; Out(x, y, Own(v), u)
  {
    assert x.ref + 1 !in x.names && x.ref + 1 !in x.entries;
    assert u in x.identities ==> x.identities[u] in x.names;
  }

  /** One reference is written exactly when it can be; and what that exports. */
  lemma GrantOneExactly(x: Exports, records: seq<Record>, item: Item, ctx: Context)
    requires ExportsOk(x)
    ensures var (y, r) := GrantOne(x, records, item, ctx);
      && (r.Some? <==> CanGrant(x, records, item, ctx))
      && (r.Some? ==>
          && (forall v: Local :: Out(x, y, item, v))
          && y.ref == x.ref + (if item.Own? && !IsOut(x, item.value) then 1 else 0)
          && NamedFor(x, y, [item], ctx))
  {
    var (y, r) := GrantOne(x, records, item, ctx);
    if r.Some? {
      forall v: Local ensures Out(x, y, item, v) {
        if item.Own? && IsOut(x, item.value) { BumpOut(x, item.value, v); }
        else if item.Own? { EnterOut(x, item.value, ctx, v); }
      }
    }
  }

  // ── All of them ─────────────────────────────────────────────────

  /** Each value is granted once for each time it is sent. */
  ghost predicate AllOut(x: Exports, y: Exports, items: seq<Item>) {
    && (forall v: Local :: IsOut(y, v) <==> IsOut(x, v) || Own(v) in items)
    && (forall v: Local :: GrantsFor(y, v) == GrantsFor(x, v) + multiset(items)[Own(v)])
    && y.ref == x.ref + |Newcomers(x, items)|
  }

  lemma OneMoreIn(items: seq<Item>, last: Item)
    ensures multiset(items + [last]) == multiset(items) + multiset{last}
    ensures forall it :: it in items + [last] <==> it in items || it == last
  {}

  lemma NewcomersMore(x: Exports, items: seq<Item>, last: Item)
    ensures Newcomers(x, items + [last]) ==
      Newcomers(x, items) + if last.Own? && !IsOut(x, last.value) then {last.value} else {}
    ensures |Newcomers(x, items + [last])| ==
      |Newcomers(x, items)| + if last.Own? && !IsOut(x, last.value) && last !in items then 1 else 0
  {
    OneMoreIn(items, last);
    assert Newcomers(x, items + [last]) ==
      Newcomers(x, items) + if last.Own? && !IsOut(x, last.value) then {last.value} else {};
    if last.Own? && !IsOut(x, last.value) && last in items {
      assert Newcomers(x, items) + {last.value} == Newcomers(x, items);
    }
  }

  lemma OutMore(x: Exports, y: Exports, z: Exports, items: seq<Item>, last: Item)
    requires AllOut(x, y, items) && (forall v: Local :: Out(y, z, last, v))
    requires z.ref == y.ref + if last.Own? && !IsOut(y, last.value) then 1 else 0
    ensures AllOut(x, z, items + [last])
  {
    OneMoreIn(items, last);
    NewcomersMore(x, items, last);
    hide IsOut, GrantsFor, Newcomers;
    forall v: Local
      ensures IsOut(z, v) <==> IsOut(x, v) || Own(v) in items + [last]
      ensures GrantsFor(z, v) == GrantsFor(x, v) + multiset(items + [last])[Own(v)]
    {
      assert Out(y, z, last, v);
    }
  }

  lemma FewerCanGo(x: Exports, records: seq<Record>, items: seq<Item>, last: Item, it: Item)
    requires it in items
    ensures CanGo(x, records, items + [last], it) ==> CanGo(x, records, items, it)
    ensures it != last ==> CanGo(x, records, items + [last], it) == CanGo(x, records, items, it)
  {
    OneMoreIn(items, last);
    hide GrantsFor;
  }

  /** One more can be sent exactly when the others can, and then it. */
  lemma CanEncodeMore(x: Exports, y: Exports, records: seq<Record>, items: seq<Item>, last: Item, ctx: Context)
    requires CanEncode(x, records, items, ctx) && AllOut(x, y, items)
    ensures CanEncode(x, records, items + [last], ctx) <==> CanGrant(y, records, last, ctx)
  {
    var more := items + [last];
    OneMoreIn(items, last);
    NewcomersMore(x, items, last);
    assert last in more;
    forall it <- items ensures CanGo(x, records, items, it) {}
    forall it <- items ensures it != last ==> CanGo(x, records, more, it) { FewerCanGo(x, records, items, last, it); }
    if last.Own? { assert GrantsFor(y, last.value) == GrantsFor(x, last.value) + multiset(items)[last]; }
    hide GrantsFor, Newcomers;
  }

  lemma CannotEncodeMore(x: Exports, records: seq<Record>, items: seq<Item>, last: Item, ctx: Context)
    requires CanEncode(x, records, items + [last], ctx)
    ensures CanEncode(x, records, items, ctx)
  {
    OneMoreIn(items, last);
    NewcomersMore(x, items, last);
    hide GrantsFor, IsOut, Newcomers;
    forall it <- items ensures CanGo(x, records, items, it) { FewerCanGo(x, records, items, last, it); }
  }

  lemma NoneOut(x: Exports, records: seq<Record>, ctx: Context)
    requires ExportsOk(x)
    ensures CanEncode(x, records, [], ctx)
    ensures AllOut(x, x, [])
  {
    assert Newcomers(x, []) == {};
  }

  lemma NamedMore(x: Exports, y: Exports, z: Exports, items: seq<Item>, last: Item, ctx: Context)
    requires NamedFor(x, y, items, ctx) && NamedFor(y, z, [last], ctx) && Extends(x, y) && Extends(y, z)
    ensures NamedFor(x, z, items + [last], ctx)
  {
    forall id <- z.names | id !in x.names ensures NameFor(z.names[id], items + [last], ctx) {
      if id in y.names { assert NameFor(y.names[id], items, ctx); } else { assert NameFor(z.names[id], [last], ctx); }
    }
  }

  lemma {:induction false} GrantExactly(x: Exports, records: seq<Record>, items: seq<Item>, ctx: Context)
    requires ExportsOk(x)
    ensures var g := Grant(x, records, items, ctx);
      && (g.ok <==> CanEncode(x, records, items, ctx))
      && (g.ok ==> AllOut(x, g.exports, items) && NamedFor(x, g.exports, items, ctx))
    decreases |items|
  {
    hide GrantOne, CanEncode, AllOut, NamedFor, ExportsOk, CanGrant, Out;
    if items == [] {
      NoneOut(x, records, ctx);
      NamedAlready(x, items, ctx);
    } else {
      var front, last := items[..|items| - 1], items[|items| - 1];
      assert items == front + [last];
      GrantExactly(x, records, front, ctx);
      GrantEffect(x, records, front, ctx);
      if CanEncode(x, records, items, ctx) { CannotEncodeMore(x, records, front, last, ctx); }
      var g := Grant(x, records, front, ctx);
      if g.ok {
        GrantOneExactly(g.exports, records, last, ctx);
        GrantOneEffect(g.exports, records, last, ctx);
        CanEncodeMore(x, g.exports, records, front, last, ctx);
        var (y, r) := GrantOne(g.exports, records, last, ctx);
        if r.Some? {
          OutMore(x, g.exports, y, front, last);
          NamedMore(x, g.exports, y, front, last, ctx);
        }
      }
    }
  }

  lemma NamedAlready(x: Exports, items: seq<Item>, ctx: Context)
    ensures NamedFor(x, x, items, ctx)
  {}

  /** The references stand for the items, one for each and in their order. */
  ghost predicate AllStand(x: Exports, records: seq<Record>, refs: seq<Reference>, items: seq<Item>) {
    |refs| == |items| && forall i :: 0 <= i < |items| ==> Stands(x, records, refs[i], items[i])
  }

  /** A value's references are sent exactly when nothing else stops the value and all of them can
      be: each stands for its value, each value has one grant more for each time it is sent, and
      what is named anew is one of them, under the path and the business it was sent in. If not,
      the entries are as before. */
  lemma EncodeExactly(x: Exports, records: seq<Record>, items: seq<Item>, encodes: bool, ctx: Context)
    requires ExportsOk(x)
    ensures var (y, refs) := Encode(x, records, items, encodes, ctx);
      && (refs.Some? <==> encodes && CanEncode(x, records, items, ctx))
      && (refs.Some? ==>
          AllStand(y, records, refs.value, items) && AllOut(x, y, items) && NamedFor(x, y, items, ctx))
      && (refs.None? ==> y.entries == x.entries)
  {
    GrantExactly(x, records, items, ctx);
    EncodeEffect(x, records, items, encodes, ctx);
    hide CanEncode, AllOut, NamedFor, Grant, ExportsOk, Stands;
    if Encode(x, records, items, encodes, ctx).1.None? {
      RefusedEncodingRestores(x, records, items, encodes, ctx);
    }
  }
}
