/** What a message is made of: the values in it, as the codec writes them, and the references in
    it, as the tables grant them. */
module Messages {
  import opened Options
  import R = References
  import C = Codec
  import CodecTrip

  // ── What crosses by reference ───────────────────────────────────

  function Joined(lists: seq<seq<C.Value>>): seq<C.Value> {
    if lists == [] then [] else lists[0] + Joined(lists[1..])
  }

  /** A map is written entry by entry, each key before its value. */
  function Entries(keys: seq<seq<C.Value>>, values: seq<seq<C.Value>>): seq<C.Value> {
    if keys == [] || values == [] then [] else keys[0] + values[0] + Entries(keys[1..], values[1..])
  }

  /** What of a value crosses by reference, in the order it is written. */
  function Leaves(v: C.Value): seq<C.Value>
    decreases v, 0
  {
    if C.ByReference(v) then [v]
    else match v
      case List(items) => Joined(LeavesEach(items))
      case Object(_, _, fields) => Joined(LeavesEach(fields))
      case MapOf(keys, values) => Entries(LeavesEach(keys), LeavesEach(values))
      case SetOf(elements) => Joined(LeavesEach(elements))
      case _ => []
  }

  function LeavesEach(vs: seq<C.Value>): (each: seq<seq<C.Value>>)
    ensures |each| == |vs| && forall i :: 0 <= i < |vs| ==> each[i] == Leaves(vs[i])
    decreases vs, 1
  {
    if vs == [] then [] else [Leaves(vs[0])] + LeavesEach(vs[1..])
  }

  /** The references on the wire, in their order. */
  function Refers(w: C.WireValue): seq<C.Value>
    decreases w, 0
  {
    match w
    case WReference(v) => [v]
    case WList(items) => Joined(RefersEach(items))
    case WRecord(_, fields) => Joined(RefersEach(fields))
    case WMap(keys, values) => Entries(RefersEach(keys), RefersEach(values))
    case WSet(elements) => Joined(RefersEach(elements))
    case _ => []
  }

  function RefersEach(ws: seq<C.WireValue>): (each: seq<seq<C.Value>>)
    ensures |each| == |ws| && forall i :: 0 <= i < |ws| ==> each[i] == Refers(ws[i])
    decreases ws, 1
  {
    if ws == [] then [] else [Refers(ws[0])] + RefersEach(ws[1..])
  }

  // ── Encoding keeps them ─────────────────────────────────────────

  lemma {:induction false} JoinedNone(lists: seq<seq<C.Value>>)
    requires forall i :: 0 <= i < |lists| ==> lists[i] == []
    ensures Joined(lists) == []
    decreases |lists|
  {
    if lists != [] { JoinedNone(lists[1..]); }
  }

  /** Plain data holds nothing that crosses by reference. */
  lemma {:induction false} PlainHasNone(v: C.Value)
    requires !C.NeedsRecord(v)
    ensures Leaves(v) == []
    decreases v
  {
    if v.List? {
      forall i | 0 <= i < |v.items| ensures Leaves(v.items[i]) == [] { PlainHasNone(v.items[i]); }
      JoinedNone(LeavesEach(v.items));
    } else if v.Object? {
      forall i | 0 <= i < |v.fields| ensures Leaves(v.fields[i]) == [] { PlainHasNone(v.fields[i]); }
      JoinedNone(LeavesEach(v.fields));
    } else {
      assert C.TagOf(v) == None;
    }
  }

  /** What is written refers to exactly what crosses by reference, in the same order. */
  lemma {:induction false} ReferencesKept(v: C.Value, depth: nat, declared: set<string>)
    requires C.Encode(v, depth, declared).Some?
    ensures Refers(C.Encode(v, depth, declared).value) == Leaves(v)
    decreases v, 1
  {
    if C.ByReference(v) {
    } else if v.List? {
      EachKept(v.items, depth + 1, declared);
    } else if v.MapOf? || v.SetOf? {
      CollectionKept(v, depth, declared);
    } else if v.Object? {
      ObjectKept(v, depth, declared);
    } else {
      hide C.TextOf, C.CheckData, Joined, Entries;
    }
  }

  lemma CollectionKept(v: C.Value, depth: nat, declared: set<string>)
    requires (v.MapOf? || v.SetOf?) && C.Encode(v, depth, declared).Some?
    ensures Refers(C.Encode(v, depth, declared).value) == Leaves(v)
    decreases v, 0
  {
    hide C.EncodeAll, LeavesEach, RefersEach, Joined, Entries, C.NeedsRecord;
    if v.MapOf? {
      EachKept(v.keys, depth + 1, declared);
      EachKept(v.values, depth + 1, declared);
    } else {
      EachKept(v.elements, depth + 1, declared);
    }
  }

  lemma ObjectKept(v: C.Value, depth: nat, declared: set<string>)
    requires v.Object? && !C.ByReference(v) && C.Encode(v, depth, declared).Some?
    ensures Refers(C.Encode(v, depth, declared).value) == Leaves(v)
    decreases v, 0
  {
    if C.NeedsRecord(v) { EachKept(v.fields, depth + 1, declared); } else { PlainHasNone(v); }
    hide C.NeedsRecord, C.EncodeAll, C.CheckData, C.HasMethod, LeavesEach, RefersEach, Joined;
  }

  /** One value after another in a container, written: undefined there is null. */
  lemma {:induction false} EachKept(vs: seq<C.Value>, depth: nat, declared: set<string>)
    requires C.EncodeAll(vs, depth, declared).Some?
    ensures RefersEach(C.EncodeAll(vs, depth, declared).value) == LeavesEach(vs)
    decreases vs, 2
  {
    if vs != [] {
      if !vs[0].Undefined? { ReferencesKept(vs[0], depth, declared); }
      EachKept(vs[1..], depth, declared);
      assert C.EncodeAll(vs, depth, declared).value[1..] == C.EncodeAll(vs[1..], depth, declared).value;
    }
    hide Joined, Entries, C.ByReference;
  }

  // ── A payload ───────────────────────────────────────────────────

  /** Arguments, each encoded on its own, or a result alone. */
  function Written(vs: seq<C.Value>, declared: set<string>): Option<seq<C.WireValue>> {
    if vs == [] then Some([])
    else
      var first, rest := C.Encode(vs[0], 0, declared), Written(vs[1..], declared);
      if first.None? || rest.None? then None else Some([first.value] + rest.value)
  }

  lemma {:induction false} WrittenRefers(vs: seq<C.Value>, declared: set<string>)
    requires Written(vs, declared).Some?
    ensures RefersEach(Written(vs, declared).value) == LeavesEach(vs)
    decreases |vs|
  {
    hide Leaves, Refers, C.Encode;
    if vs != [] {
      ReferencesKept(vs[0], 0, declared);
      WrittenRefers(vs[1..], declared);
      assert Written(vs, declared).value[1..] == Written(vs[1..], declared).value;
    }
  }

  /** The far end takes all of these values. */
  predicate AllTaken(ws: seq<C.WireValue>) {
    forall i :: 0 <= i < |ws| ==> CodecTrip.Decode(ws[i]).Taken?
  }

  lemma {:induction false} TakenExactly(vs: seq<C.Value>, declared: set<string>)
    requires Written(vs, declared).Some?
    ensures AllTaken(Written(vs, declared).value) <==> !CodecTrip.MeetsAny(vs)
    decreases |vs|
  {
    hide C.Encode, CodecTrip.Decode, CodecTrip.Meets;
    if vs != [] {
      var ws := Written(vs, declared).value;
      CodecTrip.RoundTrip(vs[0], 0, declared);
      TakenExactly(vs[1..], declared);
      assert ws[1..] == Written(vs[1..], declared).value;
      assert AllTaken(ws) <==> CodecTrip.Decode(ws[0]).Taken? && AllTaken(ws[1..]);
    }
  }

  /** `of`: which value of this side's, or which proxy, each leaf is. */
  function ItemsOf(leaves: seq<C.Value>, of: C.Value -> R.Item): (items: seq<R.Item>)
    ensures |items| == |leaves| && forall i :: 0 <= i < |leaves| ==> items[i] == of(leaves[i])
  {
    seq(|leaves|, i requires 0 <= i < |leaves| => of(leaves[i]))
  }

  /** A message's values and references are one. Sent, its payload has a reference for each of the
      references written, in their order, that stands for the value there; and the far end takes the
      values exactly when no two keys in them meet. Not sent, nothing stays granted. */
  lemma PayloadIsWritten(
    x: R.Exports, records: seq<R.Record>, vs: seq<C.Value>, declared: set<string>, ctx: R.Context, of: C.Value -> R.Item)
    requires R.ExportsOk(x)
    ensures var written := Written(vs, declared);
      var (y, refs) := R.Encode(x, records, ItemsOf(Joined(LeavesEach(vs)), of), written.Some?, ctx);
      if refs.Some? then
        && written.Some?
        && var leaves := Joined(RefersEach(written.value));
           && |refs.value| == |leaves|
           && (forall i :: 0 <= i < |refs.value| ==> R.Stands(y, records, refs.value[i], of(leaves[i])))
           && (AllTaken(written.value) <==> !CodecTrip.MeetsAny(vs))
      else
        y.entries == x.entries
  {
    var written, items := Written(vs, declared), ItemsOf(Joined(LeavesEach(vs)), of);
    if written.Some? {
      WrittenRefers(vs, declared);
      TakenExactly(vs, declared);
    }
    R.GrantStands(x, records, items, ctx);
    if R.Encode(x, records, items, written.Some?, ctx).1.None? {
      R.RefusedEncodingRestores(x, records, items, written.Some?, ctx);
    }
    hide Written, RefersEach, LeavesEach, Joined, AllTaken, CodecTrip.MeetsAny;
    hide R.Stands, R.Grant, R.Rollback, R.ExportsOk;
  }
}
