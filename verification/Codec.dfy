/** The value codec of a session: what of a JavaScript value crosses, as what on the wire, and
    what it arrives as. */
module Codec {
  import opened Options
  import opened Digits
  import opened Instants
  import opened Keys

  const MAX_DEPTH: nat := 64

  /** A JavaScript value, as a finite tree. `Live`: a Promise, a class instance, an object with
      methods, a received proxy. `record`: a plain object whose fields cross one at a time, methods
      or not. `Foreign`: an object of no other kind (a RegExp, another typed array). */
  datatype Value =
    | Undefined | Null | Bool(b: bool) | Num(n: Number) | Str(s: string) | Symbol
    | Big(i: int) | Instant(ms: Option<int>) | Marked(mark: Mark, text: string) | Bytes(bytes: seq<bv8>)
    | List(items: seq<Value>) | Object(record: bool, names: seq<string>, fields: seq<Value>)
    | MapOf(keys: seq<Value>, values: seq<Value>) | SetOf(elements: seq<Value>)
    | Function(identity: nat) | Live(identity: nat)
    | Error(name: string, message: string, stack: Option<string>)
    | Foreign

  /** A value on the wire. `Tagged`: a text under a tag. */
  datatype WireValue =
    | WUndefined | Data(value: Value) | Tagged(tag: string, text: string) | WBytes(bytes: seq<bv8>)
    | WList(items: seq<WireValue>) | WRecord(names: seq<string>, fields: seq<WireValue>)
    | WMap(keys: seq<WireValue>, values: seq<WireValue>) | WSet(elements: seq<WireValue>)
    | WReference(of: Value)

  // ── What a value is ─────────────────────────────────────────────

  predicate HasMethod(fields: seq<Value>) {
    exists i :: 0 <= i < |fields| && fields[i].Function?
  }

  /** Crosses by reference, its state left with its owner. */
  predicate ByReference(v: Value) {
    v.Function? || v.Live? || (v.Object? && !v.record && HasMethod(v.fields))
  }

  function TagOf(v: Value): Option<string> {
    match v
    case Big(_) => Some("bigint")
    case Instant(_) => Some("instant")
    case MapOf(_, _) => Some("map")
    case SetOf(_) => Some("set")
    case Bytes(_) => Some("bytes")
    case Marked(mark, _) => Some(MarkName(mark))
    case _ => None
  }

  /** Whether JSON text cannot carry a value: something in its arrays and plain objects crosses by
      reference or under a tag. */
  predicate NeedsRecord(v: Value) {
    || ByReference(v) || TagOf(v).Some?
    || (v.List? && exists i :: 0 <= i < |v.items| && NeedsRecord(v.items[i]))
    || (v.Object? && exists i :: 0 <= i < |v.fields| && NeedsRecord(v.fields[i]))
  }

  /** Plain data checked before it crosses as it is. */
  predicate CheckData(v: Value, depth: nat) {
    match v
    case Function(_) => false
    case Symbol => false
    case Num(n) => !n.NonFinite?
    case Undefined => true
    case Null => true
    case Bool(_) => true
    case Str(_) => true
    case Big(_) => true
    case List(items) => depth < MAX_DEPTH && forall i :: 0 <= i < |items| ==> CheckData(items[i], depth + 1)
    case Object(_, _, fields) => depth < MAX_DEPTH && forall i :: 0 <= i < |fields| ==> CheckData(fields[i], depth + 1)
    case _ => false
  }

  /** Plain data as JSON text gives it back: no undefined, no -0. */
  function Json(v: Value): Value {
    match v
    case Undefined => Null
    case Num(n) => Num(Plain(n))
    case List(items) => List(JsonAll(items))
    case Object(_, names, fields) => Object(false, names, JsonAll(fields))
    case _ => v
  }

  function JsonAll(vs: seq<Value>): (js: seq<Value>)
    ensures |js| == |vs|
  {
    if vs == [] then [] else [Json(vs[0])] + JsonAll(vs[1..])
  }

  /** The data an Error is sent as. */
  function ErrorData(v: Value): Value
    requires v.Error?
  {
    Object(false, ["name", "message"] + (if v.stack.Some? then ["stack"] else []),
           [Str(v.name), Str(v.message)] + if v.stack.Some? then [Str(v.stack.value)] else [])
  }

  /** A key as it is sent. */
  function KeyOf(v: Value): Key {
    match v
    case Str(s) => TextKey(s)
    case Bool(b) => BoolKey(b)
    case Num(n) => NumberKey(n)
    case Big(i) => BigKey(i)
    case Marked(mark, text) => if ValidText(mark, text) then MarkedKey(mark, text) else NoKey
    case _ => NoKey
  }

  function KeysOf(vs: seq<Value>): (ks: seq<Key>)
    ensures |ks| == |vs| && forall i :: 0 <= i < |vs| ==> ks[i] == KeyOf(vs[i])
  {
    seq(|vs|, i requires 0 <= i < |vs| => KeyOf(vs[i]))
  }

  predicate BigFits(i: int) {
    |NatText(if i < 0 then -i else i)| <= MAX_DIGITS
  }

  // ── Encoding ────────────────────────────────────────────────────

  /** The text of a tagged value, when it has one. */
  function TextOf(v: Value): Option<string> {
    match v
    case Big(i) => if BigFits(i) then Some(IntText(i)) else None
    case Instant(ms) => if ms.None? then None else InstantText(ms.value)
    case Marked(mark, text) => if ValidText(mark, text) then Some(text) else None
    case _ => None
  }

  /** Encode `v`, with `depth` arrays and objects around it, to a far end that takes the tags
      `declared`; none when it cannot be sent. */
  function Encode(v: Value, depth: nat, declared: set<string>): Option<WireValue>
    decreases v, 1
  {
    if v.Undefined? then Some(WUndefined)
    else if v.Num? then (if v.n.NonFinite? then None else Some(Data(Json(v))))
    else if ByReference(v) then Some(WReference(v))
    else if TagOf(v).Some? then EncodeTagged(v, depth, declared)
    else if v.Symbol? then None
    else if v.Null? || v.Bool? || v.Str? then Some(Data(v))
    else if depth >= MAX_DEPTH then None
    else if v.List? then
      var items := EncodeAll(v.items, depth + 1, declared);
      if items.None? then None else Some(WList(items.value))
    else if v.Error? then Some(Data(ErrorData(v)))
    else if v.Object? && NeedsRecord(v) then
      var fields := EncodeAll(v.fields, depth + 1, declared);
      if fields.None? then None else Some(WRecord(v.names, fields.value))
    else if CheckData(v, depth) then Some(Data(Json(v)))
    else None
  }

  function EncodeTagged(v: Value, depth: nat, declared: set<string>): Option<WireValue>
    requires TagOf(v).Some?
    decreases v, 0
  {
    if TagOf(v).value !in declared then None
    else match v
      case Bytes(bytes) => Some(WBytes(bytes))
      case MapOf(keys, values) =>
        if depth >= MAX_DEPTH || !KeysOk(KeysOf(keys)) then None
        else
          var ks, vs := EncodeAll(keys, depth + 1, declared), EncodeAll(values, depth + 1, declared);
          if ks.None? || vs.None? then None else Some(WMap(ks.value, vs.value))
      case SetOf(elements) =>
        if depth >= MAX_DEPTH || !KeysOk(KeysOf(elements)) then None
        else
          var es := EncodeAll(elements, depth + 1, declared);
          if es.None? then None else Some(WSet(es.value))
      case _ =>
        var text := TextOf(v);
        if text.None? then None else Some(Tagged(TagOf(v).value, text.value))
  }

  /** Encode what a container holds; here undefined becomes null. */
  function EncodeAll(vs: seq<Value>, depth: nat, declared: set<string>): (ws: Option<seq<WireValue>>)
    ensures ws.Some? ==> |ws.value| == |vs|
    decreases vs, 1
  {
    if vs == [] then Some([])
    else
      var first := if vs[0].Undefined? then Some(Data(Null)) else Encode(vs[0], depth, declared);
      var rest := EncodeAll(vs[1..], depth, declared);
      if first.None? || rest.None? then None else Some([first.value] + rest.value)
  }

  // ── What can be sent ────────────────────────────────────────────

  /** The levels of arrays and objects in a value. */
  function Nesting(v: Value): nat
    decreases v, 0
  {
    if ByReference(v) then 0
    else match v
      case List(items) => 1 + Deepest(items)
      case Object(_, _, fields) => 1 + Deepest(fields)
      case MapOf(keys, values) => 1 + Max(Deepest(keys), Deepest(values))
      case SetOf(elements) => 1 + Deepest(elements)
      case Error(_, _, _) => 1
      case Foreign => 1
      case _ => 0
  }

  function Max(m: nat, n: nat): nat {
    if m < n then n else m
  }

  function Deepest(vs: seq<Value>): nat
    decreases vs, 1
  {
    if vs == [] then 0 else Max(Nesting(vs[0]), Deepest(vs[1..]))
  }

  /** An Error in the arrays and plain objects a value is made of. */
  predicate HoldsError(v: Value) {
    || v.Error?
    || (v.List? && exists i :: 0 <= i < |v.items| && HoldsError(v.items[i]))
    || (v.Object? && exists i :: 0 <= i < |v.fields| && HoldsError(v.fields[i]))
  }

  /** What can be sent, levels aside: numbers are finite, texts are valid, tags declared, keys
      are keys and distinct, nothing is a symbol or foreign; and an Error is not inside an object
      of plain data, which alone is sent as it is. */
  predicate Sendable(v: Value, declared: set<string>) {
    && !v.Symbol? && !v.Foreign?
    && (v.Num? ==> !v.n.NonFinite?)
    && (v.Bytes? ==> "bytes" in declared)
    && (v.Big? ==> "bigint" in declared && BigFits(v.i))
    && (v.Instant? ==> "instant" in declared && v.ms.Some? && FIRST_MS <= v.ms.value <= LAST_MS)
    && (v.Marked? ==> MarkName(v.mark) in declared && ValidText(v.mark, v.text))
    && (v.List? ==> forall i :: 0 <= i < |v.items| ==> Sendable(v.items[i], declared))
    && (v.Object? && !ByReference(v) ==>
        (NeedsRecord(v) || !HoldsError(v)) && forall i :: 0 <= i < |v.fields| ==> Sendable(v.fields[i], declared))
    && (v.MapOf? ==> "map" in declared && KeysOk(KeysOf(v.keys)))
    && (v.MapOf? ==> forall i :: 0 <= i < |v.keys| ==> Sendable(v.keys[i], declared))
    && (v.MapOf? ==> forall i :: 0 <= i < |v.values| ==> Sendable(v.values[i], declared))
    && (v.SetOf? ==> "set" in declared && KeysOk(KeysOf(v.elements)))
    && (v.SetOf? ==> forall i :: 0 <= i < |v.elements| ==> Sendable(v.elements[i], declared))
  }

  // ── Encoding succeeds exactly for what can be sent ──────────────

  lemma {:induction false} DeepestIs(vs: seq<Value>, d: int)
    ensures d + Deepest(vs) <= MAX_DEPTH <==>
      d <= MAX_DEPTH && forall i :: 0 <= i < |vs| ==> d + Nesting(vs[i]) <= MAX_DEPTH
    decreases |vs|
  {
    if vs != [] {
      DeepestIs(vs[1..], d);
      assert forall i :: 1 <= i < |vs| ==> vs[i] == vs[1..][i - 1];
    }
  }

  lemma AllChecked(vs: seq<Value>, depth: nat, declared: set<string>)
    requires depth <= MAX_DEPTH && forall i :: 0 <= i < |vs| ==> !NeedsRecord(vs[i])
    ensures (forall i :: 0 <= i < |vs| ==> CheckData(vs[i], depth)) <==>
      (forall i :: 0 <= i < |vs| ==> Sendable(vs[i], declared)) && (forall i :: 0 <= i < |vs| ==> !HoldsError(vs[i]))
      && depth + Deepest(vs) <= MAX_DEPTH
    decreases vs, 1
  {
    hide CheckData, Sendable, HoldsError, NeedsRecord, Nesting;
    DeepestIs(vs, depth);
    forall i | 0 <= i < |vs|
      ensures CheckData(vs[i], depth) <==>
        Sendable(vs[i], declared) && !HoldsError(vs[i]) && depth + Nesting(vs[i]) <= MAX_DEPTH
    {
      CheckDataIsSendable(vs[i], depth, declared);
    }
  }

  /** Of plain data, the check allows what can be sent, to the same depth. */
  lemma {:induction false} CheckDataIsSendable(v: Value, depth: nat, declared: set<string>)
    requires !NeedsRecord(v) && depth <= MAX_DEPTH
    ensures CheckData(v, depth) <==> Sendable(v, declared) && !HoldsError(v) && depth + Nesting(v) <= MAX_DEPTH
    decreases v, 1
  {
    if v.List? { ListChecked(v, depth, declared); } else if v.Object? { ObjectChecked(v, depth, declared); }
    hide Deepest;
  }

  /** What each of these says of an array. */
  lemma ListIs(v: Value, depth: nat, declared: set<string>)
    requires v.List?
    ensures CheckData(v, depth) <==>
      depth < MAX_DEPTH && forall i :: 0 <= i < |v.items| ==> CheckData(v.items[i], depth + 1)
    ensures Sendable(v, declared) <==> forall i :: 0 <= i < |v.items| ==> Sendable(v.items[i], declared)
    ensures HoldsError(v) <==> exists i :: 0 <= i < |v.items| && HoldsError(v.items[i])
    ensures NeedsRecord(v) <==> exists i :: 0 <= i < |v.items| && NeedsRecord(v.items[i])
    ensures Nesting(v) == 1 + Deepest(v.items)
  {
    hide Deepest, HasMethod;
  }

  /** And of an object of plain data. */
  lemma PlainObjectIs(v: Value, depth: nat, declared: set<string>)
    requires v.Object? && !NeedsRecord(v)
    ensures CheckData(v, depth) <==>
      depth < MAX_DEPTH && forall i :: 0 <= i < |v.fields| ==> CheckData(v.fields[i], depth + 1)
    ensures Sendable(v, declared) <==>
      !HoldsError(v) && forall i :: 0 <= i < |v.fields| ==> Sendable(v.fields[i], declared)
    ensures HoldsError(v) <==> exists i :: 0 <= i < |v.fields| && HoldsError(v.fields[i])
    ensures forall i :: 0 <= i < |v.fields| ==> !NeedsRecord(v.fields[i])
    ensures Nesting(v) == 1 + Deepest(v.fields)
  {
    hide Deepest, HasMethod;
  }

  lemma ListChecked(v: Value, depth: nat, declared: set<string>)
    requires v.List? && !NeedsRecord(v) && depth <= MAX_DEPTH
    ensures CheckData(v, depth) <==> Sendable(v, declared) && !HoldsError(v) && depth + Nesting(v) <= MAX_DEPTH
    decreases v, 0
  {
    hide *;
    ListIs(v, depth, declared);
    if depth < MAX_DEPTH { AllChecked(v.items, depth + 1, declared); }
  }

  lemma ObjectChecked(v: Value, depth: nat, declared: set<string>)
    requires v.Object? && !NeedsRecord(v) && depth <= MAX_DEPTH
    ensures CheckData(v, depth) <==> Sendable(v, declared) && !HoldsError(v) && depth + Nesting(v) <= MAX_DEPTH
    decreases v, 0
  {
    hide *;
    PlainObjectIs(v, depth, declared);
    if depth < MAX_DEPTH { AllChecked(v.fields, depth + 1, declared); }
  }

  lemma {:induction false} AllEncode(vs: seq<Value>, depth: nat, declared: set<string>)
    requires depth <= MAX_DEPTH
    ensures EncodeAll(vs, depth, declared).Some? <==>
      (forall i :: 0 <= i < |vs| ==> Sendable(vs[i], declared)) && depth + Deepest(vs) <= MAX_DEPTH
    decreases vs, 2
  {
    if vs != [] {
      EncodesExactly(vs[0], depth, declared);
      AllEncode(vs[1..], depth, declared);
      assert forall i :: 1 <= i < |vs| ==> vs[i] == vs[1..][i - 1];
    }
  }

  lemma ObjectEncodes(v: Value, depth: nat, declared: set<string>)
    requires v.Object? && !ByReference(v) && depth < MAX_DEPTH
    ensures Encode(v, depth, declared).Some? <==> Sendable(v, declared) && depth + Nesting(v) <= MAX_DEPTH
    decreases v, 0
  {
    if NeedsRecord(v) { AllEncode(v.fields, depth + 1, declared); } else { CheckDataIsSendable(v, depth, declared); }
  }

  lemma CollectionEncodes(v: Value, depth: nat, declared: set<string>)
    requires (v.MapOf? || v.SetOf?) && depth < MAX_DEPTH
    ensures Encode(v, depth, declared).Some? <==> Sendable(v, declared) && depth + Nesting(v) <= MAX_DEPTH
    decreases v, 0
  {
    hide KeysOk, KeysOf, EncodeAll, Deepest, NeedsRecord, HasMethod, HoldsError;
    if v.MapOf? {
      AllEncode(v.keys, depth + 1, declared);
      AllEncode(v.values, depth + 1, declared);
    } else {
      AllEncode(v.elements, depth + 1, declared);
    }
  }

  /** What holds nothing else, or crosses by reference. */
  predicate IsLeaf(v: Value) {
    ByReference(v) || !(v.List? || v.Object? || v.MapOf? || v.SetOf?)
  }

  lemma LeafEncodes(v: Value, depth: nat, declared: set<string>)
    requires IsLeaf(v) && depth <= MAX_DEPTH
    ensures Encode(v, depth, declared).Some? <==> Sendable(v, declared) && depth + Nesting(v) <= MAX_DEPTH
  {
    hide EncodeAll, Deepest, HasMethod, NeedsRecord, HoldsError, ValidText, MarkName, BigFits, KeysOk;
  }

  lemma TooDeep(v: Value, declared: set<string>)
    requires !IsLeaf(v)
    ensures Encode(v, MAX_DEPTH, declared).None? && Nesting(v) >= 1
  {
    hide EncodeAll, Deepest, NeedsRecord, KeysOk;
  }

  lemma ListEncodes(v: Value, depth: nat, declared: set<string>)
    requires v.List? && depth < MAX_DEPTH
    ensures Encode(v, depth, declared).Some? <==> Sendable(v, declared) && depth + Nesting(v) <= MAX_DEPTH
    decreases v, 0
  {
    hide EncodeAll, Deepest, NeedsRecord, HoldsError;
    AllEncode(v.items, depth + 1, declared);
  }

  /** A value is encoded exactly when it can be sent and nests at most 64 deep. */
  lemma {:induction false} EncodesExactly(v: Value, depth: nat, declared: set<string>)
    requires depth <= 64
    ensures Encode(v, depth, declared).Some? <==> Sendable(v, declared) && depth + Nesting(v) <= 64
    decreases v, 1
  {
    hide Encode, Sendable, Nesting, ByReference, HasMethod;
    if IsLeaf(v) {
      LeafEncodes(v, depth, declared);
    } else if depth == MAX_DEPTH {
      TooDeep(v, declared);
    } else if v.List? {
      ListEncodes(v, depth, declared);
    } else if v.Object? {
      ObjectEncodes(v, depth, declared);
    } else {
      CollectionEncodes(v, depth, declared);
    }
  }

  const SOME_ERROR := Error("Error", "m", None)

  lemma RefusedInData(declared: set<string>)
    ensures Encode(Object(false, ["error"], [SOME_ERROR]), 0, declared).None?
  {
    var v := Object(false, ["error"], [SOME_ERROR]);
    EncodesExactly(v, 0, declared);
    hide Encode, Nesting;
    assert HoldsError(v.fields[0]) && !NeedsRecord(SOME_ERROR);
  }

  lemma SentInRecord(declared: set<string>)
    requires "bytes" in declared
    ensures Encode(Object(false, ["error", "bytes"], [SOME_ERROR, Bytes([])]), 0, declared).Some?
  {
    var v := Object(false, ["error", "bytes"], [SOME_ERROR, Bytes([])]);
    EncodesExactly(v, 0, declared);
    hide Encode, HoldsError;
    assert NeedsRecord(v.fields[1]);
    assert Sendable(SOME_ERROR, declared) && Sendable(Bytes([]), declared);
    assert Nesting(SOME_ERROR) <= 1 && Nesting(Bytes([])) <= 1;
    DeepestIs(v.fields, 1);
  }

  lemma SentInArray(declared: set<string>)
    ensures Encode(List([SOME_ERROR]), 0, declared).Some?
  {
    EncodesExactly(List([SOME_ERROR]), 0, declared);
    hide Encode, HoldsError, NeedsRecord;
    assert Sendable(SOME_ERROR, declared) && Nesting(SOME_ERROR) <= 1;
    DeepestIs([SOME_ERROR], 1);
  }

  /** An Error in an object of plain data is refused, and with bytes beside it, or in an array, not. */
  lemma ErrorInDataRefused(declared: set<string>)
    ensures Encode(Object(false, ["error"], [SOME_ERROR]), 0, declared).None?
    ensures "bytes" in declared ==> Encode(Object(false, ["error", "bytes"], [SOME_ERROR, Bytes([])]), 0, declared).Some?
    ensures Encode(List([SOME_ERROR]), 0, declared).Some?
  {
    hide *;
    RefusedInData(declared);
    if "bytes" in declared { SentInRecord(declared); }
    SentInArray(declared);
  }
}
