/** Decoding, and what a value that was sent arrives as. */
module CodecTrip {
  import opened Options
  import opened Digits
  import opened Instants
  import opened Keys
  import opened Codec

  // ── Decoding ────────────────────────────────────────────────────

  /** A value taken, one this side does not take, or what no honest far end sends. */
  datatype Decoded = Taken(value: Value) | Refused | Fault
  datatype Several = AllTaken(values: seq<Value>) | SomeRefused | SomeFault

  function MarkOf(tag: string): Option<Mark> {
    if tag == "datetime" then Some(DateTime)
    else if tag == "date" then Some(Day)
    else if tag == "time" then Some(Clock)
    else if tag == "decimal" then Some(Decimal)
    else if tag == "uuid" then Some(Uuid)
    else None
  }

  /** A decimal integer without leading zeros, of at most 4300 digits. */
  predicate IsBigText(text: string) {
    var digits := if text != "" && text[0] == '-' then text[1..] else text;
    IsInteger(digits) && text != "-0" && |digits| <= MAX_DIGITS
  }

  function ReadTagged(tag: string, text: string): Decoded {
    if MarkOf(tag).Some? then (if ValidText(MarkOf(tag).value, text) then Taken(Str(text)) else Refused)
    else if tag == "instant" then
      var ms := InstantFromText(text);
      if ms.Some? then Taken(Instant(ms)) else Refused
    else if tag ==
      "bigint" then (if IsBigText(text) && ReadInt(text).Some? then Taken(Big(ReadInt(text).value)) else Refused)
    else Fault
  }

  /** A key as it was received: under its tag, as this side's value. */
  function KeyOnWire(w: WireValue, v: Value): Key {
    if w.Data? && (v.Str? || v.Bool? || v.Num?) then KeyOf(v)
    else if w.Tagged? && w.tag == "bigint" && v.Big? then KeyOf(v)
    else if w.Tagged? && MarkOf(w.tag).Some? && v.Str? then MarkedKey(MarkOf(w.tag).value, v.s)
    else NoKey
  }

  function KeysOnWire(ws: seq<WireValue>, vs: seq<Value>): (ks: seq<Key>)
    requires |ws| == |vs|
    ensures |ks| == |ws| && forall i :: 0 <= i < |ws| ==> ks[i] == KeyOnWire(ws[i], vs[i])
  {
    seq(|ws|, i requires 0 <= i < |ws| => KeyOnWire(ws[i], vs[i]))
  }

  /** As a key of a JavaScript Map: 0 and -0 are one. */
  function AsKey(v: Value): Value {
    if v.Num? then Num(Plain(v.n)) else v
  }

  /** A JavaScript Map or Set made of these has an entry for each. */
  predicate AllApart(vs: seq<Value>) {
    forall i, j :: 0 <= i < j < |vs| ==> AsKey(vs[i]) != AsKey(vs[j])
  }

  /** Whether a received collection's keys are keys, distinct on the wire and once made here. */
  predicate Collects(ws: seq<WireValue>, vs: seq<Value>)
    requires |ws| == |vs|
  {
    KeysOk(KeysOnWire(ws, vs)) && AllApart(vs)
  }

  function Decode(w: WireValue): Decoded
    decreases w, 0
  {
    match w
    case WUndefined => Taken(Undefined)
    case Data(v) => Taken(v)
    case WBytes(bytes) => Taken(Bytes(bytes))
    case WReference(v) => Taken(v)
    case Tagged(tag, text) => ReadTagged(tag, text)
    case WList(items) => Made(DecodeAll(items), vs => List(vs))
    case WRecord(names, fields) => Made(DecodeAll(fields), vs => Object(false, names, vs))
    case WMap(keys, values) =>
      var ks, vs := DecodeAll(keys), DecodeAll(values);
      if ks.SomeFault? || vs.SomeFault? then Fault
      else if ks.SomeRefused? || vs.SomeRefused? then Refused
      else if Collects(keys, ks.values) then Taken(MapOf(ks.values, vs.values))
      else Refused
    case WSet(elements) =>
      var es := DecodeAll(elements);
      if es.AllTaken? && !Collects(elements, es.values) then Refused else Made(es, vs => SetOf(vs))
  }

  function Made(all: Several, make: seq<Value> -> Value): Decoded {
    match all
    case AllTaken(vs) => Taken(make(vs))
    case SomeRefused => Refused
    case SomeFault => Fault
  }

  /** Decode what a container holds, also past what is refused: undefined is null. */
  function DecodeAll(ws: seq<WireValue>): (all: Several)
    ensures all.AllTaken? ==> |all.values| == |ws|
    decreases ws, 1
  {
    if ws == [] then AllTaken([])
    else
      var first, rest := Decode(ws[0]), DecodeAll(ws[1..]);
      if first.Fault? || rest.SomeFault? then SomeFault
      else if first.Refused? || rest.SomeRefused? then SomeRefused
      else AllTaken([if first.value.Undefined? then Null else first.value] + rest.values)
  }

  // ── What arrives ────────────────────────────────────────────────

  /** What a value is once received: constructed values are their texts, an Error is data, inner
      undefined is null, -0 is 0; all else, the shape and the order with it, is the same. */
  function Arrived(v: Value): Value
    decreases v, 0
  {
    if ByReference(v) then v
    else match v
      case Num(n) => Num(Plain(n))
      case Marked(_, text) => Str(text)
      case Error(_, _, _) => ErrorData(v)
      case List(items) => List(ArrivedAll(items))
      case Object(_, names, fields) => Object(false, names, ArrivedAll(fields))
      case MapOf(keys, values) => MapOf(ArrivedAll(keys), ArrivedAll(values))
      case SetOf(elements) => SetOf(ArrivedAll(elements))
      case _ => v
  }

  function ArrivedAll(vs: seq<Value>): (arrived: seq<Value>)
    ensures |arrived| == |vs|
    ensures forall i :: 0 <= i < |vs| ==> arrived[i] == if vs[i].Undefined? then Null else Arrived(vs[i])
    decreases vs, 1
  {
    if vs == [] then [] else [if vs[0].Undefined? then Null else Arrived(vs[0])] + ArrivedAll(vs[1..])
  }

  /** Two keys of a map or set in `v` are one key once received. */
  predicate Meets(v: Value)
    decreases v, 0
  {
    !ByReference(v) && match v
      case List(items) => MeetsAny(items)
      case Object(_, _, fields) => MeetsAny(fields)
      case MapOf(keys, values) => MeetsAny(keys) || MeetsAny(values) || !AllApart(ArrivedAll(keys))
      case SetOf(elements) => MeetsAny(elements) || !AllApart(ArrivedAll(elements))
      case _ => false
  }

  predicate MeetsAny(vs: seq<Value>)
    decreases vs, 1
  {
    vs != [] && (Meets(vs[0]) || MeetsAny(vs[1..]))
  }

  // ── Decoding what was encoded ───────────────────────────────────

  lemma {:induction false} JsonIsArrived(v: Value, depth: nat)
    requires CheckData(v, depth) && !NeedsRecord(v)
    ensures Json(v) == (if v.Undefined? then Null else Arrived(v)) && !Meets(v)
    decreases v, 0
  {
    if v.List? { AllJson(v.items, depth + 1); } else if v.Object? { AllJson(v.fields, depth + 1); }
  }

  lemma {:induction false} AllJson(vs: seq<Value>, depth: nat)
    requires forall i :: 0 <= i < |vs| ==> CheckData(vs[i], depth) && !NeedsRecord(vs[i])
    ensures JsonAll(vs) == ArrivedAll(vs) && !MeetsAny(vs)
    decreases vs, 1
  {
    if vs != [] {
      JsonIsArrived(vs[0], depth);
      AllJson(vs[1..], depth);
    }
  }

  lemma BigRead(i: int)
    requires BigFits(i)
    ensures ReadTagged("bigint", IntText(i)) == Taken(Big(i))
  {
    IntRead(i);
    NatLeads(if i < 0 then -i else i);
    if i < 0 {
      assert IntText(i)[1..] == NatText(-i);
    } else {
      assert IsDigit(NatText(i)[0]);
    }
  }

  /** A text under its tag reads as what was sent. */
  lemma TextRead(v: Value)
    requires (v.Big? || v.Instant? || v.Marked?) && TextOf(v).Some?
    ensures ReadTagged(TagOf(v).value, TextOf(v).value) == Taken(Arrived(v))
  {
    hide InstantText, ValidText, ReadTagged, BigFits;
    match v
    case Big(i) => BigRead(i);
    case Instant(ms) => InstantRead(ms.value);
    case Marked(mark, text) => MarkedRead(mark, text);
  }

  lemma InstantRead(ms: int)
    requires InstantText(ms).Some?
    ensures ReadTagged("instant", InstantText(ms).value) == Taken(Instant(Some(ms)))
  {
    hide InstantText, InstantFromText;
    InstantRoundTrip(ms);
  }

  lemma MarkedRead(mark: Mark, text: string)
    requires ValidText(mark, text)
    ensures ReadTagged(MarkName(mark), text) == Taken(Str(text))
  {
    hide ValidText;
    assert MarkOf(MarkName(mark)) == Some(mark);
  }

  /** A key received has the identity it was sent with. */
  lemma KeyKept(v: Value, depth: nat, declared: set<string>)
    requires Identity(KeyOf(v)).Some? && Encode(v, depth, declared).Some?
    ensures var w := Encode(v, depth, declared).value;
      Identity(KeyOnWire(w, Arrived(v))) == Identity(KeyOf(v))
  {
    if v.Num? {
      ZeroText(v.n);
      ZeroText(Plain(v.n));
    } else if v.Marked? {
      assert MarkOf(MarkName(v.mark)) == Some(v.mark);
      assert MarkName(v.mark) != "bigint";
    }
  }

  lemma {:induction false} EncodedEach(vs: seq<Value>, depth: nat, declared: set<string>, i: nat)
    requires i < |vs| && EncodeAll(vs, depth, declared).Some?
    ensures !vs[i].Undefined? ==> Encode(vs[i], depth, declared) == Some(EncodeAll(vs, depth, declared).value[i])
    ensures ArrivedAll(vs)[i] == if vs[i].Undefined? then Null else Arrived(vs[i])
    decreases |vs|
  {
    if i > 0 { EncodedEach(vs[1..], depth, declared, i - 1); }
  }

  lemma EachKept(vs: seq<Value>, depth: nat, declared: set<string>, i: nat)
    requires i < |vs| && EncodeAll(vs, depth, declared).Some? && IsKey(KeyOf(vs[i]))
    ensures var k := KeyOnWire(EncodeAll(vs, depth, declared).value[i], ArrivedAll(vs)[i]);
      IsKey(k) && Identity(k) == Identity(KeyOf(vs[i]))
  {
    KeysHaveIdentities(KeyOf(vs[i]));
    NotUndefined(vs[i]);
    EncodedEach(vs, depth, declared, i);
    KeyKept(vs[i], depth, declared);
    KeysHaveIdentities(KeyOnWire(EncodeAll(vs, depth, declared).value[i], ArrivedAll(vs)[i]));
    hide *;
  }

  lemma KeysKept(vs: seq<Value>, depth: nat, declared: set<string>)
    requires EncodeAll(vs, depth, declared).Some? && KeysOk(KeysOf(vs))
    ensures KeysOk(KeysOnWire(EncodeAll(vs, depth, declared).value, ArrivedAll(vs)))
  {
    var ws := EncodeAll(vs, depth, declared).value;
    hide Identity, IsKey, KeyOnWire, KeyOf, EncodeAll, ArrivedAll;
    forall i | 0 <= i < |vs|
      ensures var k := KeyOnWire(ws[i], ArrivedAll(vs)[i]); IsKey(k) && Identity(k) == Identity(KeysOf(vs)[i])
    {
      EachKept(vs, depth, declared, i);
    }
  }

  lemma {:induction false} AllArrive(vs: seq<Value>, depth: nat, declared: set<string>)
    requires EncodeAll(vs, depth, declared).Some?
    ensures DecodeAll(EncodeAll(vs, depth, declared).value) ==
      if MeetsAny(vs) then SomeRefused else AllTaken(ArrivedAll(vs))
    decreases vs, 2
  {
    if vs != [] {
      var ws := EncodeAll(vs, depth, declared).value;
      AllArrive(vs[1..], depth, declared);
      assert ws[1..] == EncodeAll(vs[1..], depth, declared).value;
      if !vs[0].Undefined? {
        RoundTrip(vs[0], depth, declared);
        ArrivedDefined(vs[0]);
      }
      hide Encode, Decode, Arrived, Meets;
    }
  }

  lemma ArrivedDefined(v: Value)
    requires !v.Undefined?
    ensures !Arrived(v).Undefined?
  {}

  lemma MapArrives(v: Value, depth: nat, declared: set<string>)
    requires v.MapOf? && Encode(v, depth, declared).Some?
    ensures Decode(Encode(v, depth, declared).value) == if Meets(v) then Refused else Taken(Arrived(v))
    decreases v, 0
  {
    hide KeysOk, KeysOf, AllApart, KeysOnWire, EncodeAll, DecodeAll, ArrivedAll, MeetsAny;
    AllArrive(v.keys, depth + 1, declared);
    AllArrive(v.values, depth + 1, declared);
    KeysKept(v.keys, depth + 1, declared);
  }

  lemma SetArrives(v: Value, depth: nat, declared: set<string>)
    requires v.SetOf? && Encode(v, depth, declared).Some?
    ensures Decode(Encode(v, depth, declared).value) == if Meets(v) then Refused else Taken(Arrived(v))
    decreases v, 0
  {
    hide KeysOk, KeysOf, AllApart, KeysOnWire, EncodeAll, DecodeAll, ArrivedAll, MeetsAny;
    AllArrive(v.elements, depth + 1, declared);
    KeysKept(v.elements, depth + 1, declared);
  }

  lemma ObjectArrives(v: Value, depth: nat, declared: set<string>)
    requires v.Object? && !ByReference(v) && Encode(v, depth, declared).Some?
    ensures Decode(Encode(v, depth, declared).value) == if Meets(v) then Refused else Taken(Arrived(v))
    decreases v, 0
  {
    if NeedsRecord(v) { AllArrive(v.fields, depth + 1, declared); } else { JsonIsArrived(v, depth); }
  }

  /** What was sent arrives as the same tree, or is refused because keys in it meet on arrival:
      no entry is lost silently. */
  lemma {:induction false} RoundTrip(v: Value, depth: nat, declared: set<string>)
    requires Encode(v, depth, declared).Some?
    ensures Decode(Encode(v, depth, declared).value) == if Meets(v) then Refused else Taken(Arrived(v))
    decreases v, 1
  {
    hide TextOf, ReadTagged, KeysOk, CheckData, NeedsRecord;
    if ByReference(v) {
    } else if v.List? {
      AllArrive(v.items, depth + 1, declared);
    } else if v.Object? {
      ObjectArrives(v, depth, declared);
    } else if v.MapOf? {
      MapArrives(v, depth, declared);
    } else if v.SetOf? {
      SetArrives(v, depth, declared);
    } else if v.Big? || v.Instant? || v.Marked? {
      TextRead(v);
    }
  }

  // ── When keys meet ──────────────────────────────────────────────

  /** A key that is a text once received. */
  function TextOfKey(v: Value): Option<string> {
    match v
    case Str(s) => Some(s)
    case Marked(_, text) => Some(text)
    case _ => None
  }

  predicate SameText(a: Value, b: Value) {
    TextOfKey(a).Some? && TextOfKey(a) == TextOfKey(b)
  }

  lemma PairMeets(a: Value, b: Value)
    requires Identity(KeyOf(a)).Some? && Identity(KeyOf(b)).Some? && Identity(KeyOf(a)) != Identity(KeyOf(b))
    ensures AsKey(Arrived(a)) == AsKey(Arrived(b)) <==> SameText(a, b)
  {
    if a.Num? && b.Num? {
      ZeroText(a.n);
      ZeroText(b.n);
    }
  }

  lemma PairOf(keys: seq<Value>, i: nat, j: nat)
    requires KeysOk(KeysOf(keys)) && i < j < |keys|
    ensures AsKey(ArrivedAll(keys)[i]) == AsKey(ArrivedAll(keys)[j]) <==> SameText(keys[i], keys[j])
  {
    hide Identity, IsKey, SameText, AsKey, Arrived;
    var ks := KeysOf(keys);
    assert IsKey(ks[i]) && IsKey(ks[j]) && Identity(ks[i]) != Identity(ks[j]);
    KeysHaveIdentities(ks[i]);
    KeysHaveIdentities(ks[j]);
    NotUndefined(keys[i]);
    NotUndefined(keys[j]);
    hide KeysOk, KeysOf, KeyOf;
    PairMeets(keys[i], keys[j]);
  }

  lemma NotUndefined(v: Value)
    requires Identity(KeyOf(v)).Some?
    ensures !v.Undefined?
  {}

  /** Of keys that can be sent, two are one key on arrival exactly when they are the same text,
      as a date and a string can be. */
  lemma KeysMeetExactly(keys: seq<Value>)
    requires KeysOk(KeysOf(keys))
    ensures AllApart(ArrivedAll(keys)) <==> forall i, j :: 0 <= i < j < |keys| ==> !SameText(keys[i], keys[j])
  {
    var arrived := ArrivedAll(keys);
    hide KeysOk, AsKey, SameText, ArrivedAll;
    forall i, j | 0 <= i < j < |keys|
      ensures AsKey(arrived[i]) == AsKey(arrived[j]) <==> SameText(keys[i], keys[j])
    {
      PairOf(keys, i, j);
    }
  }
}
