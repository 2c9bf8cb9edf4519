/** What crosses in which way, and what is taken on arrival, whoever sent it. */
module Crossings {
  import opened Options
  import opened Digits
  import opened Calendar
  import opened Instants
  import opened TimeTexts
  import opened Keys
  import opened Codec
  import opened CodecTrip

  // ── By reference, and under a tag ───────────────────────────────

  /** Its state stays with its owner: a function, what is no plain value, an object with a method. */
  ghost predicate StaysHere(v: Value) {
    v.Function? || v.Live? || (v.Object? && !v.record && exists i :: 0 <= i < |v.fields| && v.fields[i].Function?)
  }

  ghost predicate IsTagged(v: Value) {
    v.Big? || v.Instant? || v.Marked? || v.Bytes? || v.MapOf? || v.SetOf?
  }

  /** Exactly these cross by reference, wherever they are and whatever the far end takes. */
  lemma ReferencedExactly(v: Value, depth: nat, declared: set<string>)
    ensures StaysHere(v) ==> Encode(v, depth, declared) == Some(WReference(v))
    ensures !StaysHere(v) && Encode(v, depth, declared).Some? ==> !Encode(v, depth, declared).value.WReference?
  {
    hide TextOf, EncodeAll, CheckData, NeedsRecord, KeysOk;
  }

  /** An Error arrives as data: its name, its message and its stack, if it has one. */
  lemma ErrorsArrive(name: string, message: string, stack: Option<string>, depth: nat, declared: set<string>)
    requires depth < MAX_DEPTH
    ensures var w := Encode(Error(name, message, stack), depth, declared);
      w.Some? && Decode(w.value) == Taken(
        if stack.None? then Object(false, ["name", "message"], [Str(name), Str(message)])
        else Object(false, ["name", "message", "stack"], [Str(name), Str(message), Str(stack.value)]))
  {
    assert ["name", "message"] + [] == ["name", "message"];
    assert [Str(name), Str(message)] + [] == [Str(name), Str(message)];
    assert ["name", "message"] + ["stack"] == ["name", "message", "stack"];
    if stack.Some? {
      assert [Str(name), Str(message)] + [Str(stack.value)] == [Str(name), Str(message), Str(stack.value)];
    }
  }

  /** What is in a value at a way through its arrays and objects. */
  function At(v: Value, way: seq<nat>): Option<Value>
    decreases |way|
  {
    if way == [] then Some(v)
    else if v.List? && way[0] < |v.items| then At(v.items[way[0]], way[1..])
    else if v.Object? && way[0] < |v.fields| then At(v.fields[way[0]], way[1..])
    else None
  }

  ghost predicate Marks(v: Value, way: seq<nat>) {
    At(v, way).Some? && (StaysHere(At(v, way).value) || IsTagged(At(v, way).value))
  }

  lemma {:induction false} WayMarks(v: Value) returns (way: seq<nat>)
    requires NeedsRecord(v)
    ensures Marks(v, way)
    decreases v
  {
    if ByReference(v) || TagOf(v).Some? {
      way := [];
    } else {
      var parts := if v.List? then v.items else v.fields;
      var i :| 0 <= i < |parts| && NeedsRecord(parts[i]);
      var rest := WayMarks(parts[i]);
      way := [i] + rest;
      assert way[1..] == rest;
    }
  }

  lemma {:induction false} MarksNeed(v: Value, way: seq<nat>)
    requires Marks(v, way)
    ensures NeedsRecord(v)
    decreases |way|
  {
    if way != [] {
      MarksNeed(if v.List? then v.items[way[0]] else v.fields[way[0]], way[1..]);
    }
  }

  /** An array or object crosses entry by entry exactly when a way through arrays and objects in it
      leads to what crosses by reference or under a tag. */
  lemma NeedsRecordExactly(v: Value)
    ensures NeedsRecord(v) <==> exists way :: Marks(v, way)
  {
    if NeedsRecord(v) { var way := WayMarks(v); }
    if way :| Marks(v, way) { MarksNeed(v, way); }
  }

  // ── What is taken ───────────────────────────────────────────────

  lemma BigTextIs(text: string)
    requires IsBigText(text)
    ensures ReadInt(text).Some? && BigFits(ReadInt(text).value) && text == IntText(ReadInt(text).value)
  {
    var minus := text != "" && text[0] == '-';
    var digits := if minus then text[1..] else text;
    IntegerRead(digits);
    var n := NumberOf(digits);
    if minus {
      assert text == "-" + digits;
      assert n != 0;
    } else {
      assert IsDigit(text[0]);
    }
  }

  /** A big integer is taken exactly from the text it is written as: no leading zero, no `-0`. */
  lemma BigsExactly(text: string, i: int)
    ensures ReadTagged("bigint", text) == Taken(Big(i)) <==> BigFits(i) && text == IntText(i)
  {
    hide BigFits, IsBigText, IntText, ReadInt;
    if IsBigText(text) { BigTextIs(text); }
    if BigFits(i) { BigRead(i); }
  }

  /** A key on the wire, known by what is there alone. */
  function WireKey(w: WireValue): Key {
    match w
    case Data(v) => if v.Str? || v.Bool? || v.Num? then KeyOf(v) else NoKey
    case Tagged(tag, text) =>
      if MarkOf(tag).Some? then MarkedKey(MarkOf(tag).value, text)
      else if tag == "bigint" && ReadInt(text).Some? then BigKey(ReadInt(text).value)
      else NoKey
    case _ => NoKey
  }

  /** The text it is in JavaScript, if it is one. */
  function WireText(w: WireValue): Option<string> {
    match w
    case Data(v) => if v.Str? then Some(v.s) else None
    case Tagged(tag, text) => if MarkOf(tag).Some? then Some(text) else None
    case _ => None
  }

  function InContainer(v: Value): Value {
    if v.Undefined? then Null else v
  }

  lemma WireKeyIs(w: WireValue, v: Value)
    requires Decode(w) == Taken(v)
    ensures KeyOnWire(w, InContainer(v)) == WireKey(w)
    ensures IsKey(WireKey(w)) ==> InContainer(v) == v && WireText(w) == TextOfKey(v) && !v.Marked?
  {
    hide ValidText, InstantFromText, IsBigText, ReadInt;
    assert MarkOf("bigint") == None && MarkOf("instant") == None;
    if w.Tagged? { assert !v.Num? && !v.Bool?; }
  }

  lemma {:induction false} TakenEach(ws: seq<WireValue>, vs: seq<Value>, i: nat)
    requires DecodeAll(ws) == AllTaken(vs) && i < |ws|
    ensures Decode(ws[i]).Taken? && vs[i] == InContainer(Decode(ws[i]).value)
    decreases |ws|
  {
    if i > 0 { TakenEach(ws[1..], vs[1..], i - 1); }
  }

  /** What is no text is one key in JavaScript only with what has its identity. */
  lemma OneKey(v: Value, u: Value)
    requires v.Num? || v.Bool? || v.Big?
    requires Identity(KeyOf(v)).Some? && Identity(KeyOf(u)).Some? && AsKey(v) == AsKey(u)
    ensures Identity(KeyOf(v)) == Identity(KeyOf(u))
  {
    if v.Num? {
      ZeroText(v.n);
      ZeroText(u.n);
    }
  }

  lemma WireKeyOf(w: WireValue, v: Value)
    requires Decode(w) == Taken(v) && IsKey(WireKey(w))
    ensures v.Str? || v.Num? || v.Bool? || v.Big?
    ensures !v.Str? ==> WireKey(w) == KeyOf(v)
    ensures WireText(w) == if v.Str? then Some(v.s) else None
  {
    hide ValidText, InstantFromText, IsBigText, ReadInt;
    assert MarkOf("bigint") == None && MarkOf("instant") == None;
  }

  /** Two keys apart on the wire are one in JavaScript exactly when they are one text. */
  lemma PairOnWire(a: WireValue, b: WireValue, v: Value, u: Value)
    requires Decode(a) == Taken(v) && Decode(b) == Taken(u) && IsKey(WireKey(a)) && IsKey(WireKey(b))
    requires Identity(WireKey(a)) != Identity(WireKey(b))
    ensures AsKey(v) == AsKey(u) <==> WireText(a).Some? && WireText(a) == WireText(b)
  {
    WireKeyOf(a, v);
    WireKeyOf(b, u);
    KeysHaveIdentities(WireKey(a));
    KeysHaveIdentities(WireKey(b));
    hide Decode, Identity, WireKey, WireText, IsKey, KeyOf;
    if !v.Str? && AsKey(v) == AsKey(u) { OneKey(v, u); }
  }

  /** The keys of a received map or set are such as the sender had: each can be a key, no two are
      the same in every language, and no two are one text here. */
  ghost predicate KeysApart(ws: seq<WireValue>) {
    && (forall i :: 0 <= i < |ws| ==> IsKey(WireKey(ws[i])))
    && (forall i, j :: 0 <= i < j < |ws| ==> Identity(WireKey(ws[i])) != Identity(WireKey(ws[j])))
    && (forall i, j :: 0 <= i < j < |ws| && WireText(ws[i]).Some? ==> WireText(ws[i]) != WireText(ws[j]))
  }

  lemma EachOnWire(ws: seq<WireValue>, vs: seq<Value>, i: nat)
    requires DecodeAll(ws) == AllTaken(vs) && i < |ws|
    ensures Decode(ws[i]).Taken? && KeyOnWire(ws[i], vs[i]) == WireKey(ws[i])
    ensures IsKey(WireKey(ws[i])) ==> vs[i] == Decode(ws[i]).value
  {
    TakenEach(ws, vs, i);
    WireKeyIs(ws[i], Decode(ws[i]).value);
    hide *;
  }

  lemma CollectsExactly(ws: seq<WireValue>, vs: seq<Value>)
    requires DecodeAll(ws) == AllTaken(vs)
    ensures Collects(ws, vs) <==> KeysApart(ws)
  {
    hide Decode, DecodeAll, Identity, WireKey, WireText, IsKey, AsKey, KeyOnWire;
    forall i | 0 <= i < |ws| ensures KeysOnWire(ws, vs)[i] == WireKey(ws[i]) { EachOnWire(ws, vs, i); }
    if KeysOk(KeysOnWire(ws, vs)) {
      forall i, j | 0 <= i < j < |ws|
        ensures AsKey(vs[i]) == AsKey(vs[j]) <==> WireText(ws[i]).Some? && WireText(ws[i]) == WireText(ws[j])
      {
        EachOnWire(ws, vs, i);
        EachOnWire(ws, vs, j);
        assert IsKey(KeysOnWire(ws, vs)[i]) && IsKey(KeysOnWire(ws, vs)[j]);
        PairOnWire(ws[i], ws[j], vs[i], vs[j]);
      }
    }
  }

  /** A received map or set is taken exactly when what is in it is and its keys are apart, whoever
      sent it; refused, or a fault, it is not taken in part. */
  lemma CollectionsTakenExactly(keys: seq<WireValue>, values: seq<WireValue>)
    ensures Decode(WMap(keys, values)).Taken? <==>
      DecodeAll(keys).AllTaken? && DecodeAll(values).AllTaken? && KeysApart(keys)
    ensures Decode(WSet(keys)).Taken? <==> DecodeAll(keys).AllTaken? && KeysApart(keys)
  {
    hide DecodeAll, Collects, KeysApart;
    if DecodeAll(keys).AllTaken? { CollectsExactly(keys, DecodeAll(keys).values); }
  }

  // ── Keys and formats ────────────────────────────────────────────

  /** What a value marked as this is: a date and time, a date, a time, a decimal or a UUID. */
  ghost predicate HasFormat(mark: Mark, text: string) {
    match mark
    case DateTime => exists d, t :: IsDay(d) && IsTime(t) && text == DateText(d) + "T" + TimeText(t)
    case Day => exists d :: IsDay(d) && text == DateText(d)
    case Clock => exists t :: IsTime(t) && text == TimeText(t)
    case Decimal =>
      exists minus, whole: nat, fraction :: IsNumeral(whole, fraction) && text == DecimalText(minus, whole, fraction)
    case Uuid => IsUuid(text)
  }

  predicate IsDay(d: Date) {
    IsDate(d) && d.year <= 9999
  }

  /** A marked text is valid exactly when it is in its format. */
  lemma FormatsExactly(mark: Mark, text: string)
    ensures ValidText(mark, text) <==> HasFormat(mark, text)
  {
    hide ReadDate, ReadTime, ReadDateTime, IsDecimal, IsUuid, IsDate, IsTime, DateText, TimeText;
    match mark
    case DateTime =>
      forall d, t ensures ReadDateTime(text) == Some((d, t)) <==>
        IsDate(d) && d.year <= 9999 && IsTime(t) && text == DateText(d) + "T" + TimeText(t)
      {
        DateTimesExactly(text, d, t);
      }
    case Day =>
      forall d ensures ReadDate(text) == Some(d) <==> IsDate(d) && d.year <= 9999 && text == DateText(d) {
        DatesExactly(text, d);
      }
    case Clock =>
      forall t ensures ReadTime(text) == Some(t) <==> IsTime(t) && text == TimeText(t) { TimesExactly(text, t); }
    case Decimal => DecimalsExactly(text);
    case Uuid =>
  }

  /** What can be a key of a map or an element of a set that is sent. */
  ghost predicate CanBeKey(v: Value) {
    match v
    case Str(_) => true
    case Bool(_) => true
    case Big(_) => true
    case Num(n) => !n.NonFinite? && (n.Whole? ==> -0x1F_FFFF_FFFF_FFFF <= n.value <= 0x1F_FFFF_FFFF_FFFF)
    case Marked(mark, text) => HasFormat(mark, text)
    case _ => false
  }

  /** Two of these are one key: one text, one truth, equal integers or numbers, or one marked text, of
      a time one moment. */
  ghost predicate AreOneKey(v: Value, u: Value) {
    match (v, u)
    case (Num(m), Num(n)) => Plain(m) == Plain(n)
    case (Marked(mark, text), Marked(other, text2)) =>
      mark == other &&
      if mark.DateTime? then SameTime(text, text2, 19)
      else if mark.Clock? then SameTime(text, text2, 8)
      else text == text2
    case _ => v == u
  }

  lemma KeyIs(v: Value, u: Value)
    ensures IsKey(KeyOf(v)) <==> CanBeKey(v)
    ensures CanBeKey(v) && CanBeKey(u) ==> (SameKey(KeyOf(v), KeyOf(u)) <==> AreOneKey(v, u))
  {
    if v.Marked? { FormatsExactly(v.mark, v.text); }
    if u.Marked? { FormatsExactly(u.mark, u.text); }
    hide ValidText, HasFormat, SameTime;
  }

  /** The keys of a map or set can be sent exactly when each can be one and no two are one; a number
      that is no integer being written with a point or an exponent. */
  lemma KeysSentExactly(vs: seq<Value>)
    requires forall v <- vs :: v.Num? ==> IsNumber(v.n)
    ensures KeysOk(KeysOf(vs)) <==>
      (forall v <- vs :: CanBeKey(v)) && forall i, j :: 0 <= i < j < |vs| ==> !AreOneKey(vs[i], vs[j])
  {
    var ks := KeysOf(vs);
    hide KeyOf, Identity, CanBeKey, AreOneKey, SameKey, IsKey, IsKeyShaped;
    forall k <- ks ensures IsKeyShaped(k) {
      var i :| 0 <= i < |ks| && ks[i] == k;
      assert vs[i] in vs;
      Shaped(vs[i]);
    }
    KeysPassExactly(ks);
    forall i, j | 0 <= i < |vs| && 0 <= j < |vs|
      ensures IsKey(ks[i]) <==> CanBeKey(vs[i])
      ensures CanBeKey(vs[i]) && CanBeKey(vs[j]) ==> (SameKey(ks[i], ks[j]) <==> AreOneKey(vs[i], vs[j]))
    {
      KeyIs(vs[i], vs[j]);
    }
  }

  lemma Shaped(v: Value)
    requires v.Num? ==> IsNumber(v.n)
    ensures IsKeyShaped(KeyOf(v))
  {
    hide ValidText;
  }
}
