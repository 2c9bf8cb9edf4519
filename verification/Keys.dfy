/** Map keys and set elements: how a key is told from the others, and which keys meet once they
    arrive in JavaScript. */
module Keys {
  import opened Options
  import opened Digits
  import opened Instants

  const MAX_SAFE: int := 0x1F_FFFF_FFFF_FFFF
  const MAX_DIGITS := 4300

  // ── Integers as text ────────────────────────────────────────────

  function IntText(i: int): (s: string)
    ensures |s| >= 1
  {
    if i < 0 then "-" + NatText(-i) else NatText(i)
  }

  /** The integer a text of digits, or of a minus and digits, is. */
  function ReadInt(s: string): Option<int> {
    if s != "" && s[0] == '-' && AllDigits(s[1..]) then Some(-(NumberOf(s[1..]) as int))
    else if AllDigits(s) then Some(NumberOf(s))
    else None
  }

  /** Reading an integer's text gives it back: no two integers share one. */
  lemma IntRead(i: int)
    ensures ReadInt(IntText(i)) == Some(i)
  {
    hide NatText, NumberOf;
    if i < 0 {
      NatRead(-i);
      assert ("-" + NatText(-i))[1..] == NatText(-i);
    } else {
      NatRead(i);
      assert IsDigit(NatText(i)[0]);
    }
  }

  // ── Marked texts ────────────────────────────────────────────────

  /** What the SDK's constructors make: a text marked with what it is. */
  datatype Mark = DateTime | Day | Clock | Decimal | Uuid

  function MarkName(mark: Mark): string {
    match mark
    case DateTime => "datetime"
    case Day => "date"
    case Clock => "time"
    case Decimal => "decimal"
    case Uuid => "uuid"
  }

  predicate IsInteger(s: string) {
    s != "" && AllDigits(s) && (s[0] != '0' || |s| == 1)
  }

  /** Digits with an optional fraction, after an optional minus. */
  predicate IsDecimal(text: string) {
    var s := if text != "" && text[0] == '-' then text[1..] else text;
    exists i :: 0 <= i <= |s| && DecimalAt(s, i)
  }

  /** The first `i` characters are the integer, and a point and digits follow, if anything. */
  predicate DecimalAt(s: string, i: nat)
    requires i <= |s|
  {
    IsInteger(s[..i]) &&
      if i == |s| then i <= MAX_DIGITS
      else s[i] == '.' && |s| - i >= 2 && AllDigits(s[i + 1..]) && |s| - 1 <= MAX_DIGITS
  }

  predicate IsHex(c: char) {
    IsDigit(c) || 'a' <= c <= 'f'
  }

  predicate IsUuid(text: string) {
    |text| == 36 && forall i :: 0 <= i < 36 ==>
      if i == 8 || i == 13 || i == 18 || i == 23 then text[i] == '-' else IsHex(text[i])
  }

  predicate ValidText(mark: Mark, text: string) {
    match mark
    case DateTime => ReadDateTime(text).Some?
    case Day => ReadDate(text).Some?
    case Clock => ReadTime(text).Some?
    case Decimal => IsDecimal(text)
    case Uuid => IsUuid(text)
  }

  // ── Identities ──────────────────────────────────────────────────

  /** A JavaScript number: an integer, a finite number that is not one by its text, -0, or one
      that is not finite. */
  datatype Number = Whole(value: int) | Fractional(text: string) | NegativeZero | NonFinite

  /** A number that is no integer is written with a point or an exponent. */
  predicate IsNumber(n: Number) {
    n.Fractional? ==> '.' in n.text || 'e' in n.text
  }

  datatype Key =
    | TextKey(text: string) | BoolKey(b: bool) | NumberKey(n: Number) | BigKey(i: int)
    | MarkedKey(mark: Mark, marked: string)
    | NoKey

  predicate IsKeyShaped(k: Key) {
    (k.NumberKey? ==> IsNumber(k.n)) && (k.MarkedKey? ==> ValidText(k.mark, k.marked))
  }

  /** A text equal keys share, and no others; none for what is no key. */
  function Identity(k: Key): Option<string> {
    match k
    case TextKey(s) => Some("s" + s)
    case BoolKey(b) => Some(if b then "btrue" else "bfalse")
    case NumberKey(n) =>
      (match n
       case NonFinite => None
       case NegativeZero => Some("n0")
       case Fractional(text) => Some("n" + text)
       case Whole(v) => if v > MAX_SAFE || v < -MAX_SAFE then None else Some("n" + IntText(v)))
    case BigKey(i) => Some("bigint" + IntText(i))
    case MarkedKey(mark, text) => Some(MarkName(mark) + if mark.DateTime? || mark.Clock? then ShortTime(text) else text)
    case NoKey => None
  }

  /** What can be a key: a text, a boolean, an integer of any size, a marked text, a finite number; a
      number that is an integer within what JavaScript counts exactly. */
  predicate IsKey(k: Key) {
    || k.TextKey? || k.BoolKey? || k.BigKey? || k.MarkedKey?
    || (k.NumberKey? && !k.n.NonFinite? && (k.n.Whole? ==> -0x1F_FFFF_FFFF_FFFF <= k.n.value <= 0x1F_FFFF_FFFF_FFFF))
  }

  /** What can be a key has an identity, and nothing else. */
  lemma KeysHaveIdentities(k: Key)
    ensures Identity(k).Some? <==> IsKey(k)
  {
    hide ShortTime, IntText;
  }

  /** The same key in every language: equal numbers, one text of one kind, one time. */
  predicate SameKey(j: Key, k: Key) {
    if j.NumberKey? && k.NumberKey? then Plain(j.n) == Plain(k.n)
    else if j.MarkedKey? && k.MarkedKey? && j.mark == k.mark && (j.mark.DateTime? || j.mark.Clock?) then
      SameTime(j.marked, k.marked, if j.mark.Clock? then 8 else 19)
    else j == k
  }

  /** 0 and -0 are one number. */
  function Plain(n: Number): Number {
    if n.NegativeZero? then Whole(0) else n
  }

  /** The same to the second, and equal fractions. */
  predicate SameTime(s: string, t: string, width: nat) {
    && IsTimed(s, width) && IsTimed(t, width)
    && s[..width] == t[..width] && Billionths(FractionOf(s[width..])) == Billionths(FractionOf(t[width..]))
  }

  predicate IsTimed(s: string, width: nat) {
    width <= |s| && Timed(s[..width], s[width..])
  }

  lemma {:induction false} NoPoint(s: string)
    requires AllDigits(s)
    ensures '.' !in s && 'e' !in s && '-' !in s
  {
    forall i | 0 <= i < |s| ensures s[i] != '.' && s[i] != 'e' && s[i] != '-' { assert IsDigit(s[i]); }
  }

  lemma TimeIsTimed(s: string)
    requires ReadTime(s).Some?
    ensures IsTimed(s, 8)
  {
    NoPoint(s[..2]);
    NoPoint(s[3..5]);
    NoPoint(s[6..8]);
    assert s[..8] == s[..2] + ":" + s[3..5] + ":" + s[6..8];
    assert s[..8][7] == s[6..8][1];
  }

  lemma DateTimeIsTimed(s: string)
    requires ReadDateTime(s).Some?
    ensures IsTimed(s, 19)
  {
    var date, time := s[..10], s[11..];
    TimeIsTimed(time);
    NoPoint(date[..4]);
    NoPoint(date[5..7]);
    NoPoint(date[8..]);
    assert date == date[..4] + "-" + date[5..7] + "-" + date[8..];
    assert s[..19] == date + "T" + time[..8] && s[19..] == time[8..];
    assert s[..19][18] == time[..8][7];
  }

  lemma ShapedTimes(k: Key)
    requires IsKeyShaped(k) && k.MarkedKey?
    ensures k.mark.Clock? ==> IsTimed(k.marked, 8)
    ensures k.mark.DateTime? ==> IsTimed(k.marked, 19)
  {
    if k.mark.Clock? { TimeIsTimed(k.marked); }
    if k.mark.DateTime? { DateTimeIsTimed(k.marked); }
  }

  // ── Equal identities are equal keys ─────────────────────────────

  lemma IntTextPlain(i: int)
    ensures '.' !in IntText(i) && 'e' !in IntText(i)
  {
    NoPoint(NatText(if i < 0 then -i else i));
  }

  lemma NumbersApart(m: Number, n: Number)
    requires IsNumber(m) && IsNumber(n) && Identity(NumberKey(m)).Some? && Identity(NumberKey(n)).Some?
    ensures Identity(NumberKey(m)) == Identity(NumberKey(n)) <==> Plain(m) == Plain(n)
  {
    var p, q := Plain(m), Plain(n);
    ZeroText(m);
    ZeroText(n);
    var s, t := NumberText(p), NumberText(q);
    assert Identity(NumberKey(m)).value[1..] == s && Identity(NumberKey(n)).value[1..] == t;
    if p.Whole? { IntRead(p.value); IntTextPlain(p.value); }
    if q.Whole? { IntRead(q.value); IntTextPlain(q.value); }
  }

  function NumberText(n: Number): string
    requires n.Whole? || n.Fractional?
  {
    if n.Whole? then IntText(n.value) else n.text
  }

  lemma ZeroText(n: Number)
    requires Identity(NumberKey(n)).Some?
    ensures Identity(NumberKey(n)) == Some("n" + NumberText(Plain(n)))
  {
    assert NatText(0) == "0" && IntText(0) == "0";
    assert "n" + "0" == "n0";
  }

  lemma MarkedApart(j: Key, k: Key)
    requires IsKeyShaped(j) && IsKeyShaped(k) && j.MarkedKey? && k.MarkedKey? && j.mark != k.mark
    ensures Identity(j) != Identity(k)
  {
    var s, t := Identity(j).value, Identity(k).value;
    DayStarts(j);
    DayStarts(k);
    hide ValidText, ShortTime;
    assert s[1] == MarkName(j.mark)[1] && t[1] == MarkName(k.mark)[1];
    assert s[0] == MarkName(j.mark)[0] && t[0] == MarkName(k.mark)[0];
  }

  /** Right after its name, a date has a digit. */
  lemma DayStarts(k: Key)
    requires IsKeyShaped(k) && k.MarkedKey?
    ensures |Identity(k).value| >= 4
    ensures k.mark.Day? ==> |Identity(k).value| > 4 && IsDigit(Identity(k).value[4])
    ensures k.mark.DateTime? ==> |Identity(k).value| > 4 && Identity(k).value[4] == 't'
  {
    hide IsDecimal, IsUuid, ReadTime, StripZeros, EndsInFraction, NumberOf;
    if k.mark.Day? { assert IsDigit(k.marked[..4][0]); }
  }

  lemma TimesApart(mark: Mark, s: string, t: string)
    requires (mark.Clock? || mark.DateTime?) && ValidText(mark, s) && ValidText(mark, t)
    ensures Identity(MarkedKey(mark, s)) == Identity(MarkedKey(mark, t)) <==>
      SameTime(s, t, if mark.Clock? then 8 else 19)
  {
    var width, name := if mark.Clock? then 8 else 19, MarkName(mark);
    ShapedTimes(MarkedKey(mark, s));
    ShapedTimes(MarkedKey(mark, t));
    assert s == s[..width] + s[width..] && t == t[..width] + t[width..];
    hide ValidText, ShortTime, Timed, Billionths;
    ShortIsSameTime(s[..width], s[width..], t[..width], t[width..]);
    assert (name + ShortTime(s))[|name|..] == ShortTime(s) && (name + ShortTime(t))[|name|..] == ShortTime(t);
  }

  lemma TextsApart(name: string, s: string, t: string)
    ensures name + s == name + t <==> s == t
  {
    assert (name + s)[|name|..] == s && (name + t)[|name|..] == t;
  }

  lemma SameMarkApart(j: Key, k: Key)
    requires IsKeyShaped(j) && IsKeyShaped(k) && j.MarkedKey? && k.MarkedKey? && j.mark == k.mark
    ensures Identity(j) == Identity(k) <==> SameKey(j, k)
  {
    if j.mark.Clock? || j.mark.DateTime? {
      TimesApart(j.mark, j.marked, k.marked);
    } else {
      TextsApart(MarkName(j.mark), j.marked, k.marked);
    }
  }

  /** The kinds apart: no identity of one kind is one of another. */
  lemma KindsApart(j: Key, k: Key)
    requires Identity(j).Some? && Identity(k).Some? && Kind(j) != Kind(k)
    ensures Identity(j) != Identity(k)
  {
    Starts(j);
    Starts(k);
  }

  function Kind(k: Key): nat {
    match k
    case TextKey(_) => 0
    case BoolKey(_) => 1
    case NumberKey(_) => 2
    case BigKey(_) => 3
    case MarkedKey(_, _) => 4
    case NoKey => 5
  }

  lemma Starts(k: Key)
    requires Identity(k).Some?
    ensures var s := Identity(k).value;
      && |s| >= 1 && (s[0] == 's' <==> k.TextKey?) && (s[0] == 'n' <==> k.NumberKey?)
      && (s[0] == 'b' <==> k.BoolKey? || k.BigKey?) &&
         (k.BoolKey? || k.BigKey? ==> |s| >= 2 && (s[1] == 'i' <==> k.BigKey?))
  {
    hide ShortTime, IntText;
  }

  /** Two keys have one identity exactly when they are the same key in every language. */
  lemma IdentityIsSameness(j: Key, k: Key)
    requires IsKeyShaped(j) && IsKeyShaped(k) && Identity(j).Some? && Identity(k).Some?
    ensures Identity(j) == Identity(k) <==> SameKey(j, k)
  {
    if Kind(j) != Kind(k) {
      KindsApart(j, k);
    } else if j.MarkedKey? {
      if j.mark == k.mark { SameMarkApart(j, k); } else { MarkedApart(j, k); }
    } else if j.NumberKey? {
      NumbersApart(j.n, k.n);
    } else if j.BigKey? {
      IntRead(j.i);
      IntRead(k.i);
      TextsApart("bigint", IntText(j.i), IntText(k.i));
    } else if j.TextKey? {
      TextsApart("s", j.text, k.text);
    }
  }

  // ── Checking keys ───────────────────────────────────────────────

  /** Every one a key, and no two the same. */
  predicate KeysOk(keys: seq<Key>) {
    && (forall i :: 0 <= i < |keys| ==> IsKey(keys[i]))
    && (forall i, j :: 0 <= i < j < |keys| ==> Identity(keys[i]) != Identity(keys[j]))
  }

  /** Check the keys of a map or set; `received` is its size once made in JavaScript. */
  method CheckKeys(keys: seq<Key>, received: Option<nat>) returns (ok: bool)
    ensures ok <==> KeysOk(keys) && (received.Some? ==> received.value == |keys|)
  {
    hide Identity, IsKey;
    var seen: set<string> := {};
    for i := 0 to |keys|
      invariant forall k :: 0 <= k < i ==> IsKey(keys[k]) && Identity(keys[k]).Some? && Identity(keys[k]).value in seen
      invariant forall s <- seen :: exists k :: 0 <= k < i && Identity(keys[k]) == Some(s)
      invariant forall k, l :: 0 <= k < l < i ==> Identity(keys[k]) != Identity(keys[l])
      invariant |seen| == i
    {
      var identity := Identity(keys[i]);
      KeysHaveIdentities(keys[i]);
      if identity.None? || identity.value in seen { return false; }
      seen := seen + {identity.value};
    }
    ok := received.None? || received.value == |seen|;
  }

  lemma PairApart(keys: seq<Key>, i: nat, j: nat)
    requires (forall k <- keys :: IsKey(k) && IsKeyShaped(k)) && i < |keys| && j < |keys|
    ensures Identity(keys[i]) == Identity(keys[j]) <==> SameKey(keys[i], keys[j])
  {
    assert IsKey(keys[i]) && IsKeyShaped(keys[i]) && IsKey(keys[j]) && IsKeyShaped(keys[j]);
    KeysHaveIdentities(keys[i]);
    KeysHaveIdentities(keys[j]);
    IdentityIsSameness(keys[i], keys[j]);
  }

  /** Keys pass exactly when each can be one, and no two are the same in every language. */
  lemma KeysPassExactly(keys: seq<Key>)
    requires forall k <- keys :: IsKeyShaped(k)
    ensures KeysOk(keys) <==>
      (forall k <- keys :: IsKey(k)) && forall i, j :: 0 <= i < j < |keys| ==> !SameKey(keys[i], keys[j])
  {
    hide Identity, IsKey, IsKeyShaped, SameKey;
    if forall k <- keys :: IsKey(k) {
      forall i, j | 0 <= i < j < |keys| ensures Identity(keys[i]) == Identity(keys[j]) <==> SameKey(keys[i], keys[j]) {
        PairApart(keys, i, j);
      }
    }
  }

  // ── Which texts are numbers ─────────────────────────────────────

  lemma {:induction false} NatLeads(n: nat)
    ensures NatText(n)[0] == '0' ==> n == 0 && |NatText(n)| == 1
    decreases n
  {
    if n >= 10 { NatLeads(n / 10); }
  }

  lemma {:induction false} IntegerRead(s: string)
    requires IsInteger(s)
    ensures s == NatText(NumberOf(s))
    decreases |s|
  {
    var front, n := s[..|s| - 1], NumberOf(s);
    assert s == front + [s[|s| - 1]];
    if front == "" {
      assert NumberOf(front) == 0;
    } else {
      assert front[0] == s[0];
      IntegerRead(front);
      NatRead(NumberOf(front));
      assert NumberOf(front) == 0 ==> front == "0";
    }
  }

  /** An integer's text has no other digit first than the integer's own. */
  lemma IntegersExactly(s: string)
    ensures IsInteger(s) <==> exists n: nat :: s == NatText(n)
  {
    if IsInteger(s) { IntegerRead(s); }
    if n: nat :| s == NatText(n) { NatLeads(n); }
  }

  function DecimalText(minus: bool, whole: nat, fraction: string): string {
    (if minus then "-" else "") + NatText(whole) + if fraction == "" then "" else "." + fraction
  }

  /** A number of at most 4300 digits, its integer without leading zeros. */
  predicate IsNumeral(whole: nat, fraction: string) {
    AllDigits(fraction) && |NatText(whole)| + |fraction| <= 4300
  }

  lemma DecimalParts(s: string, i: nat) returns (whole: nat, fraction: string)
    requires i <= |s| && DecimalAt(s, i)
    ensures IsNumeral(whole, fraction) && s == DecimalText(false, whole, fraction)
  {
    hide NumberOf, NatText, IsInteger;
    IntegerRead(s[..i]);
    whole := NumberOf(s[..i]);
    if i == |s| {
      fraction := "";
      assert s == s[..i] == NatText(whole) + "";
    } else {
      fraction := s[i + 1..];
      assert s == s[..i] + [s[i]] + s[i + 1..];
    }
  }

  lemma NumeralIsDecimal(minus: bool, whole: nat, fraction: string)
    requires IsNumeral(whole, fraction)
    ensures IsDecimal(DecimalText(minus, whole, fraction))
  {
    var text, s, i := DecimalText(minus, whole, fraction), DecimalText(false, whole, fraction), |NatText(whole)|;
    NatLeads(whole);
    assert IsDigit(NatText(whole)[0]);
    assert minus ==> text[1..] == s;
    assert s[..i] == NatText(whole) && (fraction != "" ==> s[i + 1..] == fraction);
    assert DecimalAt(s, i);
  }

  /** A text is a decimal number exactly when it is the text of one: a sign or none, an integer
      without leading zeros, and no fraction or a point and at least one digit. */
  lemma DecimalsExactly(text: string)
    ensures IsDecimal(text) <==>
      exists minus, whole: nat, fraction :: IsNumeral(whole, fraction) && text == DecimalText(minus, whole, fraction)
  {
    if IsDecimal(text) {
      var minus := text != "" && text[0] == '-';
      var s := if minus then text[1..] else text;
      var i :| 0 <= i <= |s| && DecimalAt(s, i);
      var whole, fraction := DecimalParts(s, i);
      assert text == DecimalText(minus, whole, fraction);
    }
    if minus, whole: nat, fraction :| IsNumeral(whole, fraction) && text == DecimalText(minus, whole, fraction) {
      NumeralIsDecimal(minus, whole, fraction);
    }
  }

  predicate AllHex(s: string) {
    forall i :: 0 <= i < |s| ==> IsDigit(s[i]) || s[i] in "abcdef"
  }

  /** A text is a UUID exactly when it is groups of 8, 4, 4, 4 and 12 digits in base 16, in lower case. */
  lemma UuidsExactly(text: string)
    ensures IsUuid(text) <==> exists a, b, c, d, e: string ::
      |a| == 8 && |b| == |c| == |d| == 4 && |e| == 12 && AllHex(a) && AllHex(b) && AllHex(c) && AllHex(d) && AllHex(e)
      && text == a + "-" + b + "-" + c + "-" + d + "-" + e
  {
    if IsUuid(text) {
      var a, b, c, d, e := text[..8], text[9..13], text[14..18], text[19..23], text[24..];
      assert text == a + "-" + b + "-" + c + "-" + d + "-" + e;
      assert AllHex(a) && AllHex(b) && AllHex(c) && AllHex(d) && AllHex(e);
    }
  }
}
