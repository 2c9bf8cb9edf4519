/** The texts of dates, times and instants: reading, writing, and when two are one time. */
module Instants {
  import opened Options
  import opened Digits
  import opened Calendar

  // ── Reading ─────────────────────────────────────────────────────

  /** `fraction`: the digits after the seconds, none or up to nine. */
  datatype Time = Time(hour: nat, minute: nat, second: nat, fraction: string)

  function ReadDate(text: string): (d: Option<Date>)
    ensures d.Some? ==> IsDate(d.value) && d.value.year <= 9999
  {
    if |text| != 10 || text[4] != '-' || text[7] != '-' then None
    else if !AllDigits(text[..4]) || !AllDigits(text[5..7]) || !AllDigits(text[8..]) then None
    else
      var d := Date(NumberOf(text[..4]), NumberOf(text[5..7]), NumberOf(text[8..]));
      NumberPadded(text[..4]);
      assert Pow10(4) == 10000;
      if IsDate(d) then Some(d) else None
  }

  predicate IsFraction(text: string) {
    text == "" || (text[0] == '.' && 2 <= |text| <= 10 && AllDigits(text[1..]))
  }

  function ReadTime(text: string): (t: Option<Time>)
    ensures t.Some? ==> t.value.hour <= 23 && t.value.minute <= 59 && t.value.second <= 59
    ensures t.Some? ==> AllDigits(t.value.fraction) && |t.value.fraction| <= 9
  {
    if |text| < 8 || text[2] != ':' || text[5] != ':' then None
    else if !AllDigits(text[..2]) || !AllDigits(text[3..5]) || !AllDigits(text[6..8]) ||
      !IsFraction(text[8..]) then None
    else
      var t := Time(NumberOf(text[..2]), NumberOf(text[3..5]), NumberOf(text[6..8]), if text[8..] ==
        "" then "" else text[9..]);
      assert text[8..] != "" ==> text[8..][1..] == text[9..];
      if t.hour > 23 || t.minute > 59 || t.second > 59 then None else Some(t)
  }

  function ReadDateTime(text: string): (dt: Option<(Date, Time)>)
    ensures dt.Some? ==> IsDate(dt.value.0) && dt.value.0.year <= 9999 && |text| >= 19
    ensures dt.Some? ==> AllDigits(dt.value.1.fraction) && |dt.value.1.fraction| <= 9
  {
    if |text| <= 10 || text[10] != 'T' || 'T' in text[..10] then None
    else
      var date, time := ReadDate(text[..10]), ReadTime(text[11..]);
      if date.Some? && time.Some? then Some((date.value, time.value)) else None
  }

  /** What an instant's text says: its date and time in UTC. */
  function ReadInstant(text: string): (dt: Option<(Date, Time)>)
    ensures dt.Some? ==> IsDate(dt.value.0) && AllDigits(dt.value.1.fraction) && |dt.value.1.fraction| <= 9
  {
    if text == "" || text[|text| - 1] != 'Z' then None else ReadDateTime(text[..|text| - 1])
  }

  function SecondsOf(d: Date, t: Time): int {
    DaysFromCivil(d) * 86400 + t.hour * 3600 + t.minute * 60 + t.second
  }

  /** A fraction's first three digits, zeros where it has none. */
  function Milliseconds(fraction: string): nat
    requires AllDigits(fraction)
  {
    var padded := fraction + Zeros(if |fraction| < 3 then 3 - |fraction| else 0);
    NumberOf(padded[..3])
  }

  /** The milliseconds of an instant's text. */
  function InstantFromText(text: string): Option<int> {
    var dt := ReadInstant(text);
    if dt.None? then None else Some(SecondsOf(dt.value.0, dt.value.1) * 1000 + Milliseconds(dt.value.1.fraction))
  }

  function Whole(fraction: string): (s: string)
    requires |fraction| <= 9
    ensures |s| == 9 && (AllDigits(fraction) ==> AllDigits(s))
  {
    fraction + Zeros(9 - |fraction|)
  }

  /** A fraction in billionths of a second: as exact as its nine digits. */
  function Billionths(fraction: string): nat
    requires AllDigits(fraction) && |fraction| <= 9
  {
    NumberOf(Whole(fraction))
  }

  /** The instant a text names, exactly: billionths of a second from 1970-01-01, its days counted
      one by one. */
  ghost function Exactly(d: Date, t: Time): int
    requires IsDate(d) && AllDigits(t.fraction) && |t.fraction| <= 9
  {
    var days := DaysCounted(d) - DaysCounted(Date(1970, 1, 1));
    (days * 86400 + t.hour * 3600 + t.minute * 60 + t.second) * 1_000_000_000 + Billionths(t.fraction)
  }

  lemma MillisecondsAreLeading(fraction: string)
    requires AllDigits(fraction) && |fraction| <= 9
    ensures Milliseconds(fraction) == Billionths(fraction) / 1_000_000
  {
    var all := Whole(fraction);
    var padded := fraction + Zeros(if |fraction| < 3 then 3 - |fraction| else 0);
    assert padded[..3] == all[..3];
    NumberPrefix(all, 3);
    assert Pow10(6) == 1_000_000;
  }

  /** What is read is the instant the text names, cut to the millisecond toward the past, also
      before 1970. */
  lemma ReadIsFloor(text: string)
    requires ReadInstant(text).Some?
    ensures var dt := ReadInstant(text).value;
      InstantFromText(text) == Some(Exactly(dt.0, dt.1) / 1_000_000)
  {
    var dt := ReadInstant(text).value;
    var s, n := SecondsOf(dt.0, dt.1), Billionths(dt.1.fraction);
    MillisecondsAreLeading(dt.1.fraction);
    DaysBetween(dt.0, Date(1970, 1, 1));
    assert DaysFromCivil(Date(1970, 1, 1)) == 0;
    hide DaysFromCivil, Billionths, Milliseconds;
    DivUnique(s * 1_000_000_000 + n, 1_000_000, s * 1000 + n / 1_000_000, n % 1_000_000);
  }

  // ── Writing ─────────────────────────────────────────────────────

  const FIRST_MS := -62_135_596_800_000
  const LAST_MS := 253_402_300_799_999

  function StripZeros(s: string): (t: string)
    ensures |t| <= |s| && t == s[..|t|]
  {
    if s != "" && s[|s| - 1] == '0' then StripZeros(s[..|s| - 1]) else s
  }

  function DropDot(s: string): string {
    if s != "" && s[|s| - 1] == '.' then s[..|s| - 1] else s
  }

  function DateText(d: Date): (s: string)
    requires IsDate(d)
    ensures |s| == 10
  {
    Padded(d.year, 4) + "-" + Padded(d.month, 2) + "-" + Padded(d.day, 2)
  }

  function ClockText(second: nat): (s: string)
    ensures |s| == 8
  {
    Padded(second / 3600, 2) + ":" + Padded(second / 60 % 60, 2) + ":" + Padded(second % 60, 2)
  }

  /** The date a millisecond is in, counted from 0001-01-01. */
  function DateOf(ms: int): (d: Date)
    requires FIRST_MS <= ms
    ensures IsDate(d)
  {
    DayAt(ms / 1000 / 86400 + EPOCH)
  }

  /** Its second of the day, and its time of day. */
  function ClockOf(ms: int): (second: nat)
    ensures second < 86400
  {
    ms / 1000 % 86400
  }

  function TimeOf(ms: int): (t: Time)
    ensures AllDigits(t.fraction)
  {
    var second := ClockOf(ms);
    Time(second / 3600, second / 60 % 60, second % 60, StripZeros(Padded(ms % 1000, 3)))
  }

  function BaseText(ms: int): (s: string)
    requires FIRST_MS <= ms
    ensures |s| == 19
  {
    DateText(DateOf(ms)) + "T" + ClockText(ClockOf(ms))
  }

  /** An instant's text, without trailing zeros; none outside the years 1 to 9999. */
  function InstantText(ms: int): Option<string> {
    if ms < FIRST_MS || ms > LAST_MS then None
    else Some(DropDot(StripZeros(BaseText(ms) + "." + Padded(ms % 1000, 3))) + "Z")
  }

  lemma LateYear(d: Date)
    requires IsDate(d) && d.year > 9999
    ensures DaysFromCivil(d) >= 2_932_897
  {
    var end := Date(10000, 1, 1);
    DaysAreCounted(end);
    assert DaysFromCivil(end) == 2_932_897;
    hide DaysFromCivil, DayAt;
    EveryDateCounted(d, 3_652_059);
  }

  lemma YearFits(n: nat)
    requires n <= 3_652_058
    ensures DayAt(n).year <= 9999
  {
    CountedIsComputed(n);
    hide DaysFromCivil, DayAt;
    if DayAt(n).year > 9999 { LateYear(DayAt(n)); }
  }

  lemma DateRead(d: Date)
    requires IsDate(d) && d.year <= 9999
    ensures ReadDate(DateText(d)) == Some(d) && 'T' !in DateText(d)
  {
    var s := DateText(d);
    assert Pow10(4) == 10000 && Pow10(2) == 100;
    PaddedNumber(d.year, 4);
    PaddedNumber(d.month, 2);
    PaddedNumber(d.day, 2);
    assert s[..4] == Padded(d.year, 4) && s[5..7] == Padded(d.month, 2) && s[8..] == Padded(d.day, 2);
  }

  lemma ClockRead(second: nat, rest: string)
    requires second < 86400 && IsFraction(rest)
    ensures ReadTime(ClockText(second) + rest) ==
      Some(Time(second / 3600, second / 60 % 60, second % 60, if rest == "" then "" else rest[1..]))
  {
    var s := ClockText(second) + rest;
    assert Pow10(2) == 100;
    PaddedNumber(second / 3600, 2);
    PaddedNumber(second / 60 % 60, 2);
    PaddedNumber(second % 60, 2);
    assert s[..2] == Padded(second / 3600, 2) && s[3..5] == Padded(second / 60 % 60, 2) &&
      s[6..8] == Padded(second % 60, 2);
    assert s[8..] == rest;
  }

  lemma {:induction false} StripTail(p: string, s: string)
    requires p != "" && p[|p| - 1] != '0'
    ensures StripZeros(p + s) == p + StripZeros(s)
    decreases |s|
  {
    if s == "" {
      assert p + s == p;
    } else {
      assert (p + s)[..|p + s| - 1] == p + s[..|s| - 1];
      StripTail(p, s[..|s| - 1]);
    }
  }

  /** What is stripped is zeros, and no zero is left. */
  lemma {:induction false} StripSplit(s: string)
    ensures var t := StripZeros(s);
      s == t + Zeros(|s| - |t|) && (t != "" ==> t[|t| - 1] != '0')
    decreases |s|
  {
    if s != "" && s[|s| - 1] == '0' {
      StripSplit(s[..|s| - 1]);
      var t := StripZeros(s);
      assert Zeros(|s| - |t|) == Zeros(|s| - 1 - |t|) + ['0'];
    } else {
      assert s + Zeros(0) == s;
    }
  }

  lemma DotDropped(base: string, f: string)
    requires f == "" || f[|f| - 1] != '.'
    ensures DropDot(base + "." + f) == if f == "" then base else base + "." + f
  {
    if f == "" { assert (base + "." + f)[..|base|] == base; }
  }

  /** The fraction an instant is written with, if any. */
  lemma FractionWritten(base: string, digits: string)
    requires AllDigits(digits)
    ensures var f := StripZeros(digits);
      DropDot(StripZeros(base + "." + digits)) == base + if f == "" then "" else "." + f
  {
    var f := StripZeros(digits);
    assert f == "" || IsDigit(f[|f| - 1]);
    hide StripZeros, DropDot;
    StripTail(base + ".", digits);
    DotDropped(base, f);
    if f != "" { assert base + "." + f == base + ("." + f); } else { assert base + "" == base; }
  }

  /** A date, a `T` and a time read as an instant. */
  lemma PartsRead(date: string, time: string)
    requires |date| == 10 && ReadDate(date).Some? && 'T' !in date && ReadTime(time).Some?
    ensures ReadInstant(date + "T" + time + "Z") == Some((ReadDate(date).value, ReadTime(time).value))
  {
    hide ReadDate, ReadTime;
    var text := date + "T" + time;
    assert (text + "Z")[..|text|] == text;
    assert text[..10] == date && text[11..] == time;
  }

  lemma WrittenDateRead(ms: int)
    requires FIRST_MS <= ms <= LAST_MS
    ensures ReadDate(DateText(DateOf(ms))) == Some(DateOf(ms)) && 'T' !in DateText(DateOf(ms))
  {
    YearFits(ms / 1000 / 86400 + EPOCH);
    DateRead(DateOf(ms));
  }

  /** What was written reads as the same date, clock and fraction. */
  lemma WrittenRead(ms: int)
    requires FIRST_MS <= ms <= LAST_MS
    ensures ReadInstant(InstantText(ms).value) == Some((DateOf(ms), TimeOf(ms)))
  {
    hide ReadInstant, ReadDate, ReadTime, DateOf, ClockOf, StripZeros, DropDot, Padded, ClockText, DateText;
    var f := StripZeros(Padded(ms % 1000, 3));
    var rest := if f == "" then "" else "." + f;
    FractionWritten(BaseText(ms), Padded(ms % 1000, 3));
    WrittenDateRead(ms);
    assert f != "" ==> rest[1..] == f;
    ClockRead(ClockOf(ms), rest);
    PartsRead(DateText(DateOf(ms)), ClockText(ClockOf(ms)) + rest);
    assert BaseText(ms) + rest + "Z" == DateText(DateOf(ms)) + "T" + (ClockText(ClockOf(ms)) + rest) + "Z";
  }

  lemma StrippedMilliseconds(digits: string)
    requires AllDigits(digits) && |digits| == 3
    ensures AllDigits(StripZeros(digits)) && Milliseconds(StripZeros(digits)) == NumberOf(digits)
  {
    StripSplit(digits);
    var f := StripZeros(digits);
    assert (f + Zeros(3 - |f|))[..3] == digits;
  }

  lemma InstantOf(text: string, d: Date, t: Time)
    requires AllDigits(t.fraction) && ReadInstant(text) == Some((d, t))
    ensures InstantFromText(text) == Some(SecondsOf(d, t) * 1000 + Milliseconds(t.fraction))
  {}

  lemma ClockAdds(ms: int)
    ensures var t := TimeOf(ms); t.hour * 3600 + t.minute * 60 + t.second == ClockOf(ms)
  {
    hide ClockOf, StripZeros, Padded;
    ClockSum(ClockOf(ms));
  }

  lemma DayAdds(ms: int)
    requires FIRST_MS <= ms
    ensures DaysFromCivil(DateOf(ms)) * 86400 + ClockOf(ms) == ms / 1000
  {
    CountedIsComputed(ms / 1000 / 86400 + EPOCH);
    hide DayAt, DaysFromCivil;
  }

  /** What the parts of a written instant add up to. */
  lemma WrittenSum(ms: int)
    requires FIRST_MS <= ms
    ensures SecondsOf(DateOf(ms), TimeOf(ms)) == ms / 1000
  {
    ClockAdds(ms);
    DayAdds(ms);
    hide DateOf, TimeOf, ClockOf, DaysFromCivil;
  }

  lemma WrittenMilliseconds(ms: int)
    ensures Milliseconds(TimeOf(ms).fraction) == ms % 1000
  {
    assert Pow10(3) == 1000;
    PaddedNumber(ms % 1000, 3);
    StrippedMilliseconds(Padded(ms % 1000, 3));
  }

  lemma Written(ms: int)
    ensures InstantText(ms).Some? <==> FIRST_MS <= ms <= LAST_MS
  {}

  /** Reading what is written gives back every millisecond of the years 1 to 9999. */
  lemma InstantRoundTrip(ms: int)
    ensures InstantText(ms).Some? <==> FIRST_MS <= ms <= LAST_MS
    ensures InstantText(ms).Some? ==> InstantFromText(InstantText(ms).value) == Some(ms)
  {
    hide *;
    Written(ms);
    if FIRST_MS <= ms <= LAST_MS {
      WrittenRead(ms);
      WrittenMilliseconds(ms);
      WrittenSum(ms);
      InstantOf(InstantText(ms).value, DateOf(ms), TimeOf(ms));
    }
  }

  lemma ClockSum(second: nat)
    ensures second / 3600 * 3600 + second / 60 % 60 * 60 + second % 60 == second
  {}

  // ── When two times are one ──────────────────────────────────────

  predicate EndsInFraction(text: string) {
    exists i :: 0 <= i < |text| && text[i] == '.' && AllDigits(text[i + 1..])
  }

  /** A time without the trailing zeros of its fraction: what it is known by as a key. */
  function ShortTime(text: string): string {
    DropDot(if EndsInFraction(text) then StripZeros(text) else text)
  }

  /** A text that is a base of digits and marks, then a fraction. */
  predicate Timed(base: string, rest: string) {
    base != "" && IsDigit(base[|base| - 1]) && '.' !in base && IsFraction(rest)
  }

  function FractionOf(rest: string): string {
    if rest == "" then "" else rest[1..]
  }

  lemma ShortParts(base: string, rest: string)
    requires Timed(base, rest)
    ensures var f := StripZeros(FractionOf(rest)); ShortTime(base + rest) == Joined(base, f)
  {
    var text := base + rest;
    if rest == "" {
      assert text == base;
      assert !EndsInFraction(text);
    } else {
      assert text[|base|] == '.' && text[|base| + 1..] == rest[1..];
      assert rest == "." + rest[1..];
      FractionWritten(base, rest[1..]);
      assert text == base + "." + rest[1..];
    }
  }

  /** A number's digits, padded to nine with zeros, are its stripped digits padded. */
  lemma PaddedStripped(f: string)
    requires AllDigits(f) && |f| <= 9
    ensures var s := StripZeros(f); |s| <= 9 && Whole(f) == Whole(s) && (s != "" ==> s[|s| - 1] != '0')
  {
    StripSplit(f);
  }

  lemma LongerTail(s: string, t: string)
    requires |s| < |t| <= 9 && Whole(s) == Whole(t)
    ensures t[|t| - 1] == '0'
  {
    assert Whole(s)[|t| - 1] == '0';
  }

  lemma SameTail(s: string, t: string)
    requires |s| <= 9 && |t| <= 9 && Whole(s) == Whole(t)
    requires (s == "" || s[|s| - 1] != '0') && (t == "" || t[|t| - 1] != '0')
    ensures s == t
  {
    if |s| < |t| { LongerTail(s, t); }
    if |t| < |s| { LongerTail(t, s); }
    assert s == Whole(s)[..|s|] && t == Whole(t)[..|t|];
  }

  lemma SameNumber(s: string, t: string)
    requires AllDigits(s) && AllDigits(t) && |s| == |t| && NumberOf(s) == NumberOf(t)
    ensures s == t
  {
    hide NumberOf, Padded;
    NumberPadded(s);
    NumberPadded(t);
  }

  lemma SameFractions(f: string, g: string)
    requires AllDigits(f) && AllDigits(g) && |f| <= 9 && |g| <= 9
    ensures StripZeros(f) == StripZeros(g) <==> Billionths(f) == Billionths(g)
  {
    hide StripZeros, NumberOf, Whole;
    PaddedStripped(f);
    PaddedStripped(g);
    if Billionths(f) == Billionths(g) {
      SameNumber(Whole(f), Whole(g));
      SameTail(StripZeros(f), StripZeros(g));
    }
  }

  /** A text from its base and its fraction without zeros. */
  function Joined(base: string, f: string): (s: string)
    ensures |s| == |base| + if f == "" then 0 else 1 + |f|
  {
    base + if f == "" then "" else "." + f
  }

  lemma JoinedSame(base: string, f: string, base2: string, f2: string)
    requires |base| == |base2| && Joined(base, f) == Joined(base2, f2)
    ensures base == base2 && f == f2
  {
    assert base == Joined(base, f)[..|base|] && base2 == Joined(base2, f2)[..|base2|];
    if f != "" { assert f == Joined(base, f)[|base| + 1..] && f2 == Joined(base2, f2)[|base2| + 1..]; }
  }

  /** Two texts are shortened alike exactly when they are one time: the same to the second, and
      fractions equal as numbers. */
  lemma ShortIsSameTime(base: string, rest: string, base2: string, rest2: string)
    requires Timed(base, rest) && Timed(base2, rest2) && |base| == |base2|
    ensures ShortTime(base + rest) == ShortTime(base2 + rest2)
      <==> base == base2 && Billionths(FractionOf(rest)) == Billionths(FractionOf(rest2))
  {
    ShortParts(base, rest);
    ShortParts(base2, rest2);
    SameFractions(FractionOf(rest), FractionOf(rest2));
    var f, f2 := StripZeros(FractionOf(rest)), StripZeros(FractionOf(rest2));
    hide StripZeros, ShortTime, Billionths, Joined;
    if ShortTime(base + rest) == ShortTime(base2 + rest2) { JoinedSame(base, f, base2, f2); }
  }
}
