/** Which texts are dates, times and instants: reading is the inverse of writing, on every text. */
module TimeTexts {
  import opened Options
  import opened Digits
  import opened Calendar
  import opened Instants

  /** A time of day, with up to nine digits after the second. */
  predicate IsTime(t: Time) {
    t.hour <= 23 && t.minute <= 59 && t.second <= 59 && AllDigits(t.fraction) && |t.fraction| <= 9
  }

  function ClockPart(t: Time): (s: string)
    ensures |s| == 8
  {
    Padded(t.hour, 2) + ":" + Padded(t.minute, 2) + ":" + Padded(t.second, 2)
  }

  function TimeText(t: Time): string {
    ClockPart(t) + if t.fraction == "" then "" else "." + t.fraction
  }

  /** The parts of a date's text. */
  lemma DateParts(text: string)
    requires |text| == 10 && text[4] == '-' && text[7] == '-'
    requires AllDigits(text[..4]) && AllDigits(text[5..7]) && AllDigits(text[8..])
    ensures text == DateParted(NumberOf(text[..4]), NumberOf(text[5..7]), NumberOf(text[8..]))
  {
    NumberPadded(text[..4]);
    NumberPadded(text[5..7]);
    NumberPadded(text[8..]);
    assert text == text[..4] + "-" + text[5..7] + "-" + text[8..];
  }

  function DateParted(year: nat, month: nat, day: nat): string {
    Padded(year, 4) + "-" + Padded(month, 2) + "-" + Padded(day, 2)
  }

  /** A text is read as a date exactly when it is that date's text. */
  lemma DatesExactly(text: string, d: Date)
    ensures ReadDate(text) == Some(d) <==> IsDate(d) && d.year <= 9999 && text == DateText(d)
  {
    if IsDate(d) && d.year <= 9999 { DateRead(d); }
    if ReadDate(text) == Some(d) { DateParts(text); }
    hide Padded, NumberOf;
  }

  lemma TimeParts(text: string)
    requires |text| >= 8 && text[2] == ':' && text[5] == ':'
    requires AllDigits(text[..2]) && AllDigits(text[3..5]) && AllDigits(text[6..8])
    ensures text == ClockPart(Time(NumberOf(text[..2]), NumberOf(text[3..5]), NumberOf(text[6..8]), "")) + text[8..]
  {
    NumberPadded(text[..2]);
    NumberPadded(text[3..5]);
    NumberPadded(text[6..8]);
    assert text == text[..2] + ":" + text[3..5] + ":" + text[6..8] + text[8..];
  }

  lemma TimeRead(t: Time)
    requires IsTime(t)
    ensures ReadTime(TimeText(t)) == Some(t)
  {
    var s := TimeText(t);
    assert Pow10(2) == 100;
    PaddedNumber(t.hour, 2);
    PaddedNumber(t.minute, 2);
    PaddedNumber(t.second, 2);
    assert s[..2] == Padded(t.hour, 2) && s[3..5] == Padded(t.minute, 2) && s[6..8] == Padded(t.second, 2);
    assert s[8..] == if t.fraction == "" then "" else "." + t.fraction;
    assert t.fraction != "" ==> s[8..][1..] == t.fraction && s[9..] == t.fraction;
    hide Padded, NumberOf, Pow10;
  }

  /** A text is read as a time exactly when it is that time's text: an hour, a minute and a second
      in range, and no fraction or a point and one to nine digits. */
  lemma TimesExactly(text: string, t: Time)
    ensures ReadTime(text) == Some(t) <==> IsTime(t) && text == TimeText(t)
  {
    if IsTime(t) { TimeRead(t); }
    if ReadTime(text) == Some(t) {
      TimeParts(text);
      assert text[8..] != "" ==> text[8..] == "." + text[9..];
    }
    hide Padded, NumberOf;
  }

  /** And as a date and time, or as an instant, when it is the date's, a `T` and the time's. */
  lemma DateTimesExactly(text: string, d: Date, t: Time)
    ensures ReadDateTime(text) == Some((d, t)) <==>
      IsDate(d) && d.year <= 9999 && IsTime(t) && text == DateText(d) + "T" + TimeText(t)
  {
    if IsDate(d) && d.year <= 9999 {
      var whole := DateText(d) + "T" + TimeText(t);
      DateRead(d);
      assert whole[..10] == DateText(d) && whole[11..] == TimeText(t);
    }
    if |text| > 10 {
      assert text == text[..10] + [text[10]] + text[11..];
      DatesExactly(text[..10], d);
      TimesExactly(text[11..], t);
    }
    hide ReadDate, ReadTime, TimeText, DateText, IsTime;
  }

  lemma InstantsExactly(text: string, d: Date, t: Time)
    ensures ReadInstant(text) == Some((d, t)) <==>
      IsDate(d) && d.year <= 9999 && IsTime(t) && text == DateText(d) + "T" + TimeText(t) + "Z"
  {
    if IsDate(d) {
      var whole := DateText(d) + "T" + TimeText(t);
      assert (whole + "Z")[..|whole|] == whole;
    }
    if text != "" {
      var front := text[..|text| - 1];
      assert text == front + [text[|text| - 1]];
      DateTimesExactly(front, d, t);
      hide ReadDateTime, TimeText, DateText, IsTime;
    }
  }

  /** An instant is written as its date and its time of day, to the millisecond, the fraction without
      trailing zeros. */
  lemma WrittenShort(ms: int)
    requires FIRST_MS <= ms <= LAST_MS
    ensures var d, t := DateOf(ms), TimeOf(ms);
      && InstantText(ms).Some? && IsDate(d) && d.year <= 9999 && IsTime(t)
      && InstantText(ms).value == DateText(d) + "T" + TimeText(t) + "Z"
      && |t.fraction| <= 3 && (t.fraction != "" ==> t.fraction[|t.fraction| - 1] != '0')
  {
    hide InstantText, DateOf, ReadInstant, DateText, TimeText, StripZeros, Padded;
    Instants.Written(ms);
    WrittenRead(ms);
    InstantsExactly(InstantText(ms).value, DateOf(ms), TimeOf(ms));
    StripSplit(Padded(ms % 1000, 3));
  }
}
