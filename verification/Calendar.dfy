/** The civil calendar: the arithmetic of days, and counting them one by one. */
module Calendar {
  import opened Digits

  datatype Date = Date(year: int, month: int, day: int)

  predicate Leap(year: int) {
    year % 4 == 0 && (year % 100 != 0 || year % 400 == 0)
  }

  function DaysInMonth(year: int, month: int): int {
    if month == 2 then (if Leap(year) then 29 else 28)
    else if month == 4 || month == 6 || month == 9 || month == 11 then 30 else 31
  }

  predicate IsDate(d: Date) {
    1 <= d.year && 1 <= d.month <= 12 && 1 <= d.day <= DaysInMonth(d.year, d.month)
  }

  /** Days from March to `month`, in a year that starts with March. */
  function MonthStart(month: int): int {
    (153 * ((month + 9) % 12) + 2) / 5
  }

  lemma MonthStarts()
    ensures MonthStart(3) == 0 && MonthStart(4) == 31 && MonthStart(5) == 61 && MonthStart(6) == 92
    ensures MonthStart(7) == 122
    ensures MonthStart(8) == 153 && MonthStart(9) == 184 && MonthStart(10) == 214 && MonthStart(11) == 245
    ensures MonthStart(12) == 275 && MonthStart(1) == 306 && MonthStart(2) == 337
  {}

  lemma MonthLengths(year: int, month: int)
    requires 1 <= month < 12 && month != 2
    ensures MonthStart(month + 1) == MonthStart(month) + DaysInMonth(year, month)
    ensures MonthStart(1) == MonthStart(12) + 31 && MonthStart(3) == 0 && MonthStart(2) == 337
  {
    MonthStarts();
    hide MonthStart;
  }

  /** Days from 1970-01-01, by arithmetic on the eras of 400 years. */
  function DaysFromCivil(d: Date): int {
    var year := d.year - if d.month <= 2 then 1 else 0;
    var era := year / 400;
    var yearOfEra := year - era * 400;
    var dayOfYear := MonthStart(d.month) + d.day - 1;
    var dayOfEra := yearOfEra * 365 + yearOfEra / 4 - yearOfEra / 100 + dayOfYear;
    era * 146097 + dayOfEra - 719468
  }

  /** The day after. */
  function Next(d: Date): (n: Date)
    requires IsDate(d)
    ensures IsDate(n)
  {
    if d.day < DaysInMonth(d.year, d.month) then Date(d.year, d.month, d.day + 1)
    else if d.month < 12 then Date(d.year, d.month + 1, 1)
    else Date(d.year + 1, 1, 1)
  }

  /** The date `n` days after 0001-01-01, counted one by one. */
  function DayAt(n: nat): (d: Date)
    ensures IsDate(d)
  {
    if n == 0 then Date(1, 1, 1) else Next(DayAt(n - 1))
  }

  /** Days from 0001-01-01 to 1970-01-01. */
  const EPOCH: nat := 719162

  /** The years before `year`, with no leap day out of place: what the eras add up to. */
  lemma EraDays(year: int)
    ensures var era := year / 400; var y := year - era * 400;
      era * 146097 + y * 365 + y / 4 - y / 100 == 365 * year + year / 4 - year / 100 + year / 400
  {
    var era := year / 400;
    var y := year - era * 400;
    assert year / 4 == era * 100 + y / 4;
    assert year / 100 == era * 4 + y / 100;
  }

  lemma DaysSummed(d: Date)
    ensures var year := d.year - if d.month <= 2 then 1 else 0;
      DaysFromCivil(d) == 365 * year + year / 4 - year / 100 + year / 400 + MonthStart(d.month) + d.day - 1 - 719468
  {
    EraDays(d.year - if d.month <= 2 then 1 else 0);
  }

  lemma MonthEnds(d: Date)
    requires IsDate(d) && d.day == DaysInMonth(d.year, d.month) && d.month < 12
    ensures DaysFromCivil(Next(d)) == DaysFromCivil(d) + 1
  {
    hide DaysFromCivil, MonthStart, Leap;
    DaysSummed(d);
    DaysSummed(Next(d));
    MonthLengths(d.year, if d.month == 2 then 1 else d.month);
    LeapStep(d.year);
  }

  lemma YearEnds(d: Date)
    requires IsDate(d) && d.day == 31 && d.month == 12
    ensures DaysFromCivil(Next(d)) == DaysFromCivil(d) + 1
  {
    DaysSummed(d);
    DaysSummed(Next(d));
    MonthLengths(d.year, 1);
    hide DaysFromCivil, MonthStart;
  }

  /** A day more is one more, across months, leap days and centuries. */
  lemma NextIsOneMore(d: Date)
    requires IsDate(d)
    ensures DaysFromCivil(Next(d)) == DaysFromCivil(d) + 1
  {
    if d.day < DaysInMonth(d.year, d.month) {
      hide MonthStart;
    } else if d.month < 12 {
      MonthEnds(d);
    } else {
      YearEnds(d);
    }
  }

  lemma LeapStep(year: int)
    ensures year / 4 - year / 100 + year / 400 ==
      (year - 1) / 4 - (year - 1) / 100 + (year - 1) / 400 + if Leap(year) then 1 else 0
  {
    DivStep(year, 4);
    DivStep(year, 100);
    DivStep(year, 400);
  }

  lemma DivStep(n: int, p: int)
    requires p > 1
    ensures n / p == (n - 1) / p + if n % p == 0 then 1 else 0
  {
    var q, r := n / p, n % p;
    assert n == q * p + r;
    if r == 0 {
      assert n - 1 == (q - 1) * p + (p - 1);
      DivUnique(n - 1, p, q - 1, p - 1);
    } else {
      DivUnique(n - 1, p, q, r - 1);
    }
  }

  /** The arithmetic is the count: the date counted `n` days from 0001-01-01 is at `n`. */
  lemma {:induction false} CountedIsComputed(n: nat)
    ensures DaysFromCivil(DayAt(n)) == n - EPOCH
    decreases n
  {
    if n > 0 {
      CountedIsComputed(n - 1);
      NextIsOneMore(DayAt(n - 1));
    }
  }

  /** Later dates are at greater days: no two dates share one. */
  predicate Before(d: Date, e: Date) {
    d.year < e.year || (d.year == e.year && (d.month < e.month || (d.month == e.month && d.day < e.day)))
  }

  lemma NoneBetween(d: Date, e: Date)
    requires IsDate(d) && IsDate(e) && Before(d, e)
    ensures e == Next(d) || Before(Next(d), e)
  {}

  /** Every date is reached by counting. */
  lemma {:induction false} EveryDateCounted(e: Date, n: nat)
    requires IsDate(e) && (e == DayAt(n) || Before(DayAt(n), e))
    ensures DaysFromCivil(e) >= n - EPOCH && e == DayAt(DaysFromCivil(e) + EPOCH)
    decreases if e.year >= DayAt(n).year then e.year - DayAt(n).year else 0,
              12 - DayAt(n).month,
              31 - DayAt(n).day
  {
    CountedIsComputed(n);
    if e != DayAt(n) {
      NoneBetween(DayAt(n), e);
      EveryDateCounted(e, n + 1);
    }
  }

  /** For every date, the arithmetic equals counting days one by one, leap days and all. */
  lemma DaysAreCounted(d: Date)
    requires IsDate(d)
    ensures DaysFromCivil(d) + EPOCH >= 0 && d == DayAt(DaysFromCivil(d) + EPOCH)
    ensures forall n: nat :: d == DayAt(n) ==> n == DaysFromCivil(d) + EPOCH
  {
    EveryDateCounted(d, 0);
    forall n: nat | d == DayAt(n) ensures n == DaysFromCivil(d) + EPOCH { CountedIsComputed(n); }
  }

  /** How many days a date is after 0001-01-01, counting them one by one. */
  ghost function DaysCounted(d: Date): (n: nat)
    requires IsDate(d)
    ensures DayAt(n) == d
  {
    DaysAreCounted(d);
    var n: nat :| DayAt(n) == d;
    n
  }

  /** The arithmetic measures the days between two dates. */
  lemma DaysBetween(d: Date, e: Date)
    requires IsDate(d) && IsDate(e)
    ensures DaysCounted(d) - DaysCounted(e) == DaysFromCivil(d) - DaysFromCivil(e)
  {
    DaysAreCounted(d);
    DaysAreCounted(e);
    hide DaysFromCivil;
  }
}
