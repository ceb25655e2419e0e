/** Calendar dates and their ISO 8601 text (`date.isoformat()`). */
module Dates {
  import opened Basics
  import opened Decimals
  import opened Text

  datatype Date = Date(year: nat, month: nat, day: nat) {
    /** A date that Python's `date` can hold. */
    predicate Valid() {
      1 <= year <= 9999 && 1 <= month <= 12 && 1 <= day <= MonthLength(year, month)
    }

    predicate Before(other: Date) {
      year < other.year
      || (year == other.year && (month < other.month || (month == other.month && day < other.day)))
    }
  }

  predicate IsLeap(year: nat) {
    year % 4 == 0 && (year % 100 != 0 || year % 400 == 0)
  }

  function MonthLength(year: nat, month: nat): (n: nat)
    ensures 28 <= n <= 31
  {
    if month == 2 then if IsLeap(year) then 29 else 28
    else if month in {4, 6, 9, 11} then 30
    else 31
  }

  /** The Gregorian calendar: the lengths of the months, and which years have a day more. */
  lemma MonthsExact(year: nat, month: nat)
    requires 1 <= month <= 12
    ensures month != 2 ==> MonthLength(year, month) == [31, 28, 31, 30, 31, 30, 31, 31, 30, 31, 30, 31][month - 1]
    ensures MonthLength(year, 2) == 29 <==> (year % 4 == 0 && year % 100 != 0) || year % 400 == 0
    ensures MonthLength(year, 2) in {28, 29}
  {
  }

  type CalendarDate = d: Date | d.Valid() witness Date(1, 1, 1)

  function IsoDate(d: CalendarDate): string {
    [Digit(d.year / 1000), Digit(d.year / 100 % 10), Digit(d.year / 10 % 10), Digit(d.year % 10), '-',
     Digit(d.month / 10), Digit(d.month % 10), '-', Digit(d.day / 10), Digit(d.day % 10)]
  }

  lemma Places(n: nat)
    ensures n == n / 1000 * 1000 + n / 100 % 10 * 100 + n / 10 % 10 * 10 + n % 10
  {
    assert n / 100 == n / 1000 * 10 + n / 100 % 10;
    assert n / 10 == n / 100 * 10 + n / 10 % 10;
  }

  lemma IsoDateInjective(d: CalendarDate, e: CalendarDate)
    requires IsoDate(d) == IsoDate(e)
    ensures d == e
  {
    var s, t := IsoDate(d), IsoDate(e);
    assert s[0] == t[0] && s[1] == t[1] && s[2] == t[2] && s[3] == t[3];
    assert s[5] == t[5] && s[6] == t[6] && s[8] == t[8] && s[9] == t[9];
    Places(d.year);
    Places(e.year);
    assert d.month == d.month / 10 * 10 + d.month % 10 && e.month == e.month / 10 * 10 + e.month % 10;
    assert d.day == d.day / 10 * 10 + d.day % 10 && e.day == e.day / 10 * 10 + e.day % 10;
  }

  lemma IsoDateIsPlain(d: CalendarDate)
    ensures Plain(IsoDate(d)) && IsoDate(d) != ""
  {
    var s := IsoDate(d);
    forall i | 0 <= i < |s| ensures s[i] == '-' || '0' <= s[i] <= '9' {
    }
  }

  /**
   A `datetime` by the reading of its clock: in UTC when it knows its time zone, and as it stands
   when it does not.
   */
  datatype Clock = Clock(day: Date, hour: nat, minute: nat, second: nat, microsecond: nat) {
    predicate Valid() {
      day.Valid() && hour < 24 && minute < 60 && second < 60 && microsecond < 1_000_000
    }
  }

  type Moment = c: Clock | c.Valid() witness Clock(Date(1, 1, 1), 0, 0, 0, 0)

  function ClockDigits(n: nat): string
    requires n < 100
  {
    [Digit(n / 10), Digit(n % 10)]
  }

  /** Truncated to seconds, and marked as UTC. */
  function IsoMoment(m: Moment): string {
    IsoDate(m.day) + ("T" + (ClockDigits(m.hour) + (":" + (ClockDigits(m.minute) + (":" + (ClockDigits(m.second) + "Z"))))))
  }

  lemma ClockDigitsInjective(m: nat, n: nat)
    requires m < 100 && n < 100 && ClockDigits(m) == ClockDigits(n)
    ensures m == n
  {
    assert ClockDigits(m)[0] == ClockDigits(n)[0] && ClockDigits(m)[1] == ClockDigits(n)[1];
    assert m == m / 10 * 10 + m % 10 && n == n / 10 * 10 + n % 10;
  }

  lemma Behind(a: string, b: string, s: string, t: string, mark: string)
    requires |a| == |b| && a + (mark + s) == b + (mark + t)
    ensures a == b && s == t
  {
    SplitEqual(a, mark + s, b, mark + t);
    SplitEqual(mark, s, mark, t);
  }

  /** Two moments have one text exactly when they are the same up to microseconds. */
  lemma IsoMomentExact(m: Moment, n: Moment)
    ensures IsoMoment(m) == IsoMoment(n) <==> m == n.(microsecond := m.microsecond)
  {
    if IsoMoment(m) == IsoMoment(n) {
      hide ClockDigits;
      SameClock(m, n);
      ClockDigitsInjective(m.hour, n.hour);
      ClockDigitsInjective(m.minute, n.minute);
      ClockDigitsInjective(m.second, n.second);
      IsoDateInjective(m.day, n.day);
    }
  }

  lemma SameClock(m: Moment, n: Moment)
    requires IsoMoment(m) == IsoMoment(n)
    ensures IsoDate(m.day) == IsoDate(n.day) && ClockDigits(m.hour) == ClockDigits(n.hour)
    ensures ClockDigits(m.minute) == ClockDigits(n.minute) && ClockDigits(m.second) == ClockDigits(n.second)
  {
    LengthsAgree(m, n);
    hide ClockDigits, IsoDate;
    var r, s := ClockDigits(m.second) + "Z", ClockDigits(n.second) + "Z";
    var u, v := ClockDigits(m.minute) + (":" + r), ClockDigits(n.minute) + (":" + s);
    Behind(IsoDate(m.day), IsoDate(n.day), ClockDigits(m.hour) + (":" + u), ClockDigits(n.hour) + (":" + v), "T");
    Behind(ClockDigits(m.hour), ClockDigits(n.hour), u, v, ":");
    Behind(ClockDigits(m.minute), ClockDigits(n.minute), r, s, ":");
    SplitEqual(ClockDigits(m.second), "Z", ClockDigits(n.second), "Z");
  }

  lemma LengthsAgree(m: Moment, n: Moment)
    ensures |IsoDate(m.day)| == |IsoDate(n.day)| && |ClockDigits(m.hour)| == |ClockDigits(n.hour)|
    ensures |ClockDigits(m.minute)| == |ClockDigits(n.minute)| && |ClockDigits(m.second)| == |ClockDigits(n.second)|
  {
  }

  lemma PlainJoin(a: string, b: string)
    requires Plain(a) && Plain(b)
    ensures Plain(a + b)
  {
    forall i | 0 <= i < |a + b| ensures (a + b)[i] as int < 128 && !IsSpace((a + b)[i]) {
      if i < |a| { assert (a + b)[i] == a[i] && a[i] in a; } else { assert (a + b)[i] == b[i - |a|] && b[i - |a|] in b; }
    }
  }

  lemma ClockDigitsArePlain(n: nat)
    requires n < 100
    ensures Plain(ClockDigits(n)) && Plain("T") && Plain(":") && Plain("Z")
  {
  }

  lemma IsoMomentIsPlain(m: Moment)
    ensures Plain(IsoMoment(m))
  {
    IsoDateIsPlain(m.day);
    ClockDigitsArePlain(m.hour);
    ClockDigitsArePlain(m.minute);
    ClockDigitsArePlain(m.second);
    hide Plain, ClockDigits, IsoDate;
    PlainJoin(ClockDigits(m.second), "Z");
    PlainJoin(":", ClockDigits(m.second) + "Z");
    var u := ":" + (ClockDigits(m.second) + "Z");
    PlainJoin(ClockDigits(m.minute), u);
    PlainJoin(":", ClockDigits(m.minute) + u);
    var v := ":" + (ClockDigits(m.minute) + u);
    PlainJoin(ClockDigits(m.hour), v);
    PlainJoin("T", ClockDigits(m.hour) + v);
    PlainJoin(IsoDate(m.day), "T" + (ClockDigits(m.hour) + v));
  }

  lemma ClockDigitsRead(n: nat)
    requires n < 100
    ensures AllDigits(ClockDigits(n)) && NumberOf(ClockDigits(n)) == n
  {
    TwoDigitsReadBack(n);
  }

  /** Where each part of a moment stands in its text. */
  lemma IsoMomentReads(m: Moment)
    ensures var s := IsoMoment(m);
            && |s| == 20 && s[..10] == IsoDate(m.day) && s[10] == 'T' && s[13] == ':' && s[16] == ':' && s[19] == 'Z'
            && AllDigits(s[11..13]) && NumberOf(s[11..13]) == m.hour
            && AllDigits(s[14..16]) && NumberOf(s[14..16]) == m.minute
            && AllDigits(s[17..19]) && NumberOf(s[17..19]) == m.second
  {
    ClockDigitsRead(m.hour);
    ClockDigitsRead(m.minute);
    ClockDigitsRead(m.second);
    hide AllDigits, NumberOf;
    var s := IsoMoment(m);
    assert s[..10] == IsoDate(m.day) && s[11..13] == ClockDigits(m.hour);
    assert s[14..16] == ClockDigits(m.minute) && s[17..19] == ClockDigits(m.second);
  }
}
