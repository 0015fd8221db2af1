/** `datetime.now(UTC).isoformat()`: the texts sort as the instants they name. */
module Timestamps {
  import opened Text
  import opened Audit

  /** A UTC datetime of the Gregorian calendar. */
  datatype DateTime = DateTime(year: nat, month: nat, day: nat, hour: nat, minute: nat, second: nat, micro: nat) {
    predicate Valid() {
      && 1 <= year <= 9999 && 1 <= month <= 12 && 1 <= day <= DaysInMonth(year, month)
      && hour < 24 && minute < 60 && second < 60 && micro < 1_000_000
    }
  }

  predicate Leap(year: nat) {
    year % 4 == 0 && (year % 100 != 0 || year % 400 == 0)
  }

  function DaysInMonth(year: nat, month: nat): nat
    requires 1 <= month <= 12
  {
    if month == 2 then (if Leap(year) then 29 else 28)
    else if month == 4 || month == 6 || month == 9 || month == 11 then 30
    else 31
  }

  // ---------- the instant ----------

  function DaysBeforeYear(year: nat): nat
    requires year >= 1
  {
    if year == 1 then 0 else DaysBeforeYear(year - 1) + (if Leap(year - 1) then 366 else 365)
  }

  function DaysBeforeMonth(year: nat, month: nat): nat
    requires 1 <= month <= 12
  {
    if month == 1 then 0 else DaysBeforeMonth(year, month - 1) + DaysInMonth(year, month - 1)
  }

  function Day(t: DateTime): nat
    requires t.Valid()
  {
    DaysBeforeYear(t.year) + DaysBeforeMonth(t.year, t.month) + t.day - 1
  }

  function MicroOfDay(t: DateTime): nat {
    ((t.hour * 60 + t.minute) * 60 + t.second) * 1_000_000 + t.micro
  }

  /** Microseconds since 0001-01-01T00:00:00Z. */
  function Instant(t: DateTime): nat
    requires t.Valid()
  {
    Day(t) * 86_400_000_000 + MicroOfDay(t)
  }

  // ---------- the text ----------

  function Digit(n: nat): char
    requires n < 10
  {
    ('0' as int + n) as char
  }

  /** The last w decimal digits of n. */
  function Pad(n: nat, w: nat): (s: string)
    ensures |s| == w
  {
    if w == 0 then "" else Pad(n / 10, w - 1) + [Digit(n % 10)]
  }

  function DateText(t: DateTime): (s: string)
    ensures |s| == 11
  {
    Pad(t.year, 4) + ("-" + (Pad(t.month, 2) + ("-" + (Pad(t.day, 2) + "T"))))
  }

  function TimeText(t: DateTime): (s: string)
    ensures |s| == 8
  {
    Pad(t.hour, 2) + (":" + (Pad(t.minute, 2) + (":" + Pad(t.second, 2))))
  }

  /** Python leaves the fraction out when it is zero. */
  function FractionText(micro: nat): string {
    if micro == 0 then "+00:00" else "." + (Pad(micro, 6) + "+00:00")
  }

  function IsoFormat(t: DateTime): string {
    DateText(t) + (TimeText(t) + FractionText(t.micro))
  }

  // ---------- order ----------

  function Pow10(w: nat): nat {
    if w == 0 then 1 else 10 * Pow10(w - 1)
  }

  lemma {:induction false} PadOrder(a: nat, b: nat, w: nat)
    requires a < Pow10(w) && b < Pow10(w)
    ensures Less(Pad(a, w), Pad(b, w)) <==> a < b
    ensures Pad(a, w) == Pad(b, w) <==> a == b
  {
    if w == 0 {
    } else {
      PadOrder(a / 10, b / 10, w - 1);
      LessConcat(Pad(a / 10, w - 1), Pad(b / 10, w - 1), [Digit(a % 10)], [Digit(b % 10)]);
      SplitSame(Pad(a / 10, w - 1), Pad(b / 10, w - 1), [Digit(a % 10)], [Digit(b % 10)]);
      assert Less([Digit(a % 10)], [Digit(b % 10)]) <==> a % 10 < b % 10;
    }
  }

  lemma SplitSame(p: string, q: string, x: string, y: string)
    requires |p| == |q|
    ensures p + x == q + y <==> p == q && x == y
  {
    if p + x == q + y {
      assert p == (p + x)[..|p|] && q == (q + y)[..|q|];
      assert x == (p + x)[|p|..] && y == (q + y)[|q|..];
    }
  }

  /** One fixed-width field in front of a rest: compare the field, then the rest. */
  lemma FieldOrder(a: nat, b: nat, w: nat, x: string, y: string)
    requires a < Pow10(w) && b < Pow10(w)
    ensures Less(Pad(a, w) + x, Pad(b, w) + y) <==> a < b || (a == b && Less(x, y))
    ensures Pad(a, w) + x == Pad(b, w) + y <==> a == b && x == y
  {
    PadOrder(a, b, w);
    LessConcat(Pad(a, w), Pad(b, w), x, y);
    SplitSame(Pad(a, w), Pad(b, w), x, y);
  }

  /** A separator in front of both changes nothing. */
  lemma SeparatorOrder(c: char, x: string, y: string)
    ensures Less([c] + x, [c] + y) <==> Less(x, y)
    ensures [c] + x == [c] + y <==> x == y
  {
    LessConcat([c], [c], x, y);
    SplitSame([c], [c], x, y);
    LessIrreflexive([c]);
  }

  predicate EarlierDate(a: DateTime, b: DateTime) {
    a.year < b.year || (a.year == b.year && (a.month < b.month || (a.month == b.month && a.day < b.day)))
  }

  predicate SameDate(a: DateTime, b: DateTime) {
    a.year == b.year && a.month == b.month && a.day == b.day
  }

  lemma PowersOfTen()
    ensures Pow10(2) == 100 && Pow10(4) == 10_000 && Pow10(6) == 1_000_000
  {
    assert Pow10(3) == 1000 && Pow10(5) == 100_000;
  }

  /** Days of 24 hours, hours of 60 minutes, minutes of 60 seconds, seconds of a million microseconds. */
  lemma InstantExactly(t: DateTime)
    requires t.Valid()
    ensures Instant(t) == (DaysBeforeYear(t.year) + DaysBeforeMonth(t.year, t.month) + t.day - 1) * 86_400_000_000
                        + t.hour * 3_600_000_000 + t.minute * 60_000_000 + t.second * 1_000_000 + t.micro
  {
  }

  lemma DateOrder(a: DateTime, b: DateTime)
    requires a.Valid() && b.Valid()
    ensures Less(DateText(a), DateText(b)) <==> EarlierDate(a, b)
    ensures DateText(a) == DateText(b) <==> SameDate(a, b)
  {
    PowersOfTen();
    var d, d' := Pad(a.day, 2) + "T", Pad(b.day, 2) + "T";
    var m, m' := Pad(a.month, 2) + ("-" + d), Pad(b.month, 2) + ("-" + d');
    FieldOrder(a.year, b.year, 4, "-" + m, "-" + m');
    SeparatorOrder('-', m, m');
    FieldOrder(a.month, b.month, 2, "-" + d, "-" + d');
    SeparatorOrder('-', d, d');
    FieldOrder(a.day, b.day, 2, "T", "T");
    LessIrreflexive("T");
  }

  lemma TimeOrder(a: DateTime, b: DateTime)
    requires a.Valid() && b.Valid()
    ensures Less(TimeText(a), TimeText(b))
       <==> || a.hour < b.hour
            || (a.hour == b.hour && (a.minute < b.minute || (a.minute == b.minute && a.second < b.second)))
    ensures TimeText(a) == TimeText(b) <==> a.hour == b.hour && a.minute == b.minute && a.second == b.second
  {
    PowersOfTen();
    var s, s' := Pad(a.second, 2), Pad(b.second, 2);
    var m, m' := Pad(a.minute, 2) + (":" + s), Pad(b.minute, 2) + (":" + s');
    FieldOrder(a.hour, b.hour, 2, ":" + m, ":" + m');
    SeparatorOrder(':', m, m');
    FieldOrder(a.minute, b.minute, 2, ":" + s, ":" + s');
    SeparatorOrder(':', s, s');
    PadOrder(a.second, b.second, 2);
  }

  /** `+` sorts before `.`, so a missing fraction sorts as the zero it stands for. */
  lemma FractionOrder(a: nat, b: nat)
    requires a < 1_000_000 && b < 1_000_000
    ensures Less(FractionText(a), FractionText(b)) <==> a < b
  {
    PowersOfTen();
    var x, y := Pad(a, 6) + "+00:00", Pad(b, 6) + "+00:00";
    SeparatorOrder('.', x, y);
    FieldOrder(a, b, 6, "+00:00", "+00:00");
    LessIrreflexive("+00:00");
  }

  lemma {:induction false} YearsGrow(a: nat, b: nat)
    requires 1 <= a < b
    ensures DaysBeforeYear(a) + (if Leap(a) then 366 else 365) <= DaysBeforeYear(b)
  {
    if b == a + 1 {
    } else {
      YearsGrow(a, b - 1);
    }
  }

  lemma {:induction false} MonthsGrow(year: nat, a: nat, b: nat)
    requires 1 <= a < b <= 12
    ensures DaysBeforeMonth(year, a) + DaysInMonth(year, a) <= DaysBeforeMonth(year, b)
  {
    if b == a + 1 {
    } else {
      MonthsGrow(year, a, b - 1);
    }
  }

  lemma YearLength(year: nat)
    ensures DaysBeforeMonth(year, 12) + 31 == if Leap(year) then 366 else 365
  {
    var leapDay := if Leap(year) then 1 else 0;
    assert DaysBeforeMonth(year, 2) == 31;
    assert DaysBeforeMonth(year, 3) == 59 + leapDay;
    assert DaysBeforeMonth(year, 4) == 90 + leapDay;
    assert DaysBeforeMonth(year, 5) == 120 + leapDay;
    assert DaysBeforeMonth(year, 7) == 181 + leapDay;
    assert DaysBeforeMonth(year, 9) == 243 + leapDay;
    assert DaysBeforeMonth(year, 11) == 304 + leapDay;
  }

  lemma DayOrder(a: DateTime, b: DateTime)
    requires a.Valid() && b.Valid() && EarlierDate(a, b)
    ensures Day(a) < Day(b)
  {
    if a.year < b.year {
      YearsGrow(a.year, b.year);
      YearLength(a.year);
      if a.month < 12 { MonthsGrow(a.year, a.month, 12); }
    } else if a.month < b.month {
      MonthsGrow(a.year, a.month, b.month);
    }
  }

  /** The texts the logger writes sort exactly as the instants they name. */
  lemma IsoOrder(a: DateTime, b: DateTime)
    requires a.Valid() && b.Valid()
    ensures Less(IsoFormat(a), IsoFormat(b)) <==> Instant(a) < Instant(b)
  {
    LessConcat(DateText(a), DateText(b), TimeText(a) + FractionText(a.micro), TimeText(b) + FractionText(b.micro));
    LessConcat(TimeText(a), TimeText(b), FractionText(a.micro), FractionText(b.micro));
    DateOrder(a, b);
    TimeOrder(a, b);
    FractionOrder(a.micro, b.micro);
    InstantOrder(a, b);
  }

  lemma InstantOrder(a: DateTime, b: DateTime)
    requires a.Valid() && b.Valid()
    ensures Instant(a) < Instant(b) <==> EarlierDate(a, b) || (SameDate(a, b) && MicroOfDay(a) < MicroOfDay(b))
  {
    assert MicroOfDay(a) < 86_400_000_000 && MicroOfDay(b) < 86_400_000_000;
    if EarlierDate(a, b) {
      DayOrder(a, b);
    } else if EarlierDate(b, a) {
      DayOrder(b, a);
    }
  }

  /** A clock that moves strictly forward gives rows whose keys grow, whatever their ids. */
  lemma ClockOrdersKeys(a: DateTime, b: DateTime, x: AuditRecord, y: AuditRecord)
    requires a.Valid() && b.Valid() && Instant(a) < Instant(b)
    requires x.timestamp == IsoFormat(a) && y.timestamp == IsoFormat(b)
    ensures KeyLess(x, y)
  {
    IsoOrder(a, b);
  }

  /** The leap years among the first y. */
  function LeapDays(y: nat): int {
    y / 4 - y / 100 + y / 400
  }

  lemma LeapDaysNext(y: nat)
    requires y > 0
    ensures LeapDays(y) == LeapDays(y - 1) + if Leap(y) then 1 else 0
  {
    assert y / 4 == (y - 1) / 4 + if y % 4 == 0 then 1 else 0;
    assert y / 100 == (y - 1) / 100 + if y % 100 == 0 then 1 else 0;
    assert y / 400 == (y - 1) / 400 + if y % 400 == 0 then 1 else 0;
  }

  /** Days before a year in closed form: one leap day every four years, but for centuries not divisible by 400. */
  lemma {:induction false} DaysBeforeYearExactly(year: nat)
    requires year >= 1
    ensures DaysBeforeYear(year) == 365 * (year - 1) + LeapDays(year - 1)
  {
    hide Leap, LeapDays;
    if year == 1 {
      NoLeapDays();
    } else {
      DaysBeforeYearExactly(year - 1);
      LeapDaysNext(year - 1);
    }
  }

  lemma NoLeapDays()
    ensures LeapDays(0) == 0
  {
  }

  // ---------- reading the text ----------

  function DigitValue(c: char): int {
    c as int - '0' as int
  }

  function Number(s: string): int {
    if s == "" then 0 else 10 * Number(s[..|s| - 1]) + DigitValue(s[|s| - 1])
  }

  lemma {:induction false} NumberPad(n: nat, w: nat)
    requires n < Pow10(w)
    ensures Number(Pad(n, w)) == n
  {
    if w == 0 {
    } else {
      NumberPad(n / 10, w - 1);
      assert Pad(n, w)[..w - 1] == Pad(n / 10, w - 1);
    }
  }

  /** The time that a text `YYYY-MM-DDTHH:MM:SS[.ffffff]+00:00` names. */
  function ReadIso(s: string): Option<DateTime> {
    if |s| != 25 && |s| != 32 then None
    else if s[4] != '-' || s[7] != '-' || s[10] != 'T' || s[13] != ':' || s[16] != ':' then None
    else if |s| == 32 && s[19] != '.' then None
    else if s[|s| - 6..] != "+00:00" then None
    else
      var year, month, day := Number(s[0..4]), Number(s[5..7]), Number(s[8..10]);
      var hour, minute, second := Number(s[11..13]), Number(s[14..16]), Number(s[17..19]);
      var micro := if |s| == 32 then Number(s[20..26]) else 0;
      if year < 0 || month < 0 || day < 0 || hour < 0 || minute < 0 || second < 0 || micro < 0 then None
      else Some(DateTime(year, month, day, hour, minute, second, micro))
  }

  lemma DateFields(t: DateTime, rest: string)
    requires t.Valid()
    ensures var s := DateText(t) + rest;
            && s[0..4] == Pad(t.year, 4) && s[4] == '-' && s[5..7] == Pad(t.month, 2) && s[7] == '-'
            && s[8..10] == Pad(t.day, 2) && s[10] == 'T' && s[11..] == rest
  {
    hide Pad;
  }

  lemma TimeFields(t: DateTime, rest: string)
    ensures var s := TimeText(t) + rest;
            && s[0..2] == Pad(t.hour, 2) && s[2] == ':' && s[3..5] == Pad(t.minute, 2) && s[5] == ':'
            && s[6..8] == Pad(t.second, 2) && s[8..] == rest
  {
    hide Pad;
  }

  lemma FractionFields(micro: nat)
    ensures var s := FractionText(micro);
            && |s| == (if micro == 0 then 6 else 13) && s[|s| - 6..] == "+00:00"
            && (micro > 0 ==> s[0] == '.' && s[1..7] == Pad(micro, 6))
  {
    hide Pad;
  }

  /** What is written names the time it was written for. */
  lemma ReadsBack(t: DateTime)
    requires t.Valid()
    ensures ReadIso(IsoFormat(t)) == Some(t)
  {
    hide Pad, DateText, TimeText, FractionText, Number;
    var fraction := FractionText(t.micro);
    var time := TimeText(t) + fraction;
    var s := IsoFormat(t);
    DateFields(t, time);
    TimeFields(t, fraction);
    FractionFields(t.micro);
    assert forall i | 11 <= i < |s| :: s[i] == s[11..][i - 11];
    assert forall i | 8 <= i < |time| :: time[i] == time[8..][i - 8];
    assert s[11..13] == time[0..2] && s[14..16] == time[3..5] && s[17..19] == time[6..8];
    assert s[|s| - 6..] == fraction[|fraction| - 6..];
    if t.micro > 0 { assert s[20..26] == fraction[1..7]; }
    Numbers(t);
  }

  lemma Numbers(t: DateTime)
    requires t.Valid()
    ensures Number(Pad(t.year, 4)) == t.year && Number(Pad(t.month, 2)) == t.month && Number(Pad(t.day, 2)) == t.day
    ensures Number(Pad(t.hour, 2)) == t.hour && Number(Pad(t.minute, 2)) == t.minute
    ensures Number(Pad(t.second, 2)) == t.second && Number(Pad(t.micro, 6)) == t.micro
  {
    hide Number, Pad;
    PowersOfTen();
    NumberPad(t.year, 4); NumberPad(t.month, 2); NumberPad(t.day, 2);
    NumberPad(t.hour, 2); NumberPad(t.minute, 2); NumberPad(t.second, 2); NumberPad(t.micro, 6);
  }
}
