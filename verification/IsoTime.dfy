/** UTC timestamps and the strings `isoformat()` gives for them.

    The SQL of the idempotency store compares these strings with `<=`. The microseconds are left out
    when they are zero, so the strings do not all have the same length; section 5.1 of RFC 3339 only
    promises that sorting agrees with time when they do. `IsoOrder` shows that it agrees all the same. */
module IsoTime {
  import opened Wrappers

  datatype DateTime = DateTime(year: nat, month: nat, day: nat, hour: nat, minute: nat, second: nat, micro: nat)

  predicate Leap(y: nat) { y % 4 == 0 && (y % 100 != 0 || y % 400 == 0) }

  function DaysInMonth(y: nat, m: nat): nat {
    if m == 2 then (if Leap(y) then 29 else 28)
    else if m == 4 || m == 6 || m == 9 || m == 11 then 30 else 31
  }

  predicate ValidDate(y: nat, m: nat, d: nat) {
    1 <= y <= 9999 && 1 <= m <= 12 && 1 <= d <= DaysInMonth(y, m)
  }

  predicate Valid(t: DateTime) {
    ValidDate(t.year, t.month, t.day) && t.hour < 24 && t.minute < 60 && t.second < 60 && t.micro < 1_000_000
  }

  // ---------- time as a number ----------

  function DaysBeforeYear(y: nat): nat
    requires y >= 1
  {
    if y == 1 then 0 else DaysBeforeYear(y - 1) + (if Leap(y - 1) then 366 else 365)
  }

  function DaysBeforeMonth(y: nat, m: nat): nat
    requires m >= 1
  {
    if m == 1 then 0 else DaysBeforeMonth(y, m - 1) + DaysInMonth(y, m - 1)
  }

  function Ordinal(y: nat, m: nat, d: nat): nat
    requires y >= 1 && m >= 1
  {
    DaysBeforeYear(y) + DaysBeforeMonth(y, m) + d
  }

  /** Microseconds since the day before 1 January of year 1. */
  function Micros(t: DateTime): nat
    requires Valid(t)
  {
    (((Ordinal(t.year, t.month, t.day) * 24 + t.hour) * 60 + t.minute) * 60 + t.second) * 1_000_000 + t.micro
  }

  // ---------- the string ----------

  function Digit(n: nat): char
    requires n < 10
  {
    '0' + n as char
  }

  /** `n` in exactly `w` decimal digits. */
  function Pad(n: nat, w: nat): (s: string)
    ensures |s| == w
  {
    if w == 0 then "" else Pad(n / 10, w - 1) + [Digit(n % 10)]
  }

  /** The numbers of a timestamp, from the second (1) up to the year (6). */
  function Part(t: DateTime, k: nat): nat {
    if k == 1 then t.second else if k == 2 then t.minute else if k == 3 then t.hour
    else if k == 4 then t.day else if k == 5 then t.month else t.year
  }

  function Width(k: nat): nat { if k == 6 then 4 else 2 }

  /** What follows part `k`. */
  function Separator(k: nat): string {
    if k == 1 then "" else if k == 2 || k == 3 then ":" else if k == 4 then "T" else "-"
  }

  const OFFSET := "+00:00"

  function Fraction(micro: nat): string {
    if micro == 0 then OFFSET else "." + Pad(micro, 6) + OFFSET
  }

  /** The string from part `k` on. */
  function From(t: DateTime, k: nat): string {
    if k == 0 then Fraction(t.micro)
    else Pad(Part(t, k), Width(k)) + (Separator(k) + From(t, k - 1))
  }

  /** YYYY-MM-DDTHH:MM:SS, the microseconds if there are any, and the offset. */
  function Iso(t: DateTime): string { From(t, 6) }

  /** The order in which SQL compares text: by code point, a prefix first. */
  predicate LexLeq(a: string, b: string) {
    a == "" || (b != "" && (a[0] < b[0] || (a[0] == b[0] && LexLeq(a[1..], b[1..]))))
  }

  // ---------- order of strings built from parts ----------

  lemma {:induction false} LexAppend(a: string, b: string, x: string, y: string)
    requires |a| == |b|
    ensures LexLeq(a + x, b + y) <==> if a == b then LexLeq(x, y) else LexLeq(a, b)
  {
    if a == "" {
      assert a + x == x && b + y == y;
    } else {
      assert (a + x)[1..] == a[1..] + x && (b + y)[1..] == b[1..] + y;
      LexAppend(a[1..], b[1..], x, y);
      assert a == b <==> a[0] == b[0] && a[1..] == b[1..];
    }
  }

  lemma {:induction false} LexTotal(a: string, b: string)
    ensures LexLeq(a, b) || LexLeq(b, a)
    ensures LexLeq(a, b) && LexLeq(b, a) <==> a == b
  {
    if a != "" && b != "" {
      LexTotal(a[1..], b[1..]);
      assert a == [a[0]] + a[1..] && b == [b[0]] + b[1..];
    }
  }

  function Pow10(w: nat): nat {
    if w == 0 then 1 else 10 * Pow10(w - 1)
  }

  /** Padded numbers sort as numbers. */
  lemma {:induction false} PadOrder(m: nat, n: nat, w: nat)
    requires m < Pow10(w) && n < Pow10(w)
    ensures LexLeq(Pad(m, w), Pad(n, w)) <==> m <= n
    ensures Pad(m, w) == Pad(n, w) <==> m == n
  {
    if w > 0 {
      PadOrder(m / 10, n / 10, w - 1);
      LexAppend(Pad(m / 10, w - 1), Pad(n / 10, w - 1), [Digit(m % 10)], [Digit(n % 10)]);
      var p, q := Pad(m, w), Pad(n, w);
      assert p[..w - 1] == Pad(m / 10, w - 1) && q[..w - 1] == Pad(n / 10, w - 1);
      assert p[w - 1] == Digit(m % 10) && q[w - 1] == Digit(n % 10);
    }
  }

  /** The optional fraction sorts after its absence, because '+' comes before '.'. */
  lemma FractionOrder(m: nat, n: nat)
    requires m < 1_000_000 && n < 1_000_000
    ensures LexLeq(Fraction(m), Fraction(n)) <==> m <= n
  {
    var z := OFFSET;
    assert z[0] == '+';
    if m > 0 && n > 0 {
      assert Pow10(6) == 1_000_000;
      PadOrder(m, n, 6);
      LexAppend(Pad(m, 6), Pad(n, 6), z, z);
      LexTotal(z, z);
      LexAppend(".", ".", Pad(m, 6) + z, Pad(n, 6) + z);
      assert Fraction(m) == "." + (Pad(m, 6) + z) && Fraction(n) == "." + (Pad(n, 6) + z);
    } else if m == 0 && n == 0 {
      LexTotal(z, z);
    } else {
      var k := if m > 0 then m else n;
      assert ("." + Pad(k, 6) + z)[0] == '.';
    }
  }

  // ---------- order of time ----------

  lemma {:induction false} YearOrder(y: nat, z: nat)
    requires 1 <= y < z
    ensures DaysBeforeYear(y) + 365 + (if Leap(y) then 1 else 0) <= DaysBeforeYear(z)
    decreases z - y
  {
    if y + 1 < z {
      YearOrder(y, z - 1);
    }
  }

  lemma {:induction false} MonthOrder(y: nat, m: nat, n: nat)
    requires 1 <= m < n
    ensures DaysBeforeMonth(y, m) + DaysInMonth(y, m) <= DaysBeforeMonth(y, n)
    decreases n - m
  {
    if m + 1 < n {
      MonthOrder(y, m, n - 1);
    }
  }

  lemma YearLength(y: nat)
    ensures DaysBeforeMonth(y, 12) + 31 == 365 + (if Leap(y) then 1 else 0)
  {
    assert DaysBeforeMonth(y, 2) == 31;
    assert DaysBeforeMonth(y, 3) == 31 + DaysInMonth(y, 2);
    assert DaysBeforeMonth(y, 5) == DaysBeforeMonth(y, 3) + 61;
    assert DaysBeforeMonth(y, 6) == DaysBeforeMonth(y, 5) + 31;
    assert DaysBeforeMonth(y, 7) == DaysBeforeMonth(y, 6) + 30;
    assert DaysBeforeMonth(y, 8) == DaysBeforeMonth(y, 7) + 31;
    assert DaysBeforeMonth(y, 9) == DaysBeforeMonth(y, 8) + 31;
    assert DaysBeforeMonth(y, 11) == DaysBeforeMonth(y, 9) + 61;
  }

  predicate DateBefore(s: DateTime, t: DateTime) {
    s.year < t.year || (s.year == t.year && (s.month < t.month || (s.month == t.month && s.day < t.day)))
  }

  lemma DateOrder(s: DateTime, t: DateTime)
    requires Valid(s) && Valid(t) && DateBefore(s, t)
    ensures Ordinal(s.year, s.month, s.day) < Ordinal(t.year, t.month, t.day)
  {
    if s.year < t.year {
      YearOrder(s.year, t.year);
      YearLength(s.year);
      if s.month < 12 {
        MonthOrder(s.year, s.month, 12);
      }
    } else if s.month < t.month {
      MonthOrder(s.year, s.month, t.month);
    }
  }

  predicate ClockBefore(s: DateTime, t: DateTime) {
    s.hour < t.hour || (s.hour == t.hour && (s.minute < t.minute || (s.minute == t.minute
      && (s.second < t.second || (s.second == t.second && s.micro < t.micro)))))
  }

  predicate SameDate(s: DateTime, t: DateTime) { s.year == t.year && s.month == t.month && s.day == t.day }

  lemma EarlierIsSmaller(s: DateTime, t: DateTime)
    requires Valid(s) && Valid(t) && (DateBefore(s, t) || (SameDate(s, t) && ClockBefore(s, t)))
    ensures Micros(s) < Micros(t)
  {
    if DateBefore(s, t) {
      DateOrder(s, t);
    }
  }

  // ---------- the main result ----------

  /** Not later, comparing part `k` first. */
  predicate NotLater(s: DateTime, t: DateTime, k: nat) {
    if k == 0 then s.micro <= t.micro
    else Part(s, k) < Part(t, k) || (Part(s, k) == Part(t, k) && NotLater(s, t, k - 1))
  }

  lemma {:induction false} FromOrder(s: DateTime, t: DateTime, k: nat)
    requires Valid(s) && Valid(t) && k <= 6
    ensures LexLeq(From(s, k), From(t, k)) <==> NotLater(s, t, k)
  {
    if k == 0 {
      FractionOrder(s.micro, t.micro);
    } else {
      FromOrder(s, t, k - 1);
      assert Pow10(2) == 100 && Pow10(4) == 10_000;
      PadOrder(Part(s, k), Part(t, k), Width(k));
      LexAppend(Separator(k), Separator(k), From(s, k - 1), From(t, k - 1));
      LexAppend(Pad(Part(s, k), Width(k)), Pad(Part(t, k), Width(k)),
                Separator(k) + From(s, k - 1), Separator(k) + From(t, k - 1));
    }
  }

  lemma NotLaterStep(s: DateTime, t: DateTime, k: nat)
    requires 0 < k <= 6
    ensures NotLater(s, t, k) <==> Part(s, k) < Part(t, k) || (Part(s, k) == Part(t, k) && NotLater(s, t, k - 1))
  {
  }

  lemma NotLaterIsTupleOrder(s: DateTime, t: DateTime)
    ensures NotLater(s, t, 6) <==> DateBefore(s, t) || (SameDate(s, t) && !ClockBefore(t, s))
  {
    NotLaterStep(s, t, 6);
    NotLaterStep(s, t, 5);
    NotLaterStep(s, t, 4);
    NotLaterStep(s, t, 3);
    NotLaterStep(s, t, 2);
    NotLaterStep(s, t, 1);
  }

  /** Comparing the strings is comparing the times. */
  lemma IsoOrder(s: DateTime, t: DateTime)
    requires Valid(s) && Valid(t)
    ensures LexLeq(Iso(s), Iso(t)) <==> Micros(s) <= Micros(t)
  {
    FromOrder(s, t, 6);
    NotLaterIsTupleOrder(s, t);
    if DateBefore(s, t) || (SameDate(s, t) && ClockBefore(s, t)) {
      EarlierIsSmaller(s, t);
    } else if s != t {
      EarlierIsSmaller(t, s);
    }
  }

  // ---------- adding seconds ----------

  /** The day after, or nothing after 31 December 9999. */
  function NextDay(t: DateTime): Option<DateTime>
    requires Valid(t)
  {
    if t.day < DaysInMonth(t.year, t.month) then Some(t.(day := t.day + 1))
    else if t.month < 12 then Some(t.(month := t.month + 1, day := 1))
    else if t.year < 9999 then Some(t.(year := t.year + 1, month := 1, day := 1))
    else None
  }

  lemma NextDayIsOneLater(t: DateTime)
    requires Valid(t) && NextDay(t).Some?
    ensures var n := NextDay(t).value;
            Valid(n) && Ordinal(n.year, n.month, n.day) == Ordinal(t.year, t.month, t.day) + 1
            && n.hour == t.hour && n.minute == t.minute && n.second == t.second && n.micro == t.micro
  {
    if t.day == DaysInMonth(t.year, t.month) && t.month == 12 {
      YearLength(t.year);
    }
  }

  function PlusDays(t: DateTime, days: nat): (r: Option<DateTime>)
    requires Valid(t)
    ensures r.Some? ==> Valid(r.value)
    ensures r.Some? ==> Ordinal(r.value.year, r.value.month, r.value.day) == Ordinal(t.year, t.month, t.day) + days
    ensures r.Some? ==> r.value.hour == t.hour && r.value.minute == t.minute && r.value.second == t.second && r.value.micro == t.micro
    decreases days
  {
    if days == 0 then Some(t)
    else if NextDay(t).None? then None
    else
      NextDayIsOneLater(t);
      PlusDays(NextDay(t).value, days - 1)
  }

  /** `t + timedelta(seconds=s)`, or nothing where Python raises OverflowError. */
  function PlusSeconds(t: DateTime, s: nat): (r: Option<DateTime>)
    requires Valid(t)
    ensures r.Some? ==> Valid(r.value)
  {
    var total := t.hour * 3600 + t.minute * 60 + t.second + s;
    var rest := total % 86400;
    PlusDays(t.(hour := rest / 3600, minute := rest / 60 % 60, second := rest % 60), total / 86400)
  }

  /** Days and clock of a moment `s` seconds later. */
  lemma PlusSecondsFields(t: DateTime, s: nat) returns (days: nat, rest: nat)
    requires Valid(t) && PlusSeconds(t, s).Some?
    ensures t.hour * 3600 + t.minute * 60 + t.second + s == days * 86400 + rest && rest < 86400
    ensures var r := PlusSeconds(t, s).value;
            && Ordinal(r.year, r.month, r.day) == Ordinal(t.year, t.month, t.day) + days
            && r.hour == rest / 3600 && r.minute == rest / 60 % 60 && r.second == rest % 60 && r.micro == t.micro
  {
    var total := t.hour * 3600 + t.minute * 60 + t.second + s;
    days, rest := total / 86400, total % 86400;
  }

  lemma ClockOfSeconds(rest: nat)
    ensures rest == rest / 3600 * 3600 + rest / 60 % 60 * 60 + rest % 60
  {
  }

  /** It is the time `s` seconds later. */
  lemma PlusSecondsIsLater(t: DateTime, s: nat)
    requires Valid(t) && PlusSeconds(t, s).Some?
    ensures Micros(PlusSeconds(t, s).value) == Micros(t) + s * 1_000_000
  {
    var days, rest := PlusSecondsFields(t, s);
    ClockOfSeconds(rest);
  }

  lemma {:induction false} PlusDaysInRange(t: DateTime, days: nat)
    requires Valid(t)
    ensures PlusDays(t, days).Some? <==> Ordinal(t.year, t.month, t.day) + days <= Ordinal(9999, 12, 31)
    decreases days
  {
    LastDay(t);
    if days > 0 && NextDay(t).Some? {
      NextDayIsOneLater(t);
      PlusDaysInRange(NextDay(t).value, days - 1);
    }
  }

  /** No day comes after 31 December 9999. */
  lemma LastDay(t: DateTime)
    requires Valid(t)
    ensures Ordinal(t.year, t.month, t.day) <= Ordinal(9999, 12, 31)
    ensures NextDay(t).None? ==> Ordinal(t.year, t.month, t.day) == Ordinal(9999, 12, 31)
  {
    var end := DateTime(9999, 12, 31, 0, 0, 0, 0);
    if DateBefore(t, end) {
      DateOrder(t, end);
    }
  }

  /** Adding seconds fails exactly when the moment lies after the year 9999. */
  lemma OverflowExactly(t: DateTime, s: nat)
    requires Valid(t)
    ensures PlusSeconds(t, s).None? <==>
              Ordinal(t.year, t.month, t.day) * 86400 + t.hour * 3600 + t.minute * 60 + t.second + s
                >= (Ordinal(9999, 12, 31) + 1) * 86400
  {
    var days := DaysOn(t, s);
    DaysOverflow(Ordinal(t.year, t.month, t.day), Ordinal(9999, 12, 31), t.hour * 3600 + t.minute * 60 + t.second + s, days);
  }

  lemma DaysOn(t: DateTime, s: nat) returns (days: nat)
    requires Valid(t)
    ensures days == (t.hour * 3600 + t.minute * 60 + t.second + s) / 86400
    ensures PlusSeconds(t, s).Some? <==> Ordinal(t.year, t.month, t.day) + days <= Ordinal(9999, 12, 31)
  {
    var total := t.hour * 3600 + t.minute * 60 + t.second + s;
    days := total / 86400;
    var rest := total % 86400;
    PlusDaysInRange(t.(hour := rest / 3600, minute := rest / 60 % 60, second := rest % 60), days);
  }

  lemma DaysOverflow(day: nat, end: nat, total: nat, days: nat)
    requires days == total / 86400
    ensures day + days > end <==> day * 86400 + total >= (end + 1) * 86400
  {
  }

  // ---------- the calendar and the digits ----------

  /** The calendar's closed form: a leap year every four years, but for centuries that four does not divide. */
  lemma {:induction false} DaysInYears(y: nat)
    requires y >= 1
    ensures DaysBeforeYear(y) == (y - 1) * 365 + (y - 1) / 4 - (y - 1) / 100 + (y - 1) / 400
  {
    if y > 1 {
      DaysInYears(y - 1);
      Fourth(y - 2);
      Hundredth(y - 2);
      FourHundredth(y - 2);
    }
  }

  lemma Fourth(n: nat)
    ensures (n + 1) / 4 == n / 4 + (if (n + 1) % 4 == 0 then 1 else 0)
  {
  }

  lemma Hundredth(n: nat)
    ensures (n + 1) / 100 == n / 100 + (if (n + 1) % 100 == 0 then 1 else 0)
    ensures (n + 1) % 100 == 0 ==> (n + 1) % 4 == 0
  {
  }

  lemma FourHundredth(n: nat)
    ensures (n + 1) / 400 == n / 400 + (if (n + 1) % 400 == 0 then 1 else 0)
    ensures (n + 1) % 400 == 0 ==> (n + 1) % 100 == 0
  {
  }

  const MONTH_STARTS := [0, 31, 59, 90, 120, 151, 181, 212, 243, 273, 304, 334]

  /** The first days of the months. */
  lemma DaysInMonths(y: nat, m: nat)
    requires 1 <= m <= 12
    ensures DaysBeforeMonth(y, m) == MONTH_STARTS[m - 1] + (if m > 2 && DaysInMonth(y, 2) == 29 then 1 else 0)
    ensures DaysInMonth(y, 12) == 31
    decreases m
  {
    if m > 1 {
      DaysInMonths(y, m - 1);
    }
  }

  function Value(s: string): int {
    if s == "" then 0 else Value(s[..|s| - 1]) * 10 + (s[|s| - 1] as int - '0' as int)
  }

  /** A padded number is read back, and consists of digits. */
  lemma {:induction false} PadReadsBack(n: nat, w: nat)
    requires n < Pow10(w)
    ensures Value(Pad(n, w)) == n && forall i :: 0 <= i < w ==> '0' <= Pad(n, w)[i] <= '9'
  {
    if w > 0 {
      PadReadsBack(n / 10, w - 1);
      assert Pad(n, w)[..w - 1] == Pad(n / 10, w - 1);
    }
  }

  /** HH:MM:SS, then .ffffff unless that is zero, then the offset. */
  function ClockText(t: DateTime): string {
    Pad(t.hour, 2) + ":" + Pad(t.minute, 2) + ":" + Pad(t.second, 2)
    + (if t.micro == 0 then "" else "." + Pad(t.micro, 6)) + "+00:00"
  }

  /** YYYY-MM-DD, T, and the clock. */
  lemma IsoLayout(t: DateTime)
    ensures Iso(t) == Pad(t.year, 4) + "-" + Pad(t.month, 2) + "-" + Pad(t.day, 2) + "T" + ClockText(t)
  {
    var clock := ClockLayout(t);
    assert From(t, 4) == Pad(t.day, 2) + ("T" + clock);
    assert From(t, 5) == Pad(t.month, 2) + ("-" + From(t, 4));
    Joined(Pad(t.year, 4), Pad(t.month, 2), Pad(t.day, 2), clock);
  }

  lemma Joined(year: string, month: string, day: string, clock: string)
    ensures year + ("-" + (month + ("-" + (day + ("T" + clock))))) == year + "-" + month + "-" + day + "T" + clock
  {
  }

  lemma ClockLayout(t: DateTime) returns (clock: string)
    ensures clock == ClockText(t) == From(t, 3)
  {
    clock := ClockText(t);
    var end := (if t.micro == 0 then "" else "." + Pad(t.micro, 6)) + "+00:00";
    assert From(t, 1) == Pad(t.second, 2) + end;
    assert From(t, 3) == Pad(t.hour, 2) + (":" + (Pad(t.minute, 2) + (":" + From(t, 1))));
  }
}
