/**
 * Stored timestamps (internal/database/repository_helpers.go) and how SQLite orders them. A time is written in UTC in
 * the form of RFC 3339 (section 5.6) with up to nine fractional digits, and the fraction loses its trailing zeros.
 * SQLite compares the texts.
 */
module Timestamps {

  // ----- the order of texts -----

  /** The order of texts under SQLite's BINARY collation. */
  predicate Less(s: string, t: string) {
    if t == [] then false
    else if s == [] then true
    else s[0] < t[0] || (s[0] == t[0] && Less(s[1..], t[1..]))
  }

  lemma {:induction false} LessAfterPrefix(p: string, s: string, t: string)
    ensures Less(p + s, p + t) <==> Less(s, t)
  {
    if p == [] {
      assert p + s == s && p + t == t;
    } else {
      assert (p + s)[1..] == p[1..] + s && (p + t)[1..] == p[1..] + t;
      LessAfterPrefix(p[1..], s, t);
    }
  }

  /** Fixed-width texts decide before what follows them. */
  lemma {:induction false} LessByField(p: string, q: string, s: string, t: string)
    requires |p| == |q|
    ensures Less(p + s, q + t) <==> Less(p, q) || (p == q && Less(s, t))
  {
    if p == [] {
      assert p + s == s && q + t == t;
    } else {
      assert (p + s)[1..] == p[1..] + s && (q + t)[1..] == q[1..] + t;
      LessByField(p[1..], q[1..], s, t);
      assert p == [p[0]] + p[1..] && q == [q[0]] + q[1..];
    }
  }

  lemma {:induction false} LessIsIrreflexive(s: string)
    ensures !Less(s, s)
  {
    if s != [] {
      LessIsIrreflexive(s[1..]);
    }
  }

  // ----- digits -----

  function Digit(n: nat): char
    requires n < 10
  {
    "0123456789"[n]
  }

  /** The last `width` decimal digits of n. */
  function Digits(n: nat, width: nat): (r: string)
    ensures |r| == width && forall i | 0 <= i < width :: '0' <= r[i] <= '9'
  {
    if width == 0 then "" else Digits(n / 10, width - 1) + [Digit(n % 10)]
  }

  function Power(width: nat): (r: nat)
    ensures r >= 1
  {
    if width == 0 then 1 else 10 * Power(width - 1)
  }

  lemma LessOfDigits(m: nat, n: nat)
    requires m < 10 && n < 10
    ensures (Less([Digit(m)], [Digit(n)]) <==> m < n) && (Digit(m) == Digit(n) <==> m == n)
  {
    assert [Digit(m)][1..] == [] && [Digit(n)][1..] == [];
  }

  /** Fixed-width numbers are ordered as texts as they are as numbers. */
  lemma {:induction false} DigitsKeepOrder(m: nat, n: nat, width: nat)
    requires m < Power(width) && n < Power(width)
    ensures Less(Digits(m, width), Digits(n, width)) <==> m < n
    ensures Digits(m, width) == Digits(n, width) <==> m == n
  {
    if width > 0 {
      DigitsKeepOrder(m / 10, n / 10, width - 1);
      LessOfDigits(m % 10, n % 10);
      hide Less, Digit;
      var p, q := Digits(m / 10, width - 1), Digits(n / 10, width - 1);
      LessByField(p, q, [Digit(m % 10)], [Digit(n % 10)]);
      if Digits(m, width) == Digits(n, width) {
        assert Digits(m, width)[..width - 1] == p && Digits(n, width)[..width - 1] == q;
        assert Digits(m, width)[width - 1] == Digits(n, width)[width - 1];
      }
    }
  }

  // ----- the calendar -----

  datatype Date = Date(year: nat, month: nat, day: nat)

  predicate IsLeap(year: nat) {
    year % 4 == 0 && (year % 100 != 0 || year % 400 == 0)
  }

  function DaysIn(year: nat, month: nat): nat {
    if month in {4, 6, 9, 11} then 30
    else if month != 2 then 31
    else if IsLeap(year) then 29 else 28
  }

  predicate ValidDate(d: Date) {
    1 <= d.month <= 12 && 1 <= d.day <= DaysIn(d.year, d.month)
  }

  function NextDay(d: Date): Date {
    if d.day < DaysIn(d.year, d.month) then d.(day := d.day + 1)
    else if d.month < 12 then Date(d.year, d.month + 1, 1)
    else Date(d.year + 1, 1, 1)
  }

  /** The date of a day, counted from the first day of the year 0. */
  function DateOf(day: nat): Date {
    if day == 0 then Date(0, 1, 1) else NextDay(DateOf(day - 1))
  }

  predicate Earlier(a: Date, b: Date) {
    a.year < b.year || (a.year == b.year && (a.month < b.month || (a.month == b.month && a.day < b.day)))
  }

  lemma {:induction false} DatesAreValid(day: nat)
    ensures ValidDate(DateOf(day))
  {
    if day > 0 {
      DatesAreValid(day - 1);
    }
  }

  lemma {:induction false} DatesAscend(a: nat, b: nat)
    requires a < b
    ensures Earlier(DateOf(a), DateOf(b)) && DateOf(a).year <= DateOf(b).year
    decreases b
  {
    hide DaysIn;
    if a < b - 1 {
      DatesAscend(a, b - 1);
    }
  }

  lemma DateOrder(a: nat, b: nat)
    ensures Earlier(DateOf(a), DateOf(b)) <==> a < b
    ensures DateOf(a) == DateOf(b) <==> a == b
  {
    if a < b {
      DatesAscend(a, b);
    } else if b < a {
      DatesAscend(b, a);
    }
  }

  // ----- the format -----

  const SECOND := 1_000_000_000
  const SECONDS_PER_DAY := 86400

  /** A time: nanoseconds since the start of the year 0. */
  type Instant = nat

  function Seconds(t: Instant): nat {
    t / SECOND
  }

  function Nanos(t: Instant): nat {
    t % SECOND
  }

  /** Times whose year has four digits, as RFC 3339 demands. */
  predicate Formattable(t: Instant) {
    DateOf(Seconds(t) / SECONDS_PER_DAY).year <= 9999
  }

  function DateText(d: Date): string {
    Digits(d.year, 4) + ("-" + (Digits(d.month, 2) + ("-" + Digits(d.day, 2))))
  }

  function TimeOfDay(hour: nat, minute: nat, second: nat): string {
    "T" + (Digits(hour, 2) + (":" + (Digits(minute, 2) + (":" + Digits(second, 2)))))
  }

  function ClockText(second: nat): string {
    TimeOfDay(second / 3600, second / 60 % 60, second % 60)
  }

  function SecondsText(seconds: nat): string {
    DateText(DateOf(seconds / SECONDS_PER_DAY)) + ClockText(seconds % SECONDS_PER_DAY)
  }

  function TrimZeros(s: string): string {
    if s != [] && s[|s| - 1] == '0' then TrimZeros(s[..|s| - 1]) else s
  }

  /** The fraction as it is printed: nothing for a whole second, and no trailing zeros. */
  function Fraction(nanos: nat): string {
    if nanos == 0 then "" else "." + TrimZeros(Digits(nanos, 9))
  }

  function FormatTime(t: Instant): string {
    SecondsText(Seconds(t)) + (Fraction(Nanos(t)) + "Z")
  }

  lemma NumberOrder(m: nat, n: nat, width: nat, s: string, t: string)
    requires m < Power(width) && n < Power(width)
    ensures Less(Digits(m, width) + s, Digits(n, width) + t) <==> m < n || (m == n && Less(s, t))
    ensures Digits(m, width) + s == Digits(n, width) + t <==> m == n && s == t
  {
    hide Less, Digits, Power;
    var p, q := Digits(m, width), Digits(n, width);
    LessByField(p, q, s, t);
    DigitsKeepOrder(m, n, width);
    if p + s == q + t {
      assert (p + s)[..width] == p && (q + t)[..width] == q;
      assert (p + s)[width..] == s && (q + t)[width..] == t;
    }
  }

  lemma SeparatorOrder(separator: string, s: string, t: string)
    ensures Less(separator + s, separator + t) <==> Less(s, t)
    ensures separator + s == separator + t <==> s == t
  {
    LessAfterPrefix(separator, s, t);
    if separator + s == separator + t {
      assert (separator + s)[|separator|..] == s && (separator + t)[|separator|..] == t;
    }
  }

  lemma PowerValues()
    ensures Power(2) == 100 && Power(4) == 10000 && Power(9) == SECOND
  {
    assert Power(3) == 1000 && Power(5) == 100000 && Power(7) == 10000000;
  }

  lemma DateTextOrder(a: Date, b: Date)
    requires ValidDate(a) && ValidDate(b) && a.year <= 9999 && b.year <= 9999
    ensures Less(DateText(a), DateText(b)) <==> Earlier(a, b)
    ensures DateText(a) == DateText(b) <==> a == b
  {
    PowerValues();
    hide Less, Digits, Power;
    var daysA, daysB := Digits(a.day, 2), Digits(b.day, 2);
    DigitsKeepOrder(a.day, b.day, 2);
    SeparatorOrder("-", daysA, daysB);
    NumberOrder(a.month, b.month, 2, "-" + daysA, "-" + daysB);
    var monthsA, monthsB := Digits(a.month, 2) + ("-" + daysA), Digits(b.month, 2) + ("-" + daysB);
    SeparatorOrder("-", monthsA, monthsB);
    NumberOrder(a.year, b.year, 4, "-" + monthsA, "-" + monthsB);
  }

  lemma TimeOfDayOrder(h: nat, m: nat, s: nat, i: nat, n: nat, t: nat)
    requires h < 100 && m < 100 && s < 100 && i < 100 && n < 100 && t < 100
    ensures Less(TimeOfDay(h, m, s), TimeOfDay(i, n, t)) <==> h < i || (h == i && (m < n || (m == n && s < t)))
    ensures TimeOfDay(h, m, s) == TimeOfDay(i, n, t) <==> h == i && m == n && s == t
  {
    PowerValues();
    hide Less, Digits, Power;
    var secondsA, secondsB := Digits(s, 2), Digits(t, 2);
    DigitsKeepOrder(s, t, 2);
    SeparatorOrder(":", secondsA, secondsB);
    NumberOrder(m, n, 2, ":" + secondsA, ":" + secondsB);
    var minutesA, minutesB := Digits(m, 2) + (":" + secondsA), Digits(n, 2) + (":" + secondsB);
    SeparatorOrder(":", minutesA, minutesB);
    NumberOrder(h, i, 2, ":" + minutesA, ":" + minutesB);
    SeparatorOrder("T", Digits(h, 2) + (":" + minutesA), Digits(i, 2) + (":" + minutesB));
  }

  lemma ClockTextOrder(a: nat, b: nat)
    requires a < SECONDS_PER_DAY && b < SECONDS_PER_DAY
    ensures Less(ClockText(a), ClockText(b)) <==> a < b
    ensures ClockText(a) == ClockText(b) <==> a == b
  {
    hide Less, TimeOfDay;
    ClockParts(a, b);
    ClockParts(b, a);
    TimeOfDayOrder(a / 3600, a / 60 % 60, a % 60, b / 3600, b / 60 % 60, b % 60);
  }

  lemma ClockParts(a: nat, b: nat)
    ensures a < b <==>
      || a / 3600 < b / 3600
      || (a / 3600 == b / 3600
        && (a / 60 % 60 < b / 60 % 60 || (a / 60 % 60 == b / 60 % 60 && a % 60 < b % 60)))
  {
    assert a == a / 3600 * 3600 + a / 60 % 60 * 60 + a % 60;
    assert b == b / 3600 * 3600 + b / 60 % 60 * 60 + b % 60;
  }

  lemma DateTextLength(d: Date)
    ensures |DateText(d)| == 10
  {
    hide Digits;
  }

  lemma SecondsTextLength(seconds: nat)
    ensures |SecondsText(seconds)| == 19
  {
    hide Digits;
  }

  /** Up to the second, texts are ordered as the times are. */
  lemma SecondsTextOrder(a: nat, b: nat)
    requires DateOf(a / SECONDS_PER_DAY).year <= 9999 && DateOf(b / SECONDS_PER_DAY).year <= 9999
    ensures Less(SecondsText(a), SecondsText(b)) <==> a < b
    ensures SecondsText(a) == SecondsText(b) <==> a == b
  {
    var dayA, dayB := a / SECONDS_PER_DAY, b / SECONDS_PER_DAY;
    DatesAreValid(dayA);
    DatesAreValid(dayB);
    DateOrder(dayA, dayB);
    DateTextOrder(DateOf(dayA), DateOf(dayB));
    ClockTextOrder(a % SECONDS_PER_DAY, b % SECONDS_PER_DAY);
    var p, q := DateText(DateOf(dayA)), DateText(DateOf(dayB));
    var s, t := ClockText(a % SECONDS_PER_DAY), ClockText(b % SECONDS_PER_DAY);
    DateTextLength(DateOf(dayA));
    DateTextLength(DateOf(dayB));
    hide Less, DateText, ClockText, DateOf, Earlier, Digits;
    LessByField(p, q, s, t);
    if p + s == q + t {
      assert (p + s)[..10] == p && (q + t)[..10] == q;
      assert (p + s)[10..] == s && (q + t)[10..] == t;
    }
  }

  // ----- fractions -----

  predicate ProperPrefix(s: string, t: string) {
    s < t
  }

  lemma {:induction false} TrimZerosShape(s: string)
    ensures var r := TrimZeros(s);
      && r <= s && (forall i | |r| <= i < |s| :: s[i] == '0') && (r != [] ==> r[|r| - 1] != '0')
  {
    if s != [] && s[|s| - 1] == '0' {
      TrimZerosShape(s[..|s| - 1]);
    }
  }

  /** Where two texts of the same length first differ. */
  lemma {:induction false} FirstDifference(s: string, t: string) returns (k: nat)
    requires |s| == |t| && Less(s, t)
    ensures k < |s| && s[..k] == t[..k] && s[k] < t[k]
  {
    if s[0] < t[0] {
      k := 0;
    } else {
      var rest := FirstDifference(s[1..], t[1..]);
      k := rest + 1;
      assert s[..k] == [s[0]] + s[1..][..rest] && t[..k] == [t[0]] + t[1..][..rest];
    }
  }

  lemma LessAt(s: string, t: string, k: nat)
    requires k < |s| && k < |t| && s[..k] == t[..k] && s[k] != t[k]
    ensures Less(s, t) <==> s[k] < t[k]
  {
    LessAfterPrefix(s[..k], s[k..], t[k..]);
    assert s == s[..k] + s[k..] && t == s[..k] + t[k..];
  }

  /** How a text and its extension or replacement compare once both are closed with the zone. */
  ghost predicate OrderedUnlessPrefix(f: string, g: string) {
    && (Less(f + "Z", g + "Z") <==> !ProperPrefix(f, g))
    && (Less(g + "Z", f + "Z") <==> ProperPrefix(f, g))
    && !ProperPrefix(g, f) && f != g
  }

  lemma NothingBeforeFraction(t: string)
    ensures OrderedUnlessPrefix("", "." + t)
  {
    var a, b := "" + "Z", "." + t + "Z";
    assert a[..0] == b[..0] && a[0] == 'Z' && b[0] == '.';
    LessAt(a, b, 0);
    LessAt(b, a, 0);
  }

  lemma FractionsAtDigit(d: string, e: string, s: string, t: string, k: nat)
    requires s <= d && t <= e && |d| == |e| && k < |d| && d[..k] == e[..k] && d[k] < e[k] && k < |t|
    requires forall i | 0 <= i < |e| :: '0' <= e[i] <= '9'
    ensures OrderedUnlessPrefix("." + s, "." + t)
  {
    hide Less;
    var a, b := "." + s + "Z", "." + t + "Z";
    if k < |s| {
      SplitAtDigit(d, e, s, t, k);
      LessAt(a, b, k + 1);
      LessAt(b, a, k + 1);
    } else {
      PrefixAtDigit(d, e, s, t, k);
      LessAt(a, b, |s| + 1);
      LessAt(b, a, |s| + 1);
    }
  }

  /** The smaller of two fractions stands first as a text, unless it is a proper prefix of the other. */
  lemma FractionOrder(m: nat, n: nat)
    requires m < n < SECOND
    ensures OrderedUnlessPrefix(Fraction(m), Fraction(n))
  {
    PowerValues();
    DigitsKeepOrder(m, n, 9);
    var d, e := Digits(m, 9), Digits(n, 9);
    var k := FirstDifference(d, e);
    TrimZerosShape(d);
    TrimZerosShape(e);
    hide Digits, TrimZeros, Less, Power, OrderedUnlessPrefix;
    if m == 0 {
      NothingBeforeFraction(TrimZeros(e));
    } else {
      FractionsAtDigit(d, e, TrimZeros(d), TrimZeros(e), k);
    }
  }

  lemma SplitAtDigit(d: string, e: string, s: string, t: string, k: nat)
    requires s <= d && t <= e && |d| == |e| && k < |d| && d[..k] == e[..k] && d[k] < e[k] && k < |s| && k < |t|
    ensures var a, b := "." + s + "Z", "." + t + "Z";
      k + 1 < |a| && k + 1 < |b| && a[..k + 1] == b[..k + 1] && a[k + 1] < b[k + 1]
    ensures !("." + s < "." + t) && !("." + t < "." + s) && "." + s != "." + t
  {
    assert s[..k] == d[..k] && t[..k] == e[..k] && s[k] == d[k] && t[k] == e[k];
    var f, g := "." + s, "." + t;
    assert f[k + 1] == s[k] && g[k + 1] == t[k];
    assert (f + "Z")[..k + 1] == "." + s[..k] && (g + "Z")[..k + 1] == "." + t[..k];
  }

  lemma PrefixAtDigit(d: string, e: string, s: string, t: string, k: nat)
    requires s <= d && t <= e && |d| == |e| && k < |d| && d[..k] == e[..k] && |s| <= k < |t|
    requires forall i | 0 <= i < |e| :: '0' <= e[i] <= '9'
    ensures var a, b := "." + s + "Z", "." + t + "Z";
      var i := |s| + 1;
      && i < |a| && i < |b| && a[..i] == b[..i] && b[i] < a[i]
    ensures "." + s < "." + t
  {
    var n := |s|;
    assert s == d[..n] == d[..k][..n] == e[..k][..n] == t[..n];
    var f, g := "." + s, "." + t;
    assert g[..n + 1] == "." + t[..n] == f;
    assert (f + "Z")[n + 1] == 'Z' && (g + "Z")[n + 1] == t[n] == e[n];
    assert (f + "Z")[..n + 1] == f && (g + "Z")[..n + 1] == g[..n + 1];
  }

  /** The times fall into one second and one printed fraction is a proper prefix of the other. */
  predicate Misordered(a: Instant, b: Instant) {
    && Seconds(a) == Seconds(b)
    && (ProperPrefix(Fraction(Nanos(a)), Fraction(Nanos(b))) || ProperPrefix(Fraction(Nanos(b)), Fraction(Nanos(a))))
  }

  lemma TimeParts(a: Instant, b: Instant)
    ensures a < b <==> Seconds(a) < Seconds(b) || (Seconds(a) == Seconds(b) && Nanos(a) < Nanos(b))
    ensures a == b <==> Seconds(a) == Seconds(b) && Nanos(a) == Nanos(b)
  {
    assert a == Seconds(a) * SECOND + Nanos(a) && b == Seconds(b) * SECOND + Nanos(b);
  }

  /**
   * The texts of two times are ordered as the times are, except exactly when the times fall into one second and one
   * printed fraction is a proper prefix of the other: then they are ordered the other way round.
   */
  lemma TextOrder(a: Instant, b: Instant)
    requires Formattable(a) && Formattable(b)
    ensures Less(FormatTime(a), FormatTime(b)) <==> if Misordered(a, b) then b < a else a < b
    ensures FormatTime(a) == FormatTime(b) <==> a == b
  {
    TimeParts(a, b);
    SecondsTextOrder(Seconds(a), Seconds(b));
    SecondsTextLength(Seconds(a));
    SecondsTextLength(Seconds(b));
    var p, q := SecondsText(Seconds(a)), SecondsText(Seconds(b));
    var s, t := Fraction(Nanos(a)) + "Z", Fraction(Nanos(b)) + "Z";
    LessIsIrreflexive(s);
    hide Less, SecondsText, Fraction, Seconds, Nanos;
    LessByField(p, q, s, t);
    if Nanos(a) < Nanos(b) {
      FractionOrder(Nanos(a), Nanos(b));
    } else if Nanos(b) < Nanos(a) {
      FractionOrder(Nanos(b), Nanos(a));
    }
    assert (p + s)[..19] == p && (q + t)[..19] == q && (p + s)[19..] == s && (q + t)[19..] == t;
    assert s[..|s| - 1] == Fraction(Nanos(a)) && t[..|t| - 1] == Fraction(Nanos(b));
  }

  /** Misordered times differ by less than a second. */
  lemma MisorderedAreClose(a: Instant, b: Instant)
    requires Misordered(a, b)
    ensures a - b < SECOND && b - a < SECOND
  {
    hide Fraction;
  }

  /** Half a second past any second is stored as a larger text than 0.51 seconds past it. */
  lemma MisorderedWitness(second: nat)
    ensures Misordered(second * SECOND + 500_000_000, second * SECOND + 510_000_000)
  {
    hide Fraction, Seconds, Nanos, Misordered;
    WholeSeconds(second, 500_000_000);
    WholeSeconds(second, 510_000_000);
    PrintedHalves();
    PrefixMisorders(second * SECOND + 500_000_000, second * SECOND + 510_000_000, ".5", ".51");
  }

  lemma PrefixMisorders(a: Instant, b: Instant, f: string, g: string)
    requires Seconds(a) == Seconds(b) && Fraction(Nanos(a)) == f && Fraction(Nanos(b)) == g
    requires |f| < |g| && g[..|f|] == f
    ensures Misordered(a, b)
  {
  }

  lemma WholeSeconds(second: nat, nanos: nat)
    requires nanos < SECOND
    ensures Seconds(second * SECOND + nanos) == second && Nanos(second * SECOND + nanos) == nanos
  {
  }

  lemma PrintedHalves()
    ensures Fraction(500_000_000) == ".5" && Fraction(510_000_000) == ".51"
  {
    DigitsOfHalf();
    hide Digits, TrimZeros;
  }

  lemma DigitsOfHalf()
    ensures TrimZeros(Digits(500_000_000, 9)) == "5"
    ensures TrimZeros(Digits(510_000_000, 9)) == "51"
  {
    ShortNumbers();
    hide Digits, TrimZeros;
    TrimmedZero(5, 1);
    TrimmedZero(50, 2);
    TrimmedZero(500, 3);
    TrimmedZero(5_000, 4);
    TrimmedZero(50_000, 5);
    TrimmedZero(500_000, 6);
    TrimmedZero(5_000_000, 7);
    TrimmedZero(50_000_000, 8);
    TrimmedZero(51, 2);
    TrimmedZero(510, 3);
    TrimmedZero(5_100, 4);
    TrimmedZero(51_000, 5);
    TrimmedZero(510_000, 6);
    TrimmedZero(5_100_000, 7);
    TrimmedZero(51_000_000, 8);
  }

  lemma ShortNumbers()
    ensures TrimZeros(Digits(5, 1)) == "5" && TrimZeros(Digits(51, 2)) == "51"
  {
    assert Digits(5, 1) == "" + ['5'];
    assert Digits(51, 2) == Digits(5, 1) + ['1'];
  }

  /** A zero appended to a number does not show. */
  lemma TrimmedZero(n: nat, width: nat)
    ensures TrimZeros(Digits(10 * n, width + 1)) == TrimZeros(Digits(n, width))
  {
    var shorter := Digits(n, width);
    assert 10 * n / 10 == n && 10 * n % 10 == 0;
    assert (shorter + ['0'])[..|shorter|] == shorter;
  }
}
