/**
The text form of timestamps in the agent's SQLite tables.

Every time column is TEXT, written by `formatTime` (RFC 3339 with nanoseconds, trailing zeros of
the fraction dropped, always UTC) and compared by SQLite as text.  An `Instant` counts nanoseconds
from 0000-01-01T00:00:00Z and stays inside the four-digit years RFC 3339 can write.
*/
module TimeKeys {
  import opened Options
  import opened Numerals
  import opened Strings

  const NANOS_PER_SECOND := 1_000_000_000
  const SECONDS_PER_DAY := 86_400
  const DAYS := 3_652_425
  const SECONDS := DAYS * SECONDS_PER_DAY

  type Instant = t: int | 0 <= t < SECONDS * NANOS_PER_SECOND

  function Second(t: Instant): (s: nat)
    ensures s < SECONDS
  {
    t / NANOS_PER_SECOND
  }

  // ---------------------------------------------------------------- calendar

  datatype Date = Date(year: nat, month: nat, day: nat)

  predicate IsLeap(y: nat) {
    y % 4 == 0 && (y % 100 != 0 || y % 400 == 0)
  }

  function MonthLength(y: nat, m: nat): nat {
    if m == 2 then if IsLeap(y) then 29 else 28
    else if m == 4 || m == 6 || m == 9 || m == 11 then 30
    else 31
  }

  predicate ValidDate(d: Date) {
    1 <= d.month <= 12 && 1 <= d.day <= MonthLength(d.year, d.month)
  }

  function Tomorrow(d: Date): (r: Date)
    requires ValidDate(d)
    ensures ValidDate(r)
  {
    if d.day < MonthLength(d.year, d.month) then d.(day := d.day + 1)
    else if d.month < 12 then Date(d.year, d.month + 1, 1)
    else Date(d.year + 1, 1, 1)
  }

  /** The date `day` days after 0000-01-01. */
  function DateOf(day: nat): (d: Date)
    ensures ValidDate(d)
  {
    if day == 0 then Date(0, 1, 1) else Tomorrow(DateOf(day - 1))
  }

  function DaysBeforeYear(y: nat): nat {
    365 * y + (y + 3) / 4 - (y + 99) / 100 + (y + 399) / 400
  }

  function DaysBeforeMonth(y: nat, m: nat): nat
    requires 1 <= m <= 13
  {
    [0, 31, 59, 90, 120, 151, 181, 212, 243, 273, 304, 334, 365][m - 1] + if m > 2 && IsLeap(y) then 1 else 0
  }

  function DayNumber(d: Date): nat
    requires ValidDate(d)
  {
    DaysBeforeYear(d.year) + DaysBeforeMonth(d.year, d.month) + d.day - 1
  }

  lemma NextMultiple(y: nat, k: nat)
    requires k == 4 || k == 100 || k == 400
    ensures (y + k) / k == (y + k - 1) / k + if y % k == 0 then 1 else 0
  {
  }

  lemma LeapRule(y: nat)
    ensures y % 400 == 0 ==> y % 100 == 0
    ensures y % 100 == 0 ==> y % 4 == 0
  {
    if y % 400 == 0 {
      assert y == 100 * (4 * (y / 400));
    }
    if y % 100 == 0 {
      assert y == 4 * (25 * (y / 100));
    }
  }

  lemma YearLength(y: nat)
    ensures DaysBeforeYear(y + 1) == DaysBeforeYear(y) + if IsLeap(y) then 366 else 365
  {
    NextMultiple(y, 4);
    NextMultiple(y, 100);
    NextMultiple(y, 400);
    LeapRule(y);
  }

  lemma DayNumberTomorrow(d: Date)
    requires ValidDate(d)
    ensures DayNumber(Tomorrow(d)) == DayNumber(d) + 1
  {
    YearLength(d.year);
  }

  /** The closed form inverts the day-by-day calendar. */
  lemma {:induction false} DayNumberOfDate(day: nat)
    ensures DayNumber(DateOf(day)) == day
  {
    if day > 0 {
      DayNumberOfDate(day - 1);
      DayNumberTomorrow(DateOf(day - 1));
    }
  }

  lemma DayNumberInYear(d: Date)
    requires ValidDate(d)
    ensures DaysBeforeYear(d.year) <= DayNumber(d) < DaysBeforeYear(d.year + 1)
  {
    YearLength(d.year);
  }

  lemma {:induction false} YearsAscend(y: nat, z: nat)
    requires y <= z
    ensures DaysBeforeYear(y) <= DaysBeforeYear(z)
    decreases z - y
  {
    if y < z {
      YearLength(y);
      YearsAscend(y + 1, z);
    }
  }

  /** Four-digit years and day numbers below `DAYS` are the same dates. */
  lemma FourDigitYears(d: Date)
    requires ValidDate(d)
    ensures d.year <= 9999 <==> DayNumber(d) < DAYS
  {
    DayNumberInYear(d);
    assert DaysBeforeYear(10_000) == DAYS;
    if d.year <= 9999 {
      YearsAscend(d.year + 1, 10_000);
    } else {
      YearsAscend(10_000, d.year);
    }
  }

  predicate Earlier(d: Date, e: Date) {
    d.year < e.year || (d.year == e.year && (d.month < e.month || (d.month == e.month && d.day < e.day)))
  }

  lemma {:induction false} DatesAscend(a: nat, b: nat)
    requires a < b
    ensures Earlier(DateOf(a), DateOf(b))
  {
    if a < b - 1 {
      DatesAscend(a, b - 1);
    }
  }

  // ---------------------------------------------------------------- digits

  function Pow10(w: nat): (p: nat)
    ensures p >= 1
  {
    if w == 0 then 1 else 10 * Pow10(w - 1)
  }

  /** `n` in exactly `w` decimal digits, leading zeros included. */
  function Pad(n: nat, w: nat): (s: string)
    ensures |s| == w && Digits(s)
  {
    if w == 0 then "" else Pad(n / 10, w - 1) + [Digit(n % 10)]
  }

  function Value(s: string): nat
    requires Digits(s)
  {
    if s == "" then 0
    else 10 * Value(s[..|s| - 1]) + (s[|s| - 1] as int - '0' as int)
  }

  lemma {:induction false} ValueOfPad(n: nat, w: nat)
    requires n < Pow10(w)
    ensures Value(Pad(n, w)) == n
  {
    if w > 0 {
      ValueOfPad(n / 10, w - 1);
      var s := Pad(n, w);
      assert s[..|s| - 1] == Pad(n / 10, w - 1);
    }
  }

  lemma {:induction false} ValueBound(s: string)
    requires Digits(s)
    ensures Value(s) < Pow10(|s|)
  {
    if s != "" {
      ValueBound(s[..|s| - 1]);
    }
  }

  lemma {:induction false} PadOrder(a: nat, b: nat, w: nat)
    requires a < b < Pow10(w)
    ensures TextLess(Pad(a, w), Pad(b, w))
  {
    if a / 10 < b / 10 {
      PadOrder(a / 10, b / 10, w - 1);
      TextLessExtend(Pad(a / 10, w - 1), Pad(b / 10, w - 1), [Digit(a % 10)], [Digit(b % 10)]);
    } else {
      TextLessPrefix(Pad(a / 10, w - 1), [Digit(a % 10)], [Digit(b % 10)]);
    }
  }

  // ---------------------------------------------------------------- formatTime

  function Zeros(n: nat): (s: string)
    ensures |s| == n && Digits(s)
  {
    seq(n, _ => '0')
  }

  function TrimZeros(s: string): (r: string)
    ensures |r| <= |s| && s == r + Zeros(|s| - |r|)
    ensures r != "" ==> r[|r| - 1] != '0'
  {
    if s != "" && s[|s| - 1] == '0' then
      var r := TrimZeros(s[..|s| - 1]);
      assert s == s[..|s| - 1] + "0";
      assert Zeros(|s| - |r|) == Zeros(|s| - 1 - |r|) + "0";
      r
    else
      assert Zeros(0) == "";
      s
  }

  /** The fraction digits that remain once trailing zeros are dropped. */
  function Fraction(t: Instant): (d: string)
    ensures Digits(d) && |d| <= 9
  {
    assert TrimZeros(Pad(t % NANOS_PER_SECOND, 9)) <= Pad(t % NANOS_PER_SECOND, 9);
    TrimZeros(Pad(t % NANOS_PER_SECOND, 9))
  }

  function Tail(fraction: string): string {
    if fraction == "" then "Z" else "." + fraction + "Z"
  }

  function DateText(d: Date): (s: string)
    ensures |s| == 10
  {
    Pad(d.year, 4) + ("-" + (Pad(d.month, 2) + ("-" + Pad(d.day, 2))))
  }

  function ClockText(clock: nat): (s: string)
    requires clock < SECONDS_PER_DAY
    ensures |s| == 8
  {
    Pad(clock / 3600, 2) + (":" + (Pad(clock / 60 % 60, 2) + (":" + Pad(clock % 60, 2))))
  }

  function Stamp(second: nat): (s: string)
    ensures |s| == 19
  {
    DateText(DateOf(second / SECONDS_PER_DAY)) + "T" + ClockText(second % SECONDS_PER_DAY)
  }

  function FormatTime(t: Instant): string {
    Stamp(Second(t)) + Tail(Fraction(t))
  }

  // ---------------------------------------------------------------- parseTime

  function Field(s: string, from: nat, to: nat): (v: Option<nat>)
    requires from <= to <= |s|
  {
    if Digits(s[from..to]) then Some(Value(s[from..to])) else None
  }

  function ParseDate(s: string): (day: Option<nat>)
    requires |s| == 10
    ensures day.Some? ==> day.value < DAYS
  {
    var y, m, d := Field(s, 0, 4), Field(s, 5, 7), Field(s, 8, 10);
    if y.Some? && m.Some? && d.Some? && s[4] == '-' && s[7] == '-'
       && ValidDate(Date(y.value, m.value, d.value)) then
      ValueBound(s[0..4]);
      assert Pow10(4) == 10_000;
      FourDigitYears(Date(y.value, m.value, d.value));
      Some(DayNumber(Date(y.value, m.value, d.value)))
    else None
  }

  function ParseClock(s: string): (clock: Option<nat>)
    requires |s| == 8
    ensures clock.Some? ==> clock.value < SECONDS_PER_DAY
  {
    var h, m, sec := Field(s, 0, 2), Field(s, 3, 5), Field(s, 6, 8);
    if h.Some? && m.Some? && sec.Some? && s[2] == ':' && s[5] == ':'
       && h.value < 24 && m.value < 60 && sec.value < 60 then
      Some(h.value * 3600 + m.value * 60 + sec.value)
    else None
  }

  /** Nanoseconds of a fraction; digits after the ninth are dropped. */
  function ParseTail(s: string): (nanos: Option<nat>)
    ensures nanos.Some? ==> nanos.value < NANOS_PER_SECOND
  {
    if s == "Z" then Some(0)
    else if |s| >= 3 && s[0] == '.' && s[|s| - 1] == 'Z' && Digits(s[1..|s| - 1]) then
      var digits := s[1..|s| - 1] + Zeros(9);
      ValueBound(digits[..9]);
      assert Pow10(9) == NANOS_PER_SECOND;
      Some(Value(digits[..9]))
    else None
  }

  function ParseTime(s: string): (t: Option<Instant>) {
    if |s| < 20 || s[10] != 'T' then None
    else
      var day, clock, nanos := ParseDate(s[..10]), ParseClock(s[11..19]), ParseTail(s[19..]);
      if day.Some? && clock.Some? && nanos.Some? then
        Some((day.value * SECONDS_PER_DAY + clock.value) * NANOS_PER_SECOND + nanos.value)
      else None
  }

  // ---------------------------------------------------------------- round trip

  lemma {:induction false} ParseDateFields(y: string, m: string, d: string, date: Date)
    requires |y| == 4 && |m| == 2 && |d| == 2 && Digits(y) && Digits(m) && Digits(d)
    requires date == Date(Value(y), Value(m), Value(d)) && ValidDate(date)
    ensures ParseDate(y + ("-" + (m + ("-" + d)))) == Some(DayNumber(date))
  {
    var s := y + ("-" + (m + ("-" + d)));
    assert s[0..4] == y && s[5..7] == m && s[8..10] == d;
    assert Field(s, 0, 4) == Some(date.year);
    assert Field(s, 5, 7) == Some(date.month);
    assert Field(s, 8, 10) == Some(date.day);
  }

  lemma ParseDateText(day: nat)
    requires day < DAYS
    ensures ParseDate(DateText(DateOf(day))) == Some(day)
  {
    var d := DateOf(day);
    DayNumberOfDate(day);
    FourDigitYears(d);
    assert Pow10(2) == 100 && Pow10(4) == 10_000;
    ValueOfPad(d.year, 4);
    ValueOfPad(d.month, 2);
    ValueOfPad(d.day, 2);
    ParseDateFields(Pad(d.year, 4), Pad(d.month, 2), Pad(d.day, 2), d);
  }

  lemma ClockFields(clock: nat)
    requires clock < SECONDS_PER_DAY
    ensures clock == clock / 3600 * 3600 + clock / 60 % 60 * 60 + clock % 60
    ensures clock / 3600 < 24
  {
  }

  lemma {:induction false} ParseClockFields(h: string, m: string, c: string, hour: nat, minute: nat, second: nat)
    requires |h| == 2 && |m| == 2 && |c| == 2 && Digits(h) && Digits(m) && Digits(c)
    requires hour == Value(h) < 24 && minute == Value(m) < 60 && second == Value(c) < 60
    ensures ParseClock(h + (":" + (m + (":" + c)))) == Some(hour * 3600 + minute * 60 + second)
  {
    var s := h + (":" + (m + (":" + c)));
    assert s[0..2] == h && s[3..5] == m && s[6..8] == c;
    assert Field(s, 0, 2) == Some(hour);
    assert Field(s, 3, 5) == Some(minute);
    assert Field(s, 6, 8) == Some(second);
  }

  lemma ParseClockText(clock: nat)
    requires clock < SECONDS_PER_DAY
    ensures ParseClock(ClockText(clock)) == Some(clock)
  {
    ClockFields(clock);
    ParseClockPads(clock / 3600, clock / 60 % 60, clock % 60);
  }

  lemma ParseClockPads(hour: nat, minute: nat, second: nat)
    requires hour < 24 && minute < 60 && second < 60
    ensures ParseClock(Pad(hour, 2) + (":" + (Pad(minute, 2) + (":" + Pad(second, 2)))))
         == Some(hour * 3600 + minute * 60 + second)
  {
    assert Pow10(2) == 100;
    ValueOfPad(hour, 2);
    ValueOfPad(minute, 2);
    ValueOfPad(second, 2);
    ParseClockFields(Pad(hour, 2), Pad(minute, 2), Pad(second, 2), hour, minute, second);
  }

  lemma ParseTailText(t: Instant)
    ensures ParseTail(Tail(Fraction(t))) == Some(t % NANOS_PER_SECOND)
  {
    var n := t % NANOS_PER_SECOND;
    var d := Fraction(t);
    assert Pow10(9) == NANOS_PER_SECOND;
    ValueOfPad(n, 9);
    if d == "" {
      assert Pad(n, 9) == Zeros(9) == Pad(0, 9);
      ValueOfPad(0, 9);
    } else {
      var s := Tail(d);
      assert s[1..|s| - 1] == d;
      assert (d + Zeros(9))[..9] == d + Zeros(9 - |d|);
    }
  }

  lemma FormatPieces(t: Instant)
    ensures |FormatTime(t)| >= 20 && FormatTime(t)[10] == 'T'
    ensures FormatTime(t)[..10] == DateText(DateOf(Second(t) / SECONDS_PER_DAY))
    ensures FormatTime(t)[11..19] == ClockText(Second(t) % SECONDS_PER_DAY)
    ensures FormatTime(t)[19..] == Tail(Fraction(t))
  {
  }

  /** Reading a stored timestamp gives back the instant that was written. */
  lemma Recombined(t: Instant)
    ensures var second := Second(t);
            ((second / SECONDS_PER_DAY) * SECONDS_PER_DAY + second % SECONDS_PER_DAY) * NANOS_PER_SECOND + t % NANOS_PER_SECOND == t
  {
  }

  lemma ParseFormat(t: Instant)
    ensures ParseTime(FormatTime(t)) == Some(t)
  {
    var second := Second(t);
    FormatPieces(t);
    ParseDateText(second / SECONDS_PER_DAY);
    ParseClockText(second % SECONDS_PER_DAY);
    ParseTailText(t);
    ParsePieces(FormatTime(t), second / SECONDS_PER_DAY, second % SECONDS_PER_DAY, t % NANOS_PER_SECOND);
    Recombined(t);
  }

  lemma ParsePieces(s: string, day: nat, clock: nat, nanos: nat)
    requires |s| >= 20 && s[10] == 'T'
    requires ParseDate(s[..10]) == Some(day) && ParseClock(s[11..19]) == Some(clock) && ParseTail(s[19..]) == Some(nanos)
    ensures ParseTime(s) == Some((day * SECONDS_PER_DAY + clock) * NANOS_PER_SECOND + nanos)
  {
  }

  /** Text equality of key columns is equality of instants. */
  lemma FormatInjective(t: Instant, u: Instant)
    requires FormatTime(t) == FormatTime(u)
    ensures t == u
  {
    ParseFormat(t);
    ParseFormat(u);
  }

  // ---------------------------------------------------------------- text order against time order

  /** A fixed-width field decides the comparison unless it is equal on both sides. */
  lemma FieldOrder(w: nat, a: nat, b: nat, x: string, y: string)
    requires a < Pow10(w) && b < Pow10(w)
    requires a < b || (a == b && TextLess(x, y))
    ensures TextLess(Pad(a, w) + x, Pad(b, w) + y)
  {
    if a < b {
      PadOrder(a, b, w);
      TextLessExtend(Pad(a, w), Pad(b, w), x, y);
    } else {
      TextLessPrefix(Pad(a, w), x, y);
    }
  }

  lemma PairOrder(w: nat, sep: string, a: nat, b: nat, c: nat, e: nat)
    requires a < Pow10(w) && b < Pow10(w) && c < Pow10(w) && e < Pow10(w)
    requires a < b || (a == b && c < e)
    ensures TextLess(sep + (Pad(a, w) + (sep + Pad(c, w))), sep + (Pad(b, w) + (sep + Pad(e, w))))
  {
    var x, y := sep + Pad(c, w), sep + Pad(e, w);
    if a == b {
      PadOrder(c, e, w);
      TextLessPrefix(sep, Pad(c, w), Pad(e, w));
    }
    FieldOrder(w, a, b, x, y);
    TextLessPrefix(sep, Pad(a, w) + x, Pad(b, w) + y);
  }

  /** Three fields and their separators, the first `v` digits wide, the others `w`. */
  lemma TripleOrder(v: nat, w: nat, sep: string, a: nat, b: nat, c: nat, d: nat, e: nat, f: nat)
    requires a < Pow10(v) && b < Pow10(v) && c < Pow10(w) && d < Pow10(w) && e < Pow10(w) && f < Pow10(w)
    requires a < b || (a == b && (c < d || (c == d && e < f)))
    ensures TextLess(Pad(a, v) + (sep + (Pad(c, w) + (sep + Pad(e, w)))),
                     Pad(b, v) + (sep + (Pad(d, w) + (sep + Pad(f, w)))))
  {
    var x, y := sep + (Pad(c, w) + (sep + Pad(e, w))), sep + (Pad(d, w) + (sep + Pad(f, w)));
    assert a == b ==> TextLess(x, y) by {
      if a == b {
        PairOrder(w, sep, c, d, e, f);
      }
    }
    FieldOrder(v, a, b, x, y);
  }

  lemma DateTextOrder(a: nat, b: nat)
    requires a < b < DAYS
    ensures TextLess(DateText(DateOf(a)), DateText(DateOf(b)))
  {
    var d, e := DateOf(a), DateOf(b);
    DatesAscend(a, b);
    DayNumberOfDate(a);
    DayNumberOfDate(b);
    FourDigitYears(d);
    FourDigitYears(e);
    assert Pow10(2) == 100 && Pow10(4) == 10_000;
    TripleOrder(4, 2, "-", d.year, e.year, d.month, e.month, d.day, e.day);
  }

  lemma ClockFieldsOrder(a: nat, b: nat)
    requires a < b < SECONDS_PER_DAY
    ensures var (h, h', m, m') := (a / 3600, b / 3600, a / 60 % 60, b / 60 % 60);
            h < h' || (h == h' && (m < m' || (m == m' && a % 60 < b % 60)))
  {
    ClockFields(a);
    ClockFields(b);
  }

  lemma ClockTextOrder(a: nat, b: nat)
    requires a < b < SECONDS_PER_DAY
    ensures TextLess(ClockText(a), ClockText(b))
  {
    ClockFieldsOrder(a, b);
    ClockFields(a);
    ClockFields(b);
    var w := 2;
    assert Pow10(w) == 100;
    TripleOrder(w, w, ":", a / 3600, b / 3600, a / 60 % 60, b / 60 % 60, a % 60, b % 60);
  }

  lemma DayThenClock(d: string, e: string, x: string, y: string)
    requires |d| == |e| && (TextLess(d, e) || (d == e && TextLess(x, y)))
    ensures TextLess(d + ("T" + x), e + ("T" + y))
  {
    if TextLess(d, e) {
      TextLessExtend(d, e, "T" + x, "T" + y);
    } else {
      TextLessPrefix("T", x, y);
      TextLessPrefix(d, "T" + x, "T" + y);
    }
  }

  lemma StampOrder(a: nat, b: nat)
    requires a < b < SECONDS
    ensures TextLess(Stamp(a), Stamp(b))
  {
    var (d, e) := (DateText(DateOf(a / SECONDS_PER_DAY)), DateText(DateOf(b / SECONDS_PER_DAY)));
    var (x, y) := (ClockText(a % SECONDS_PER_DAY), ClockText(b % SECONDS_PER_DAY));
    assert Stamp(a) == d + ("T" + x) && Stamp(b) == e + ("T" + y);
    if a / SECONDS_PER_DAY < b / SECONDS_PER_DAY {
      DateTextOrder(a / SECONDS_PER_DAY, b / SECONDS_PER_DAY);
    } else {
      ClockTextOrder(a % SECONDS_PER_DAY, b % SECONDS_PER_DAY);
    }
    DayThenClock(d, e, x, y);
  }

  /**
  Two digit strings that order one way when padded with zeros: once the zeros are gone they still
  do, unless the smaller one is a prefix of the larger, and then the closing "Z" turns them around.
  */
  lemma {:induction false} FractionOrder(d: string, e: string, m: nat, n: nat)
    requires Digits(d) && Digits(e) && |d| + m == |e| + n
    requires TextLess(d + Zeros(m), e + Zeros(n))
    ensures d <= e ==> TextLess(e + "Z", d + "Z")
    ensures !(d <= e) ==> TextLess(d + "Z", e + "Z")
  {
    var x, y := d + Zeros(m), e + Zeros(n);
    if d == "" {
      if e == "" {
        TextLessIrreflexive(x);
      }
    } else if e == "" {
      assert y == Zeros(n);
      NoTextBelowZeros(x, n);
    } else {
      assert x[1..] == d[1..] + Zeros(m) && y[1..] == e[1..] + Zeros(n);
      assert (d + "Z")[1..] == d[1..] + "Z" && (e + "Z")[1..] == e[1..] + "Z";
      if d[0] == e[0] {
        FractionOrder(d[1..], e[1..], m, n);
        assert d <= e <==> d[1..] <= e[1..];
      }
    }
  }

  lemma {:induction false} NoTextBelowZeros(s: string, n: nat)
    requires Digits(s) && |s| == n
    ensures !TextLess(s, Zeros(n))
  {
    if n > 0 {
      assert Zeros(n)[1..] == Zeros(n - 1);
      NoTextBelowZeros(s[1..], n - 1);
    }
  }

  /**
  The exact reach of text comparison.  It agrees with time whenever the whole seconds differ; inside
  one second it agrees unless the earlier fraction, trailing zeros dropped, is a prefix of the later.
  */
  lemma TextOrder(t: Instant, u: Instant)
    requires t < u
    ensures TextLess(FormatTime(t), FormatTime(u)) <==> (Second(t) < Second(u) || !(Fraction(t) <= Fraction(u)))
    ensures TextLess(FormatTime(u), FormatTime(t)) <==> !TextLess(FormatTime(t), FormatTime(u))
  {
    if Second(t) < Second(u) {
      StampOrder(Second(t), Second(u));
      TextLessExtend(Stamp(Second(t)), Stamp(Second(u)), Tail(Fraction(t)), Tail(Fraction(u)));
      TextLessAsymmetric(FormatTime(t), FormatTime(u));
    } else {
      SameSecondOrder(t, u);
      TextLessPrefix(Stamp(Second(t)), Tail(Fraction(t)), Tail(Fraction(u)));
      TextLessPrefix(Stamp(Second(t)), Tail(Fraction(u)), Tail(Fraction(t)));
    }
  }

  lemma SameSecondOrder(t: Instant, u: Instant)
    requires t < u && Second(t) == Second(u)
    ensures TextLess(Tail(Fraction(t)), Tail(Fraction(u))) <==> !(Fraction(t) <= Fraction(u))
    ensures TextLess(Tail(Fraction(u)), Tail(Fraction(t))) <==> Fraction(t) <= Fraction(u)
  {
    FractionsPadded(t, u);
    var d, e := Fraction(t), Fraction(u);
    FractionOrder(d, e, 9 - |d|, 9 - |e|);
    TailOrder(d, e);
  }

  /** Of two fractions of one second the later is not empty, and padded to nine digits they order as text. */
  lemma FractionsPadded(t: Instant, u: Instant)
    requires t < u && Second(t) == Second(u)
    ensures Fraction(u) != "" && |Fraction(t)| <= 9 && |Fraction(u)| <= 9
    ensures TextLess(Fraction(t) + Zeros(9 - |Fraction(t)|), Fraction(u) + Zeros(9 - |Fraction(u)|))
  {
    assert Pow10(9) == NANOS_PER_SECOND;
    PadOrder(t % NANOS_PER_SECOND, u % NANOS_PER_SECOND, 9);
    if Fraction(u) == "" {
      assert Pad(u % NANOS_PER_SECOND, 9) == Zeros(9);
      NoTextBelowZeros(Pad(t % NANOS_PER_SECOND, 9), 9);
    }
  }

  lemma TailOrder(d: string, e: string)
    requires e != ""
    requires d <= e ==> TextLess(e + "Z", d + "Z")
    requires !(d <= e) ==> TextLess(d + "Z", e + "Z")
    ensures TextLess(Tail(d), Tail(e)) <==> !(d <= e)
    ensures TextLess(Tail(e), Tail(d)) <==> d <= e
  {
    if d != "" {
      TextLessPrefix(".", d + "Z", e + "Z");
      TextLessPrefix(".", e + "Z", d + "Z");
      assert Tail(e) == "." + (e + "Z") && Tail(d) == "." + (d + "Z");
      if d <= e {
        TextLessAsymmetric(e + "Z", d + "Z");
      } else {
        TextLessAsymmetric(d + "Z", e + "Z");
      }
    }
  }

  // ---------------------------------------------------------------- readiness

  /** `next_attempt_at <= ?` as SQLite evaluates it. */
  predicate Ready(nextAttempt: Instant, now: Instant) {
    !TextLess(FormatTime(now), FormatTime(nextAttempt))
  }

  /** The stored comparison is never wrong by a full second, in either direction. */
  lemma ReadyWithinOneSecond(nextAttempt: Instant, now: Instant)
    ensures Second(nextAttempt) < Second(now) ==> Ready(nextAttempt, now)
    ensures Ready(nextAttempt, now) ==> Second(nextAttempt) <= Second(now)
    ensures nextAttempt == now ==> Ready(nextAttempt, now)
  {
    if nextAttempt < now {
      TextOrder(nextAttempt, now);
    } else if now < nextAttempt {
      TextOrder(now, nextAttempt);
    } else {
      TextLessIrreflexive(FormatTime(now));
    }
  }

  lemma ZeroFraction()
    ensures Fraction(0) == ""
  {
    assert forall i :: 0 <= i < 9 ==> Pad(0, 9)[i] == '0';
    assert forall r: string | r <= Pad(0, 9) && r != "" :: r[|r| - 1] == '0';
  }

  /** A row due half a second ago that the query does not return. */
  lemma ReadinessCanLag()
    ensures exists nextAttempt: Instant, now: Instant :: nextAttempt < now && !Ready(nextAttempt, now)
  {
    var t: Instant, u: Instant := 0, 500_000_000;
    ZeroFraction();
    TextOrder(t, u);
    assert t < u && !Ready(t, u);
  }
}
