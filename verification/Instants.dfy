/** Instants as text: rendering to the millisecond and parsing, section 5.6 of RFC 3339. */
module Instants {
  import opened Rollouts
  import opened Calendar
  import Exact

  const SECOND: int := 1_000_000_000
  const MILLI: int := 1_000_000
  const DAY: int := 86_400

  /** A signed 64-bit count of nanoseconds since the epoch. */
  predicate Storable(nanos: int) { -0x8000_0000_0000_0000 <= nanos < 0x8000_0000_0000_0000 }

  /** Whole part rounded down and non-negative rest, from the machine's truncating division. */
  function FloorDiv(a: int, n: int): (int, int)
    requires n > 0
  {
    var q := Quotient(a, n);
    var r := a - q * n;
    if r < 0 then (q - 1, r + n) else (q, r)
  }

  lemma MulNegated(m: int, n: int)
    ensures (-m) * n == -(m * n)
  {
  }

  lemma FloorDivIs(a: int, n: int)
    requires n > 0
    ensures FloorDiv(a, n) == (a / n, a % n)
  {
    Exact.DivStep(a, n);
    if a < 0 {
      NegativeFloor(-a, n);
    }
  }

  lemma NegativeFloor(b: int, n: int)
    requires n > 0 && b > 0
    ensures FloorDiv(-b, n) == ((-b) / n, (-b) % n)
  {
    var m, k := b / n, b % n;
    Exact.DivStep(b, n);
    Exact.DivStep(-b, n);
    MulNegated(m, n);
    assert Quotient(-b, n) == -m;
    assert -b - (-m) * n == -k;
    if k == 0 {
      Exact.DivUnique(-b, n, -m);
    } else {
      MulNegated(m + 1, n);
      Exact.Distribute(m, 1, n, 0);
      Exact.DivUnique(-b, n, -m - 1);
    }
  }

  function DigitOf(n: int): char
    requires 0 <= n < 10
  {
    '0' + n as char
  }

  // ----- rendering -----

  datatype Fields = Fields(date: Date, hour: int, minute: int, second: int, millis: int)

  function FieldsOf(nanos: int): Fields {
    var (seconds, rest) := FloorDiv(nanos, SECOND);
    var (days, secondOfDay) := FloorDiv(seconds, DAY);
    Fields(CivilFromDays(days), secondOfDay / 3600, secondOfDay % 3600 / 60, secondOfDay % 60, rest / MILLI)
  }

  predicate Printable(f: Fields) {
    && 0 <= f.date.year < 10000 && ValidDate(f.date) && 0 <= f.hour < 24 && 0 <= f.minute < 60
    && 0 <= f.second < 60 && 0 <= f.millis < 1000
  }

  /** Four-digit year, two-digit fields, three-digit milliseconds, and the zone. */
  function Render(f: Fields): string
    requires Printable(f)
  {
    var y, m, d := f.date.year, f.date.month, f.date.day;
    [DigitOf(y / 1000), DigitOf(y / 100 % 10), DigitOf(y / 10 % 10), DigitOf(y % 10), '-',
     DigitOf(m / 10), DigitOf(m % 10), '-', DigitOf(d / 10), DigitOf(d % 10), 'T',
     DigitOf(f.hour / 10), DigitOf(f.hour % 10), ':', DigitOf(f.minute / 10), DigitOf(f.minute % 10), ':',
     DigitOf(f.second / 10), DigitOf(f.second % 10), '.',
     DigitOf(f.millis / 100), DigitOf(f.millis / 10 % 10), DigitOf(f.millis % 10), 'Z']
  }

  /** Every 64-bit instant lies in the years 1600 to 2400. */
  lemma StorableIsPrintable(nanos: int)
    requires Storable(nanos)
    ensures Printable(FieldsOf(nanos))
  {
    FloorDivIs(nanos, SECOND);
    Exact.DivStep(nanos, SECOND);
    var seconds := nanos / SECOND;
    FloorDivIs(seconds, DAY);
    Exact.DivStep(seconds, DAY);
    var days := seconds / DAY;
    DayRoundTrip(days);
    YearIsNear(days);
    RestFits(seconds % DAY, nanos % SECOND);
  }

  lemma RestFits(secondOfDay: int, rest: int)
    requires 0 <= secondOfDay < DAY && 0 <= rest < SECOND
    ensures 0 <= secondOfDay / 3600 < 24 && 0 <= secondOfDay % 3600 / 60 < 60 && 0 <= secondOfDay % 60 < 60
    ensures 0 <= rest / MILLI < 1000
  {
  }

  lemma YearIsNear(days: int)
    requires -110000 <= days < 110000
    ensures 1600 <= CivilFromDays(days).year <= 2400
  {
    var era, doe := (days + 719468) / 146097, (days + 719468) % 146097;
    assert 4 <= era <= 5;
    CivilByEra(era, doe);
    DayFound(doe);
    var y := YearOf(doe);
    hide YearOf, CivilFromDays;
    if era == 5 {
      assert doe < 99000;
      EarlyInEra(doe);
    }
  }

  lemma EarlyInEra(doe: int)
    requires 0 <= doe < 99000
    ensures YearOf(doe) < 399
  {
  }

  function ToRfc3339(nanos: int): string
    requires Storable(nanos)
  {
    StorableIsPrintable(nanos);
    Render(FieldsOf(nanos))
  }

  // ----- parsing -----

  predicate IsDigit(c: char) { '0' <= c <= '9' }

  function DigitValue(c: char): int
    requires IsDigit(c)
  {
    (c - '0') as int
  }

  /** `count` decimal digits at `offset`, continuing from `value`. */
  function Fixed(text: string, offset: nat, count: nat, value: int): Option<int>
    decreases count
  {
    if count == 0 then Some(value)
    else if offset >= |text| || !IsDigit(text[offset]) then None
    else Fixed(text, offset + 1, count - 1, value * 10 + DigitValue(text[offset]))
  }

  datatype Fraction = Fraction(cursor: nat, digits: nat, nanos: int)

  /** Digits after the point: the first nine count, the rest are skipped. */
  function FractionFrom(text: string, cursor: nat, digits: nat, scale: int, nanos: int): Fraction
    decreases |text| - cursor
  {
    if cursor >= |text| || !IsDigit(text[cursor]) then Fraction(cursor, digits, nanos)
    else if digits < 9 then
      FractionFrom(text, cursor + 1, digits + 1, scale / 10, nanos + DigitValue(text[cursor]) * scale)
    else FractionFrom(text, cursor + 1, digits + 1, scale, nanos)
  }

  function SkipColon(text: string, cursor: nat): nat {
    if cursor < |text| && text[cursor] == ':' then cursor + 1 else cursor
  }

  /** The zone at `cursor`: its offset in seconds and where it ends. */
  function Zone(text: string, cursor: nat): Option<(int, nat)> {
    if cursor >= |text| then None
    else if text[cursor] == 'Z' || text[cursor] == 'z' then Some((0, cursor + 1))
    else if text[cursor] == '+' || text[cursor] == '-' then
      var hours := Fixed(text, cursor + 1, 2, 0);
      var at := SkipColon(text, cursor + 3);
      var minutes := Fixed(text, at, 2, 0);
      if hours.None? || minutes.None? || hours.value > 23 || minutes.value > 59 then None
      else
        var offset := hours.value * 3600 + minutes.value * 60;
        Some((if text[cursor] == '-' then -offset else offset, at + 2))
    else None
  }

  /** The fraction, the zone and the end of the text. */
  function Tail(text: string): Option<(int, int)> {
    if |text| > 19 && text[19] == '.' then
      var f := FractionFrom(text, 20, 0, 100_000_000, 0);
      var zone := Zone(text, f.cursor);
      if f.digits == 0 || zone.None? || zone.value.1 != |text| then None else Some((f.nanos, zone.value.0))
    else
      var zone := Zone(text, 19);
      if zone.None? || zone.value.1 != |text| then None else Some((0, zone.value.0))
  }

  /** Refused, an instant, or arithmetic that leaves the signed 64-bit range, which the code does not guard. */
  datatype Parsed = Refused | Instant(nanos: int) | Overflowed

  /** Seconds scaled to nanoseconds, then the fraction added. */
  function Scaled(seconds: int, fraction: int): Parsed {
    if Storable(seconds * SECOND) && Storable(seconds * SECOND + fraction) then Instant(seconds * SECOND + fraction)
    else Overflowed
  }

  /** What an accepted text says: the date and second of day of some zone, that zone's offset, and the fraction. */
  datatype Reading = Reading(date: Date, secondOfDay: int, offset: int, fraction: int)

  function Read(text: string): Option<Reading> {
    if |text| < 20 then None
    else
      var year, month, day := Fixed(text, 0, 4, 0), Fixed(text, 5, 2, 0), Fixed(text, 8, 2, 0);
      var hour, minute, second := Fixed(text, 11, 2, 0), Fixed(text, 14, 2, 0), Fixed(text, 17, 2, 0);
      if year.None? || text[4] != '-' || month.None? || text[7] != '-' || day.None? ||
         (text[10] != 'T' && text[10] != 't') || hour.None? || text[13] != ':' || minute.None? ||
         text[16] != ':' || second.None? then None
      else if month.value < 1 || month.value > 12 || day.value < 1 || day.value > 31 || hour.value > 23 ||
              minute.value > 59 || second.value > 60 then None
      else
        var tail := Tail(text);
        if tail.None? then None
        else Some(Reading(Date(year.value, month.value, day.value),
                          hour.value * 3600 + minute.value * 60 + second.value, tail.value.1, tail.value.0))
  }

  /** Seconds since the epoch, in universal time. */
  function SecondsOf(r: Reading): int { DaysFromCivil(r.date) * DAY + r.secondOfDay - r.offset }

  function Parse(text: string): Parsed {
    match Read(text)
    case None => Refused
    case Some(r) => Scaled(SecondsOf(r), r.fraction)
  }

  // ----- round trip -----

  lemma FixedTwo(text: string, offset: nat, n: int)
    requires 0 <= n < 100 && offset + 2 <= |text|
    requires text[offset] == DigitOf(n / 10) && text[offset + 1] == DigitOf(n % 10)
    ensures Fixed(text, offset, 2, 0) == Some(n)
  {
    assert Fixed(text, offset + 2, 0, n) == Some(n);
    assert Fixed(text, offset + 1, 1, n / 10) == Some(n);
  }

  lemma FixedFour(text: string, offset: nat, n: int)
    requires 0 <= n < 10000 && offset + 4 <= |text|
    requires text[offset] == DigitOf(n / 1000) && text[offset + 1] == DigitOf(n / 100 % 10)
    requires text[offset + 2] == DigitOf(n / 10 % 10) && text[offset + 3] == DigitOf(n % 10)
    ensures Fixed(text, offset, 4, 0) == Some(n)
  {
    assert n / 100 == n / 1000 * 10 + n / 100 % 10;
    assert n / 10 == n / 100 * 10 + n / 10 % 10;
    assert Fixed(text, offset + 4, 0, n) == Some(n);
    assert Fixed(text, offset + 3, 1, n / 10) == Some(n);
    assert Fixed(text, offset + 2, 2, n / 100) == Some(n);
    assert Fixed(text, offset + 1, 3, n / 1000) == Some(n);
  }

  lemma RenderedTail(f: Fields)
    requires Printable(f)
    ensures Tail(Render(f)) == Some((f.millis * MILLI, 0))
  {
    var text, m := Render(f), f.millis;
    assert m == m / 100 * 100 + m / 10 % 10 * 10 + m % 10;
    assert FractionFrom(text, 23, 3, 100_000, m * MILLI) == Fraction(23, 3, m * MILLI);
    assert FractionFrom(text, 22, 2, 1_000_000, m / 100 * 100_000_000 + m / 10 % 10 * 10_000_000) ==
           Fraction(23, 3, m * MILLI);
    assert FractionFrom(text, 21, 1, 10_000_000, m / 100 * 100_000_000) == Fraction(23, 3, m * MILLI);
    assert FractionFrom(text, 20, 0, 100_000_000, 0) == Fraction(23, 3, m * MILLI);
  }

  lemma RenderedParses(f: Fields)
    requires Printable(f)
    ensures Parse(Render(f)) ==
            Scaled(DaysFromCivil(f.date) * DAY + f.hour * 3600 + f.minute * 60 + f.second, f.millis * MILLI)
  {
    hide DaysFromCivil, Fixed, Tail, Scaled;
    var text := Render(f);
    FixedFour(text, 0, f.date.year);
    FixedTwo(text, 5, f.date.month);
    FixedTwo(text, 8, f.date.day);
    FixedTwo(text, 11, f.hour);
    FixedTwo(text, 14, f.minute);
    FixedTwo(text, 17, f.second);
    RenderedTail(f);
  }

  /**
   * Parsing a rendered instant returns it, rounded down to the millisecond, before the epoch too; only in the
   * first partial second of the 64-bit range does the arithmetic overflow.
   */
  lemma InstantRoundTrip(nanos: int)
    requires Storable(nanos)
    ensures Parse(ToRfc3339(nanos)) ==
            if nanos >= FIRST_SECOND * SECOND then Instant(nanos / MILLI * MILLI) else Overflowed
  {
    hide Parse, Render, DaysFromCivil, CivilFromDays, FloorDiv, Printable;
    StorableIsPrintable(nanos);
    var f := FieldsOf(nanos);
    RenderedParses(f);
    FloorDivIs(nanos, SECOND);
    var seconds, rest := nanos / SECOND, nanos % SECOND;
    FloorDivIs(seconds, DAY);
    DayRoundTrip(seconds / DAY);
    Recombine(nanos, seconds, rest, seconds / DAY, seconds % DAY);
    ScaledBack(nanos, seconds, rest);
  }

  /** The first whole second of the 64-bit range, and the last. */
  const FIRST_SECOND: int := -9_223_372_036
  const LAST_SECOND: int := 9_223_372_036
  const LAST_FRACTION: int := 854_775_807

  /** Which seconds and fractions fit the range: the scaled seconds must fit by themselves. */
  lemma ScaledFits(seconds: int, fraction: int)
    requires 0 <= fraction < SECOND
    ensures !Scaled(seconds, fraction).Refused?
    ensures Scaled(seconds, fraction).Instant? <==>
            FIRST_SECOND <= seconds <= LAST_SECOND && (seconds == LAST_SECOND ==> fraction <= LAST_FRACTION)
  {
  }

  lemma ScaledBack(nanos: int, seconds: int, rest: int)
    requires Storable(nanos) && seconds == nanos / SECOND && rest == nanos % SECOND
    ensures Scaled(seconds, rest / MILLI * MILLI) ==
            if nanos >= FIRST_SECOND * SECOND then Instant(seconds * SECOND + rest / MILLI * MILLI) else Overflowed
  {
    Exact.DivStep(nanos, SECOND);
    Exact.DivStep(rest, MILLI);
    ScaledFits(seconds, rest / MILLI * MILLI);
  }

  lemma Recombine(nanos: int, seconds: int, rest: int, days: int, secondOfDay: int)
    requires seconds == nanos / SECOND && rest == nanos % SECOND
    requires days == seconds / DAY && secondOfDay == seconds % DAY
    ensures days * DAY + secondOfDay / 3600 * 3600 + secondOfDay % 3600 / 60 * 60 + secondOfDay % 60 == seconds
    ensures seconds * SECOND + rest / MILLI * MILLI == nanos / MILLI * MILLI
  {
    Exact.DivStep(nanos, SECOND);
    Exact.DivStep(seconds, DAY);
    assert secondOfDay / 3600 * 3600 + secondOfDay % 3600 / 60 * 60 + secondOfDay % 60 == secondOfDay;
    Exact.DivStep(rest, MILLI);
    Exact.DivUnique(nanos, MILLI, seconds * 1000 + rest / MILLI);
  }

  predicate TwoDigits(n: int) { 0 <= n < 100 }

  /** A date and time in whole seconds, in universal time. */
  function Stamp(y: int, m: int, d: int, h: int, mi: int, s: int): string
    requires 0 <= y < 10000 && TwoDigits(m) && TwoDigits(d) && TwoDigits(h) && TwoDigits(mi) && TwoDigits(s)
  {
    [DigitOf(y / 1000), DigitOf(y / 100 % 10), DigitOf(y / 10 % 10), DigitOf(y % 10), '-',
     DigitOf(m / 10), DigitOf(m % 10), '-', DigitOf(d / 10), DigitOf(d % 10), 'T',
     DigitOf(h / 10), DigitOf(h % 10), ':', DigitOf(mi / 10), DigitOf(mi % 10), ':', DigitOf(s / 10), DigitOf(s % 10),
     'Z']
  }

  predicate InFields(m: int, d: int, h: int, mi: int, s: int) {
    1 <= m <= 12 && 1 <= d <= 31 && h <= 23 && mi <= 59 && s <= 60
  }

  /** The check is on the fields, not on the calendar; what passes it is scaled. */
  lemma StampParses(y: int, m: int, d: int, h: int, mi: int, s: int)
    requires 0 <= y < 10000 && TwoDigits(m) && TwoDigits(d) && TwoDigits(h) && TwoDigits(mi) && TwoDigits(s)
    ensures Parse(Stamp(y, m, d, h, mi, s)) ==
            if InFields(m, d, h, mi, s) then Scaled(DaysFromCivil(Date(y, m, d)) * DAY + h * 3600 + mi * 60 + s, 0)
            else Refused
  {
    hide DaysFromCivil, Fixed, Scaled;
    var text := Stamp(y, m, d, h, mi, s);
    FixedFour(text, 0, y);
    FixedTwo(text, 5, m);
    FixedTwo(text, 8, d);
    FixedTwo(text, 11, h);
    FixedTwo(text, 14, mi);
    FixedTwo(text, 17, s);
    assert Tail(text) == Some((0, 0));
  }

  /** Dates by year, then month, then day. */
  predicate Sooner(a: Date, b: Date) {
    a.year < b.year || (a.year == b.year && (a.month < b.month || (a.month == b.month && a.day < b.day)))
  }

  const FIRST_DAY: Date := Date(1677, 9, 21)
  const LAST_DAY: Date := Date(2262, 4, 11)

  /** From twelve minutes and 44 seconds into the first day to 23:47:16 and a fraction on the last. */
  predicate InRange(d: Date, secondOfDay: int, fraction: int) {
    && (Sooner(FIRST_DAY, d) || (d == FIRST_DAY && secondOfDay >= 764))
    && (Sooner(d, LAST_DAY) ||
        (d == LAST_DAY && secondOfDay <= 85_636 && (secondOfDay == 85_636 ==> fraction <= LAST_FRACTION)))
  }

  /** Day numbers order dates around the ends of the range, whichever of the 31 days a month is given. */
  lemma DaysAroundEnds(d: Date)
    requires 1 <= d.month <= 12 && 1 <= d.day <= 31
    ensures Sooner(d, FIRST_DAY) <==> DaysFromCivil(d) < -106_752
    ensures d == FIRST_DAY <==> DaysFromCivil(d) == -106_752
    ensures Sooner(LAST_DAY, d) <==> DaysFromCivil(d) > 106_751
    ensures d == LAST_DAY <==> DaysFromCivil(d) == 106_751
  {
    DaysAroundFirst(d);
    DaysAroundLast(d);
    hide DaysFromCivil, Sooner;
  }

  lemma DaysAroundFirst(d: Date)
    requires 1 <= d.month <= 12 && 1 <= d.day <= 31
    ensures Sooner(d, FIRST_DAY) <==> DaysFromCivil(d) < -106_752
    ensures d == FIRST_DAY <==> DaysFromCivil(d) == -106_752
  {
    var era, yoe := MarchYear(d) / 400, MarchYear(d) % 400;
    Exact.DivStep(MarchYear(d), 400);
    DaysByEra(d, era, yoe);
    hide DaysFromCivil;
    MonthsBound(d);
    if MarchYear(d) < 1677 {
      assert era <= 3 || (era == 4 && yoe <= 76);
    } else if MarchYear(d) > 1677 {
      assert era >= 5 || (era == 4 && yoe >= 78);
    } else {
      assert era == 4 && yoe == 77;
    }
  }

  lemma DaysAroundLast(d: Date)
    requires 1 <= d.month <= 12 && 1 <= d.day <= 31
    ensures Sooner(LAST_DAY, d) <==> DaysFromCivil(d) > 106_751
    ensures d == LAST_DAY <==> DaysFromCivil(d) == 106_751
  {
    var era, yoe := MarchYear(d) / 400, MarchYear(d) % 400;
    Exact.DivStep(MarchYear(d), 400);
    DaysByEra(d, era, yoe);
    hide DaysFromCivil;
    MonthsBound(d);
    if MarchYear(d) < 2262 {
      assert era <= 4 || (era == 5 && yoe <= 261);
    } else if MarchYear(d) > 2262 {
      assert era >= 6 || (era == 5 && yoe >= 263);
    } else {
      assert era == 5 && yoe == 262;
    }
  }

  lemma MonthsBound(d: Date)
    requires 1 <= d.month <= 12 && 1 <= d.day <= 31
    ensures 0 <= DayOfYear(d) <= 367
  {
  }

  /**
   * An accepted date and time overflows exactly when it lies outside the years 1677 to 2262, or in the part of
   * their first or last day beyond the 64-bit range.
   */
  lemma StampOverflowsIff(y: int, m: int, d: int, h: int, mi: int, s: int)
    requires 0 <= y < 10000 && TwoDigits(m) && TwoDigits(d) && TwoDigits(h) && TwoDigits(mi) && TwoDigits(s)
    ensures Parse(Stamp(y, m, d, h, mi, s)).Overflowed? <==>
            InFields(m, d, h, mi, s) && !InRange(Date(y, m, d), h * 3600 + mi * 60 + s, 0)
  {
    hide Parse, DaysFromCivil, Scaled;
    StampParses(y, m, d, h, mi, s);
    if InFields(m, d, h, mi, s) {
      DaysAroundEnds(Date(y, m, d));
      hide Sooner;
      SoonerIsTotal(Date(y, m, d));
      ScaledFits(DaysFromCivil(Date(y, m, d)) * DAY + h * 3600 + mi * 60 + s, 0);
    }
  }

  lemma SoonerIsTotal(d: Date)
    ensures Sooner(d, FIRST_DAY) || d == FIRST_DAY || Sooner(FIRST_DAY, d)
    ensures !(Sooner(d, FIRST_DAY) && Sooner(FIRST_DAY, d))
    ensures Sooner(d, LAST_DAY) || d == LAST_DAY || Sooner(LAST_DAY, d)
    ensures !(Sooner(d, LAST_DAY) && Sooner(LAST_DAY, d))
  {
  }

  /** The date and second of day in universal time. */
  function Universal(r: Reading): (Date, int) { (CivilFromDays(SecondsOf(r) / DAY), SecondsOf(r) % DAY) }

  /**
   * Any text, with any fraction and zone: it overflows exactly when it is accepted and its date and time, taken to
   * universal time, lie outside the 64-bit range.
   */
  lemma OverflowsIff(text: string)
    ensures Parse(text).Overflowed? <==>
            Read(text).Some? &&
            var r := Read(text).value;
            !InRange(Universal(r).0, Universal(r).1, r.fraction)
  {
    if Read(text).Some? {
      var r := Read(text).value;
      FractionFits(text);
      hide Read, Tail, DaysFromCivil, CivilFromDays, Scaled;
      var seconds, days := SecondsOf(r), SecondsOf(r) / DAY;
      Exact.DivStep(seconds, DAY);
      DayRoundTrip(days);
      hide SecondsOf;
      DaysAroundEnds(CivilFromDays(days));
      SoonerIsTotal(CivilFromDays(days));
      hide Sooner;
      ScaledFits(seconds, r.fraction);
    }
  }

  lemma FractionFits(text: string)
    requires Read(text).Some?
    ensures 0 <= Read(text).value.fraction < SECOND
  {
    FractionIsSmall(text, 20, 0, 100_000_000, 0);
    hide FractionFrom, Fixed, Zone;
  }

  lemma {:induction false} FractionIsSmall(text: string, cursor: nat, digits: nat, scale: int, nanos: int)
    requires 0 <= nanos < SECOND && scale >= 0 && nanos + scale * 10 <= SECOND
    ensures 0 <= FractionFrom(text, cursor, digits, scale, nanos).nanos < SECOND
    decreases |text| - cursor
  {
    if cursor < |text| && IsDigit(text[cursor]) {
      if digits < 9 {
        DigitScaled(DigitValue(text[cursor]), scale);
        FractionIsSmall(text, cursor + 1, digits + 1, scale / 10, nanos + DigitValue(text[cursor]) * scale);
      } else {
        FractionIsSmall(text, cursor + 1, digits + 1, scale, nanos);
      }
    }
  }

  lemma DigitScaled(v: int, scale: int)
    requires 0 <= v <= 9 && scale >= 0
    ensures 0 <= v * scale <= 9 * scale && scale / 10 * 10 <= scale
  {
  }

  /** The first of January 9999 is accepted and overflows. */
  lemma FarDatesOverflow()
    ensures Parse(Stamp(9999, 1, 1, 0, 0, 0)) == Overflowed
  {
    hide Parse;
    StampOverflowsIff(9999, 1, 1, 0, 0, 0);
  }

  /** Any day up to 31 is taken in any month. */
  lemma MidnightParses(y: int, m: int, d: int)
    requires 0 <= y < 10000 && TwoDigits(m) && TwoDigits(d)
    ensures Parse(Stamp(y, m, d, 0, 0, 0)) ==
            if !(1 <= m <= 12 && 1 <= d <= 31) then Refused
            else if Sooner(FIRST_DAY, Date(y, m, d)) && !Sooner(LAST_DAY, Date(y, m, d)) then
              Instant(DaysFromCivil(Date(y, m, d)) * DAY * SECOND)
            else Overflowed
  {
    hide Parse, DaysFromCivil;
    StampParses(y, m, d, 0, 0, 0);
    StampOverflowsIff(y, m, d, 0, 0, 0);
    SoonerIsTotal(Date(y, m, d));
  }

  /** A date is accepted although it is not in the calendar exactly when its day runs past its month's end. */
  lemma PastMonthEnds(y: int, m: int, d: int)
    requires 0 <= y < 10000 && TwoDigits(m) && TwoDigits(d)
    ensures !Parse(Stamp(y, m, d, 0, 0, 0)).Refused? && !ValidDate(Date(y, m, d)) <==>
            1 <= m <= 12 && DaysIn(y, m) < d <= 31
  {
    hide Parse, DaysFromCivil;
    StampParses(y, m, d, 0, 0, 0);
  }

  // ----- the cursor loops -----

  method ParseFixed(text: string, offset: nat, count: nat) returns (value: Option<int>)
    ensures value == Fixed(text, offset, count, 0)
  {
    var sum := 0;
    for index := 0 to count
      invariant Fixed(text, offset + index, count - index, sum) == Fixed(text, offset, count, 0)
    {
      if offset + index >= |text| || !IsDigit(text[offset + index]) {
        return None;
      }
      sum := sum * 10 + DigitValue(text[offset + index]);
    }
    value := Some(sum);
  }

  method ParseFraction(text: string, start: nat) returns (f: Fraction)
    ensures f == FractionFrom(text, start, 0, 100_000_000, 0)
  {
    var cursor, digits, scale, nanos := start, 0, 100_000_000, 0;
    while cursor < |text| && IsDigit(text[cursor])
      invariant FractionFrom(text, cursor, digits, scale, nanos) == FractionFrom(text, start, 0, 100_000_000, 0)
      decreases |text| - cursor
    {
      if digits < 9 {
        nanos := nanos + DigitValue(text[cursor]) * scale;
        scale := scale / 10;
      }
      digits := digits + 1;
      cursor := cursor + 1;
    }
    f := Fraction(cursor, digits, nanos);
  }
}
