/** The civil calendar and instants in text: sections 5.6 and 5.7 of RFC 3339. */
module Calendar {
  import opened Rollouts
  import Exact

  datatype Date = Date(year: int, month: int, day: int)

  /** Division as the machine does it: toward zero. */
  function Quotient(a: int, b: int): int
    requires b > 0
  {
    if a >= 0 then a / b else -((-a) / b)
  }

  function DaysFromCivil(date: Date): int {
    var year := date.year - (if date.month <= 2 then 1 else 0);
    var era := Quotient(if year >= 0 then year else year - 399, 400);
    var yearOfEra := year - era * 400;
    var monthPrime := if date.month > 2 then date.month - 3 else date.month + 9;
    var dayOfYear := (153 * monthPrime + 2) / 5 + date.day - 1;
    era * 146097 + (yearOfEra * 365 + yearOfEra / 4 - yearOfEra / 100 + dayOfYear) - 719468
  }

  function CivilFromDays(days: int): Date {
    var shifted := days + 719468;
    var era := Quotient(if shifted >= 0 then shifted else shifted - 146096, 146097);
    var dayOfEra := shifted - era * 146097;
    var yearOfEra := YearOf(dayOfEra);
    DateIn(yearOfEra + era * 400, dayOfEra - (365 * yearOfEra + yearOfEra / 4 - yearOfEra / 100))
  }

  function YearOf(dayOfEra: int): int {
    (dayOfEra - dayOfEra / 1460 + dayOfEra / 36524 - dayOfEra / 146096) / 365
  }

  function MonthStart(monthPrime: int): int { (153 * monthPrime + 2) / 5 }

  /** The date of a day of a year that is counted from March. */
  function DateIn(year: int, dayOfYear: int): Date {
    var mp := (5 * dayOfYear + 2) / 153;
    var month := if mp < 10 then mp + 3 else mp - 9;
    Date(year + (if month <= 2 then 1 else 0), month, dayOfYear - MonthStart(mp) + 1)
  }

  // ----- the calendar itself -----

  predicate Leap(year: int) { year % 4 == 0 && (year % 100 != 0 || year % 400 == 0) }

  function DaysIn(year: int, month: int): int {
    if month == 2 then (if Leap(year) then 29 else 28)
    else if month == 4 || month == 6 || month == 9 || month == 11 then 30
    else 31
  }

  predicate ValidDate(d: Date) { 1 <= d.month <= 12 && 1 <= d.day <= DaysIn(d.year, d.month) }

  function NextDay(d: Date): Date {
    if d.day < DaysIn(d.year, d.month) then Date(d.year, d.month, d.day + 1)
    else if d.month < 12 then Date(d.year, d.month + 1, 1)
    else Date(d.year + 1, 1, 1)
  }

  // ----- the era, the year of the era and the day of the year -----

  /** Rounding down by the adjusted truncating division. */
  lemma FloorsToEra(x: int, n: int)
    requires n > 0
    ensures Quotient(if x >= 0 then x else x - (n - 1), n) == x / n
    ensures x - (x / n) * n == x % n && 0 <= x % n < n
  {
    Exact.DivStep(x, n);
    if x < 0 {
      Exact.DivStep(n - 1 - x, n);
      var q := (n - 1 - x) / n;
      Exact.Distribute(-q, 0, n, 0);
      Exact.DivUnique(x, n, -q);
    }
  }

  /** Years count from March, so a leap day is the last day of its year. */
  function YearLength(yearOfEra: int): int { if Leap(yearOfEra + 1) then 366 else 365 }

  function DayOfEra(yearOfEra: int, dayOfYear: int): int {
    yearOfEra * 365 + yearOfEra / 4 - yearOfEra / 100 + dayOfYear
  }

  lemma Divides(x: int, d: int, q: int, r: int)
    requires d > 0 && x == q * d + r && 0 <= r < d
    ensures x / d == q && x % d == r
  {
    Exact.DivUnique(x, d, q);
    Exact.DivStep(x, d);
  }

  /** The year is found again from century, four-year group, year and day. */
  lemma YearOfSplit(c: int, q: int, r: int, doy: int)
    requires 0 <= c < 4 && 0 <= q < 25 && 0 <= r < 4
    requires 0 <= doy < 365 || (doy == 365 && r == 3 && (q < 24 || c == 3))
    ensures YearOf(36524 * c + 1461 * q + 365 * r + doy) == 100 * c + 4 * q + r
  {
    var x := 36524 * c + 1461 * q + 365 * r + doy;
    var last := c == 3 && q == 24 && r == 3 && doy == 365;
    Divides(x, 36524, if last then 4 else c, if last then 0 else 1461 * q + 365 * r + doy);
    Divides(x, 146096, if last then 1 else 0, if last then 0 else x);
    var rest := 24 * c + q + 365 * r + doy;
    var over := if rest >= 1460 then 1 else 0;
    Divides(x, 1460, 25 * c + q + over, rest - 1460 * over);
    Divides(x - x / 1460 + x / 36524 - x / 146096, 365, 100 * c + 4 * q + r, doy - over);
  }

  lemma LeapSplit(c: int, q: int, r: int)
    requires 0 <= c < 4 && 0 <= q < 25 && 0 <= r < 4
    ensures Leap(100 * c + 4 * q + r + 1) <==> r == 3 && (q < 24 || c == 3)
    ensures (100 * c + 4 * q + r) / 4 == 25 * c + q && (100 * c + 4 * q + r) / 100 == c
  {
    var y := 100 * c + 4 * q + r + 1;
    Divides(100 * c + 4 * q + r, 4, 25 * c + q, r);
    Divides(100 * c + 4 * q + r, 100, c, 4 * q + r);
    if r == 3 {
      Divides(y, 4, 25 * c + q + 1, 0);
      if q == 24 {
        Divides(y, 100, c + 1, 0);
        if c == 3 { Divides(y, 400, 1, 0); } else { Divides(y, 400, 0, y); }
      } else {
        Divides(y, 100, c, 4 * q + 4);
      }
    } else {
      Divides(y, 4, 25 * c + q, r + 1);
    }
  }

  lemma YearFound(yearOfEra: int, dayOfYear: int)
    requires 0 <= yearOfEra < 400 && 0 <= dayOfYear < YearLength(yearOfEra)
    ensures YearOf(DayOfEra(yearOfEra, dayOfYear)) == yearOfEra
    ensures 0 <= DayOfEra(yearOfEra, dayOfYear) < 146097
  {
    var c, q, r := yearOfEra / 100, yearOfEra % 100 / 4, yearOfEra % 4;
    assert yearOfEra == 100 * c + 4 * q + r;
    LeapSplit(c, q, r);
    YearOfSplit(c, q, r, dayOfYear);
  }

  /** Every day of the era belongs to exactly one year of it. */
  lemma DayFound(dayOfEra: int)
    requires 0 <= dayOfEra < 146097
    ensures var y := YearOf(dayOfEra);
            var doy := dayOfEra - (365 * y + y / 4 - y / 100);
            0 <= y < 400 && 0 <= doy < YearLength(y) && DayOfEra(y, doy) == dayOfEra
  {
    var c := if dayOfEra == 146096 then 3 else dayOfEra / 36524;
    var d1 := dayOfEra - 36524 * c;
    var q := if d1 == 36524 then 24 else d1 / 1461;
    var d2 := d1 - 1461 * q;
    var r := if d2 == 1460 then 3 else d2 / 365;
    var doy := d2 - 365 * r;
    assert 0 <= c < 4 && 0 <= d1 <= 36524 && (d1 == 36524 ==> c == 3);
    assert 0 <= q < 25 && 0 <= d2 <= 1460;
    assert 0 <= r < 4 && 0 <= doy <= 365;
    LeapSplit(c, q, r);
    YearOfSplit(c, q, r, doy);
  }

  // ----- the month and the day of the month -----

  /** Months counted from March start where the formula says, and the last one ends with the year. */
  lemma MonthsTile(year: int, mp: int)
    requires 0 <= mp < 12
    ensures var month := if mp < 10 then mp + 3 else mp - 9;
            var calendarYear := if mp < 10 then year else year + 1;
            MonthStart(mp) + DaysIn(calendarYear, month) ==
            if mp == 11 then (if Leap(year + 1) then 366 else 365) else MonthStart(mp + 1)
  {
  }

  lemma MonthStartBounds(mp: int)
    requires 0 <= mp <= 12
    ensures 153 * mp - 2 <= 5 * MonthStart(mp) <= 153 * mp + 2
  {
    Exact.DivStep(153 * mp + 2, 5);
  }

  lemma MonthFound(mp: int, offset: int)
    requires 0 <= mp < 12 && 0 <= offset && MonthStart(mp) + offset < MonthStart(mp + 1)
    ensures (5 * (MonthStart(mp) + offset) + 2) / 153 == mp
  {
    MonthStartBounds(mp);
    MonthStartBounds(mp + 1);
    Divides(5 * (MonthStart(mp) + offset) + 2, 153, mp, 5 * (MonthStart(mp) + offset) + 2 - 153 * mp);
  }

  /** The month of a day of the year, and that the day lies inside it. */
  lemma DayInMonth(dayOfYear: int)
    requires 0 <= dayOfYear < 366
    ensures var mp := (5 * dayOfYear + 2) / 153;
            0 <= mp < 12 && MonthStart(mp) <= dayOfYear && (mp < 11 ==> dayOfYear < MonthStart(mp + 1))
  {
  }

  // ----- inverses -----

  lemma SameRemainder(year: int, era: int, k: int, m: int)
    requires k > 0 && 400 == m * k
    ensures (year + era * 400) % k == year % k
  {
    Exact.DivStep(year, k);
    Exact.Distribute(year / k, era * m, k, 0);
    assert (era * m) * k == era * (m * k);
    Divides(year + era * 400, k, year / k + era * m, year % k);
  }

  /** Leap years repeat every four hundred years. */
  lemma LeapRepeats(year: int, era: int)
    ensures Leap(year + era * 400) <==> Leap(year)
  {
    SameRemainder(year, era, 4, 100);
    SameRemainder(year, era, 100, 4);
    SameRemainder(year, era, 400, 1);
  }

  /** A date counted from March: the year it belongs to, and its month after March. */
  function MarchYear(d: Date): int { d.year - (if d.month <= 2 then 1 else 0) }

  function MonthPrime(d: Date): int { if d.month > 2 then d.month - 3 else d.month + 9 }

  function DayOfYear(d: Date): int { MonthStart(MonthPrime(d)) + d.day - 1 }

  lemma DaysByEra(d: Date, era: int, yoe: int)
    requires 0 <= yoe < 400 && MarchYear(d) == yoe + era * 400
    ensures DaysFromCivil(d) == era * 146097 + DayOfEra(yoe, DayOfYear(d)) - 719468
  {
    FloorsToEra(MarchYear(d), 400);
    Divides(MarchYear(d), 400, era, yoe);
  }

  lemma CivilByEra(era: int, doe: int)
    requires 0 <= doe < 146097
    ensures var y := YearOf(doe);
            CivilFromDays(era * 146097 + doe - 719468) ==
            DateIn(y + era * 400, doe - (365 * y + y / 4 - y / 100))
  {
    hide DateIn, YearOf;
    FloorsToEra(era * 146097 + doe, 146097);
    Divides(era * 146097 + doe, 146097, era, doe);
  }

  /** Inside one year, dates and days of the year are inverse. */
  lemma DateInYear(d: Date)
    requires ValidDate(d)
    ensures DateIn(MarchYear(d), DayOfYear(d)) == d
    ensures 0 <= DayOfYear(d) < if Leap(MarchYear(d) + 1) then 366 else 365
  {
    var mp := MonthPrime(d);
    MonthsTile(MarchYear(d), mp);
    MonthFound(mp, d.day - 1);
  }

  lemma DayInYear(year: int, doy: int)
    requires 0 <= doy < if Leap(year + 1) then 366 else 365
    ensures var d := DateIn(year, doy); ValidDate(d) && MarchYear(d) == year && DayOfYear(d) == doy
  {
    DayInMonth(doy);
    MonthsTile(year, (5 * doy + 2) / 153);
  }

  /** Every valid date is found again from its day number. */
  lemma DateRoundTrip(d: Date)
    requires ValidDate(d)
    ensures CivilFromDays(DaysFromCivil(d)) == d
  {
    hide DaysFromCivil, CivilFromDays, DateIn, YearOf, DayOfYear, MarchYear;
    var era, yoe := MarchYear(d) / 400, MarchYear(d) % 400;
    Exact.DivStep(MarchYear(d), 400);
    DateInYear(d);
    LeapRepeats(yoe + 1, era);
    assert yoe + 1 + era * 400 == MarchYear(d) + 1;
    DaysByEra(d, era, yoe);
    YearFound(yoe, DayOfYear(d));
    CivilByEra(era, DayOfEra(yoe, DayOfYear(d)));
  }

  /** Every day number is found again from its date, and that date exists in the calendar. */
  lemma DayRoundTrip(days: int)
    ensures ValidDate(CivilFromDays(days))
    ensures DaysFromCivil(CivilFromDays(days)) == days
  {
    hide DaysFromCivil, CivilFromDays, DateIn, YearOf, DayOfYear, MarchYear, ValidDate;
    var era, doe := (days + 719468) / 146097, (days + 719468) % 146097;
    Exact.DivStep(days + 719468, 146097);
    CivilByEra(era, doe);
    DayFound(doe);
    var yoe := YearOf(doe);
    var doy := doe - (365 * yoe + yoe / 4 - yoe / 100);
    LeapRepeats(yoe + 1, era);
    assert yoe + 1 + era * 400 == yoe + era * 400 + 1;
    DayInYear(yoe + era * 400, doy);
    DaysByEra(DateIn(yoe + era * 400, doy), era, yoe);
  }

  /**
   * The day number counts days: the epoch is day zero and the next day of the calendar is the next number.
   * Together these fix the function on every date.
   */
  lemma DaysCount(d: Date)
    requires ValidDate(d)
    ensures ValidDate(NextDay(d)) && DaysFromCivil(NextDay(d)) == DaysFromCivil(d) + 1
    ensures DaysFromCivil(Date(1970, 1, 1)) == 0
  {
    EpochIsZero();
    hide DaysFromCivil;
    if d.month == 2 && d.day == DaysIn(d.year, 2) {
      NextMarchYear(d);
    } else {
      NextSameYear(d);
    }
  }

  lemma EpochIsZero()
    ensures DaysFromCivil(Date(1970, 1, 1)) == 0
  {
  }

  lemma NextSameYear(d: Date)
    requires ValidDate(d) && !(d.month == 2 && d.day == DaysIn(d.year, 2))
    ensures ValidDate(NextDay(d)) && DaysFromCivil(NextDay(d)) == DaysFromCivil(d) + 1
  {
    hide DaysFromCivil, MonthStart;
    var era, yoe := MarchYear(d) / 400, MarchYear(d) % 400;
    Exact.DivStep(MarchYear(d), 400);
    NextInYear(d);
    DaysByEra(d, era, yoe);
    DaysByEra(NextDay(d), era, yoe);
    hide MarchYear, DayOfYear;
  }

  lemma NextMarchYear(d: Date)
    requires ValidDate(d) && d.month == 2 && d.day == DaysIn(d.year, 2)
    ensures ValidDate(NextDay(d)) && DaysFromCivil(NextDay(d)) == DaysFromCivil(d) + 1
  {
    hide DaysFromCivil, MonthStart;
    var era, yoe := MarchYear(d) / 400, MarchYear(d) % 400;
    Exact.DivStep(MarchYear(d), 400);
    NextInYear(d);
    DaysByEra(d, era, yoe);
    NewYear(era, yoe, NextDay(d));
    LeapRepeats(yoe + 1, era);
    assert yoe + 1 + era * 400 == MarchYear(d) + 1;
    hide Leap, DayOfYear;
  }

  /** The next day is the next day of the year, except after the last of February. */
  lemma NextInYear(d: Date)
    requires ValidDate(d)
    ensures if d.month == 2 && d.day == DaysIn(d.year, 2)
            then DayOfYear(d) + 1 == (if Leap(MarchYear(d) + 1) then 366 else 365)
            else MarchYear(NextDay(d)) == MarchYear(d) && DayOfYear(NextDay(d)) == DayOfYear(d) + 1
  {
    hide MonthStart;
    MonthsTile(MarchYear(d), MonthPrime(d));
  }

  /** The first of March is the first day of its year, right after the last day of the year before. */
  lemma NewYear(era: int, yoe: int, next: Date)
    requires 0 <= yoe < 400 && next == Date(yoe + era * 400 + 1, 3, 1)
    ensures DaysFromCivil(next) == era * 146097 + DayOfEra(yoe, YearLength(yoe)) - 719468
  {
    hide DaysFromCivil;
    if yoe == 399 {
      DaysByEra(next, era + 1, 0);
      assert Leap(400);
    } else {
      DaysByEra(next, era, yoe + 1);
      NextYearDays(yoe);
    }
  }

  lemma NextYearDays(yoe: int)
    requires 0 <= yoe < 399
    ensures DayOfEra(yoe + 1, 0) == DayOfEra(yoe, YearLength(yoe))
  {
    assert (yoe + 1) / 4 == yoe / 4 + (if (yoe + 1) % 4 == 0 then 1 else 0);
    assert (yoe + 1) / 100 == yoe / 100 + (if (yoe + 1) % 100 == 0 then 1 else 0);
    assert (yoe + 1) % 400 != 0;
  }
}
