/** Candle buckets: civil dates, and the start of the bucket a second falls into. */
module Klines {
  import opened Arithmetic

  // --- civil dates ---------------------------------------------------------------------------------------

  /** Division that truncates toward zero, as machine division does. */
  function TruncDiv(a: int, b: nat): int
    requires b > 0
  {
    if a >= 0 then a / b else -((-a) / b)
  }

  /** The era of a day (or year): machine division with the operand shifted below zero. */
  function Era(z: int, n: nat): int
    requires n > 0
  {
    TruncDiv(if z >= 0 then z else z - (n - 1), n)
  }

  /** Shifting a negative operand makes truncating division round down. */
  lemma EraIsFloor(z: int, n: nat)
    requires n > 0
    ensures Era(z, n) == z / n
  {
    if z < 0 {
      Euclid(z, n);
      var q, r := z / n, z % n;
      var a := -(z - (n - 1));
      MulMinus(n, 0, q);
      DivisionUnique(a, n, -q, n - 1 - r);
    }
  }

  datatype Date = Date(year: int, month: int, day: int)

  /** Year of the era from the day of the era. */
  function YearOfEra(doe: int): int {
    (doe - doe / 1460 + doe / 36524 - doe / 146_096) / 365
  }

  /** Days of the era before year `yoe`. */
  function DaysBefore(yoe: int): int {
    365 * yoe + yoe / 4 - yoe / 100
  }

  /** Days of the year (from March) before month `mp`. */
  function MonthOffset(mp: int): int {
    (153 * mp + 2) / 5
  }

  function CivilFromDays(days: int): Date {
    var z := days + 719_468;
    var era := Era(z, 146_097);
    var doe := z - era * 146_097;
    var yoe := YearOfEra(doe);
    var doy := doe - DaysBefore(yoe);
    var mp := (5 * doy + 2) / 153;
    var m := if mp < 10 then mp + 3 else mp - 9;
    var y := yoe + era * 400;
    Date(if m <= 2 then y + 1 else y, m, doy - MonthOffset(mp) + 1)
  }

  function DaysFromCivil(t: Date): int {
    var y := if t.month <= 2 then t.year - 1 else t.year;
    var era := Era(y, 400);
    var yoe := y - era * 400;
    var mp := if t.month > 2 then t.month - 3 else t.month + 9;
    era * 146_097 + DaysBefore(yoe) + MonthOffset(mp) + t.day - 1 - 719_468
  }

  // --- eras split into centuries, four-year cycles, years ------------------------------------------------------

  /** Day `d` of year `4g + h` of century `a` of an era. */
  datatype Place = Place(a: int, g: int, h: int, d: int)

  /** The 366th day exists in the fourth year of a cycle, except at a century's end, except at the era's end. */
  predicate Real(p: Place) {
    && 0 <= p.a < 4 && 0 <= p.g < 25 && 0 <= p.h < 4 && 0 <= p.d <= 365
    && (p.d == 365 ==> p.h == 3 && (p.g < 24 || p.a == 3))
  }

  function DayOf(p: Place): int {
    36524 * p.a + 1461 * p.g + 365 * p.h + p.d
  }

  function YearOf(p: Place): int {
    100 * p.a + 4 * p.g + p.h
  }

  lemma DayInEra(p: Place)
    requires Real(p)
    ensures 0 <= DayOf(p) < 146_097
  {}

  lemma DaysBeforeYear(p: Place)
    requires Real(p)
    ensures DaysBefore(YearOf(p)) == DayOf(p) - p.d
  {
    assert YearOf(p) / 4 == 25 * p.a + p.g;
    assert YearOf(p) / 100 == p.a;
  }

  lemma CyclesOf(p: Place)
    requires Real(p)
    ensures DayOf(p) / 1460 == 25 * p.a + p.g + if 24 * p.a + p.g + 365 * p.h + p.d >= 1460 then 1 else 0
  {}

  lemma CenturiesOf(p: Place)
    requires Real(p)
    ensures DayOf(p) / 36524 - DayOf(p) / 146_096 == p.a
  {}

  /** The closed formula finds the year of every day of the era. */
  lemma YearFound(p: Place)
    requires Real(p)
    ensures YearOfEra(DayOf(p)) == YearOf(p)
  {
    CyclesOf(p);
    CenturiesOf(p);
    var late := if 24 * p.a + p.g + 365 * p.h + p.d >= 1460 then 1 else 0;
    assert DayOf(p) - DayOf(p) / 1460 + DayOf(p) / 36524 - DayOf(p) / 146_096 == 365 * YearOf(p) + (p.d - late);
    DivisionUnique(365 * YearOf(p) + (p.d - late), 365, YearOf(p), p.d - late);
  }

  /** Every day of an era has a place. */
  lemma PlaceOf(doe: int) returns (p: Place)
    requires 0 <= doe < 146_097
    ensures Real(p) && DayOf(p) == doe
  {
    var a := if doe / 36524 > 3 then 3 else doe / 36524;
    var r := doe - 36524 * a;
    var g := r / 1461;
    var t := r - 1461 * g;
    var h := if t / 365 > 3 then 3 else t / 365;
    p := Place(a, g, h, t - 365 * h);
  }

  lemma MonthFound(doy: int)
    requires 0 <= doy <= 365
    ensures var mp := (5 * doy + 2) / 153; 0 <= mp <= 11 && MonthOffset(mp) <= doy < MonthOffset(mp) + 31
  {}

  lemma SplitEra(days: int) returns (era: int, p: Place)
    ensures Real(p) && days + 719_468 == era * 146_097 + DayOf(p) && Era(days + 719_468, 146_097) == era
    ensures 0 <= YearOf(p) < 400
  {
    var z := days + 719_468;
    EraIsFloor(z, 146_097);
    era := z / 146_097;
    p := PlaceOf(z - era * 146_097);
  }

  /** The date of a day, by its place in its era. */
  lemma CivilIs(days: int, era: int, p: Place)
    requires Real(p) && days + 719_468 == era * 146_097 + DayOf(p)
    ensures var mp := (5 * p.d + 2) / 153;
            var m := if mp < 10 then mp + 3 else mp - 9;
            var y := YearOf(p) + era * 400;
            CivilFromDays(days) == Date(if m <= 2 then y + 1 else y, m, p.d - MonthOffset(mp) + 1)
  {
    hide YearOfEra, DaysBefore, MonthOffset, YearOf, DayOf, Era;
    EraIsFloor(days + 719_468, 146_097);
    DayInEra(p);
    DivisionUnique(days + 719_468, 146_097, era, DayOf(p));
    YearFound(p);
    DaysBeforeYear(p);
  }

  lemma DaysIs(era: int, p: Place, month: int, day: int)
    requires Real(p) && 1 <= month <= 12
    ensures var y := YearOf(p) + era * 400;
            var mp := if month > 2 then month - 3 else month + 9;
            DaysFromCivil(Date(if month <= 2 then y + 1 else y, month, day)) ==
              era * 146_097 + DayOf(p) - p.d + MonthOffset(mp) + day - 1 - 719_468
  {
    hide DaysBefore, MonthOffset;
    var y := YearOf(p) + era * 400;
    EraIsFloor(y, 400);
    DivisionUnique(y, 400, era, YearOf(p));
    DaysBeforeYear(p);
  }

  /** Converting a day to its date and back is the identity, for every day. */
  lemma DateRoundTrip(days: int)
    ensures DaysFromCivil(CivilFromDays(days)) == days
    ensures var t := CivilFromDays(days); 1 <= t.month <= 12 && 1 <= t.day <= 31
  {
    hide CivilFromDays, DaysFromCivil, MonthOffset, YearOf, DayOf;
    var era, p := SplitEra(days);
    CivilIs(days, era, p);
    MonthFound(p.d);
    var t := CivilFromDays(days);
    DaysIs(era, p, t.month, t.day);
  }

  // --- from a date to its day and back -------------------------------------------------------------------------

  predicate Leap(year: int) {
    year % 4 == 0 && (year % 100 != 0 || year % 400 == 0)
  }

  function DaysIn(year: int, month: int): int {
    if month == 2 then (if Leap(year) then 29 else 28)
    else if month == 4 || month == 6 || month == 9 || month == 11 then 30
    else 31
  }

  /** A date of the Gregorian calendar. */
  predicate OnCalendar(t: Date) {
    1 <= t.month <= 12 && 1 <= t.day <= DaysIn(t.year, t.month)
  }

  /** The year of the era and the shifted month of a date. */
  function ShiftedYear(t: Date): int {
    if t.month <= 2 then t.year - 1 else t.year
  }

  function ShiftedMonth(t: Date): int {
    if t.month > 2 then t.month - 3 else t.month + 9
  }

  lemma YearPlace(yoe: int) returns (p: Place)
    requires 0 <= yoe < 400
    ensures p == Place(yoe / 100, yoe % 100 / 4, yoe % 4, 0) && Real(p) && YearOf(p) == yoe
  {
    p := Place(yoe / 100, yoe % 100 / 4, yoe % 4, 0);
  }

  lemma NextYear(a: int, g: int, h: int)
    requires 0 <= a < 4 && 0 <= g < 25 && 0 <= h < 4
    ensures var y := 100 * a + 4 * g + h + 1;
            && (y % 4 == 0 <==> h == 3)
            && (y % 100 == 0 <==> g == 24 && h == 3)
            && (y % 400 == 0 <==> a == 3 && g == 24 && h == 3)
  {}

  lemma ErasApart(y: int, era: int)
    ensures (y + era * 400) % 4 == y % 4 && (y + era * 400) % 100 == y % 100 && (y + era * 400) % 400 == y % 400
  {
    Euclid(y, 4);
    Euclid(y, 100);
    Euclid(y, 400);
    DivisionUnique(y + era * 400, 4, y / 4 + era * 100, y % 4);
    DivisionUnique(y + era * 400, 100, y / 100 + era * 4, y % 100);
    DivisionUnique(y + era * 400, 400, y / 400 + era, y % 400);
  }

  /** The last day of a leap year's shifted count is there exactly when February has 29 days. */
  lemma LeapPlace(yoe: int, era: int)
    requires 0 <= yoe < 400
    ensures Leap(yoe + era * 400 + 1) <==> yoe % 4 == 3 && (yoe % 100 / 4 < 24 || yoe / 100 == 3)
  {
    var a, g, h := yoe / 100, yoe % 100 / 4, yoe % 4;
    Splits(yoe);
    NextYear(a, g, h);
    ErasApart(yoe + 1, era);
  }

  lemma Splits(yoe: int)
    requires 0 <= yoe < 400
    ensures 0 <= yoe / 100 < 4 && 0 <= yoe % 100 / 4 < 25 && 0 <= yoe % 4 < 4
    ensures yoe == 100 * (yoe / 100) + 4 * (yoe % 100 / 4) + yoe % 4
  {}

  lemma MonthBack(mp: int, day: int, long: bool)
    requires 0 <= mp <= 11
    requires 1 <= day <= if mp == 11 then (if long then 29 else 28)
                         else if mp == 1 || mp == 3 || mp == 6 || mp == 8 then 30 else 31
    ensures var d := MonthOffset(mp) + day - 1;
            0 <= d <= 365 && (5 * d + 2) / 153 == mp && (d == 365 ==> mp == 11 && long)
  {}

  /** A calendar date converted to its day and back is itself. */
  lemma DayRoundTrip(t: Date)
    requires OnCalendar(t)
    ensures CivilFromDays(DaysFromCivil(t)) == t
  {
    hide CivilFromDays, DaysFromCivil, MonthOffset, YearOf, DayOf, Leap;
    var y, mp := ShiftedYear(t), ShiftedMonth(t);
    Euclid(y, 400);
    var era, yoe := y / 400, y % 400;
    var p := YearPlace(yoe);
    LeapPlace(yoe, era);
    MonthBack(mp, t.day, Leap(y + 1));
    var d := MonthOffset(mp) + t.day - 1;
    var q := p.(d := d);
    SamePlace(p, d);
    DaysIs(era, p, t.month, t.day);
    CivilIs(DaysFromCivil(t), era, q);
  }

  lemma SamePlace(p: Place, d: int)
    ensures YearOf(p.(d := d)) == YearOf(p) && DayOf(p.(d := d)) == DayOf(p) - p.d + d
  {}

  lemma OffsetGap(doy: int)
    requires 0 <= doy <= 365
    ensures var mp := (5 * doy + 2) / 153;
            var day := doy - MonthOffset(mp) + 1;
            && 0 <= mp <= 11 && 1 <= day
            && day <= if mp == 11 then (if doy == 365 then 29 else 28)
                      else if mp == 1 || mp == 3 || mp == 6 || mp == 8 then 30 else 31
  {}

  /** What a day converts to is on the calendar, so the two conversions are inverse on days and calendar dates. */
  lemma DateIsOnCalendar(days: int)
    ensures OnCalendar(CivilFromDays(days))
  {
    hide CivilFromDays, MonthOffset, DayOf, Leap;
    var era, p := SplitEra(days);
    CivilIs(days, era, p);
    OffsetGap(p.d);
    LeapOf(p, era);
  }

  lemma LeapOf(p: Place, era: int)
    requires Real(p)
    ensures p.d == 365 ==> Leap(YearOf(p) + era * 400 + 1)
  {
    hide Leap;
    LeapPlace(YearOf(p), era);
  }

  // --- months -----------------------------------------------------------------------------------------------

  function MonthStart(days: int): int {
    var t := CivilFromDays(days);
    DaysFromCivil(t.(day := 1))
  }

  /** The start of a month is the day less its day of the month. */
  lemma MonthStartIs(days: int)
    ensures MonthStart(days) == days - (CivilFromDays(days).day - 1) <= days
  {
    hide CivilFromDays, DaysFromCivil, MonthOffset, YearOf, DayOf;
    DateRoundTrip(days);
    var era, p := SplitEra(days);
    CivilIs(days, era, p);
    MonthFound(p.d);
    var t := CivilFromDays(days);
    DaysIs(era, p, t.month, t.day);
    DaysIs(era, p, t.month, 1);
  }

  lemma MonthKept(doy: int, back: nat)
    requires 0 <= doy <= 365 && back <= doy - MonthOffset((5 * doy + 2) / 153)
    ensures (5 * (doy - back) + 2) / 153 == (5 * doy + 2) / 153
  {}

  /** Every day from the start of a month up to a day of it is in that month. */
  lemma SameMonth(days: int, earlier: int)
    requires MonthStart(days) <= earlier <= days
    ensures MonthStart(earlier) == MonthStart(days)
  {
    hide CivilFromDays, DaysFromCivil, MonthStart, YearOf;
    MonthStartIs(days);
    MonthStartIs(earlier);
    var era, p := SplitEra(days);
    CivilIs(days, era, p);
    MonthFound(p.d);
    var back := days - earlier;
    MonthKept(p.d, back);
    CivilIs(earlier, era, p.(d := p.d - back));
  }

  /** Months follow each other: a later day never starts in an earlier month. */
  lemma MonthsAreMonotone(a: int, b: int)
    requires a <= b
    ensures MonthStart(a) <= MonthStart(b)
  {
    hide MonthStart;
    MonthStartIs(a);
    if MonthStart(b) <= a {
      SameMonth(b, a);
    }
  }

  lemma EpochIsFirst()
    ensures MonthStart(0) == 0
  {
    var p := Place(3, 17, 1, 306);
    CivilIs(0, 4, p);
    MonthStartIs(0);
  }

  // --- buckets ------------------------------------------------------------------------------------------------

  datatype Interval = Fixed(seconds: nat) | Week | Month

  const DAY: nat := 86_400

  /** The Monday of a day's week; the week of the epoch is cut off at the epoch. */
  function WeekStart(days: nat): nat {
    var dow := (days + 3) % 7;
    if dow <= days then days - dow else 0
  }

  lemma WeekStartIs(days: nat)
    ensures WeekStart(days) <= days && WeekStart(WeekStart(days)) == WeekStart(days)
  {}

  /** Behind the epoch week a bucket starts on a Monday, at most six days back; the days before are one bucket. */
  lemma WeekStartsOnMonday(days: nat)
    ensures days >= 4 ==> (WeekStart(days) + 3) % 7 == 0 && days - 6 <= WeekStart(days) <= days
    ensures days < 4 ==> WeekStart(days) == 0
  {}

  lemma WeeksAreMonotone(a: nat, b: nat)
    requires a <= b
    ensures WeekStart(a) <= WeekStart(b)
  {}

  lemma WholeDays(d: nat)
    ensures d * DAY / DAY == d
  {}

  function BucketStart(i: Interval, ts: nat): int
    requires i.Fixed? ==> i.seconds > 0
  {
    match i
    case Fixed(n) => ts - ts % n
    case Week => WeekStart(ts / DAY) * DAY
    case Month => MonthStart(ts / DAY) * DAY
  }

  /** A bucket starts at or before every second in it, never before the epoch. */
  lemma BucketIsBelow(i: Interval, ts: nat)
    requires i.Fixed? ==> i.seconds > 0
    ensures 0 <= BucketStart(i, ts) <= ts
  {
    hide MonthStart, WeekStart;
    match i
    case Fixed(n) =>
      Euclid(ts, n);
      MulMono(n, 0, ts / n);
    case Week =>
      WeekStartIs(ts / DAY);
    case Month =>
      MonthStartIs(ts / DAY);
      EpochIsFirst();
      MonthsAreMonotone(0, ts / DAY);
  }

  /** The start of a bucket is its own bucket's start. */
  lemma BucketIsIdempotent(i: Interval, ts: nat)
    requires i.Fixed? ==> i.seconds > 0
    ensures BucketStart(i, ts) >= 0 && BucketStart(i, BucketStart(i, ts)) == BucketStart(i, ts)
  {
    hide MonthStart, WeekStart;
    BucketIsBelow(i, ts);
    match i
    case Fixed(n) =>
      FixedIsIdempotent(n, ts);
    case Week =>
      WeekStartIs(ts / DAY);
      WholeDays(WeekStart(ts / DAY));
    case Month =>
      MonthStartIs(ts / DAY);
      WholeDays(MonthStart(ts / DAY));
      SameMonth(ts / DAY, MonthStart(ts / DAY));
  }

  lemma FixedIsIdempotent(n: nat, ts: nat)
    requires n > 0
    ensures (ts - ts % n) % n == 0
  {
    Euclid(ts, n);
    DivisionUnique(ts - ts % n, n, ts / n, 0);
  }

  lemma FixedIsMonotone(n: nat, a: nat, b: nat)
    requires n > 0 && a <= b
    ensures a - a % n <= b - b % n
  {
    Euclid(a, n);
    Euclid(b, n);
    if a / n > b / n {
      MulMinus(n, a / n, b / n);
      MulAtLeast(n, a / n - b / n);
    } else {
      MulMono(n, a / n, b / n);
    }
  }

  /** Later seconds fall into the same or later buckets. */
  lemma BucketsAreMonotone(i: Interval, a: nat, b: nat)
    requires (i.Fixed? ==> i.seconds > 0) && a <= b
    ensures BucketStart(i, a) <= BucketStart(i, b)
  {
    hide MonthStart, WeekStart;
    match i
    case Fixed(n) =>
      FixedIsMonotone(n, a, b);
    case Week =>
      WeeksAreMonotone(a / DAY, b / DAY);
    case Month =>
      MonthsAreMonotone(a / DAY, b / DAY);
  }
}
