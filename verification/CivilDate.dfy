/** Day numbers to dates of the proleptic Gregorian calendar (section 3.2.1 of ISO 8601:2004). */
module CivilDate {

  newtype int64 = x: int | -0x8000_0000_0000_0000 <= x < 0x8000_0000_0000_0000
  newtype uint64 = x: int | 0 <= x < 0x1_0000_0000_0000_0000
  newtype uint32 = x: int | 0 <= x < 0x1_0000_0000

  // ---------------------------------------------------------------------------
  // The calendar
  // ---------------------------------------------------------------------------

  datatype Date = Date(year: int, month: int, day: int)

  predicate IsLeap(year: int)
  {
    year % 4 == 0 && (year % 100 != 0 || year % 400 == 0)
  }

  function DaysInMonth(year: int, month: int): int
  {
    if month == 2 then (if IsLeap(year) then 29 else 28)
    else if month == 4 || month == 6 || month == 9 || month == 11 then 30
    else 31
  }

  predicate Valid(date: Date)
  {
    1 <= date.month <= 12 && 1 <= date.day <= DaysInMonth(date.year, date.month)
  }

  function NextDay(date: Date): Date
  {
    if date.day < DaysInMonth(date.year, date.month) then date.(day := date.day + 1)
    else if date.month < 12 then Date(date.year, date.month + 1, 1)
    else Date(date.year + 1, 1, 1)
  }

  const EPOCH := Date(1970, 1, 1)

  /** Days from the first of January of year 0 to that of `year`, counted by leap years. */
  function DaysBeforeYear(year: int): int
  {
    365 * year + (year + 3) / 4 - (year + 99) / 100 + (year + 399) / 400
  }

  function DaysBeforeMonth(year: int, month: int): int
  {
    if month <= 1 then 0 else DaysBeforeMonth(year, month - 1) + DaysInMonth(year, month - 1)
  }

  /** The day number of a date, counted from the epoch. */
  function DayNumber(date: Date): int
  {
    DaysBeforeYear(date.year) + DaysBeforeMonth(date.year, date.month) + date.day - 1 - DaysBeforeYear(1970)
  }

  lemma By4(x: int, q: int, r: int)
    requires x == 4 * q + r && 0 <= r < 4
    ensures x / 4 == q && x % 4 == r
  {
  }

  lemma By100(x: int, q: int, r: int)
    requires x == 100 * q + r && 0 <= r < 100
    ensures x / 100 == q && x % 100 == r
  {
  }

  lemma By400(x: int, q: int, r: int)
    requires x == 400 * q + r && 0 <= r < 400
    ensures x / 400 == q && x % 400 == r
  {
  }

  lemma Next4(x: int)
    ensures (x + 4) / 4 == (x + 3) / 4 + if x % 4 == 0 then 1 else 0
  {
    var q := x / 4;
    By4(x + 4, q + 1, x % 4);
    if x % 4 == 0 {
      By4(x + 3, q, 3);
    } else {
      By4(x + 3, q + 1, x % 4 - 1);
    }
  }

  lemma Next100(x: int)
    ensures (x + 100) / 100 == (x + 99) / 100 + if x % 100 == 0 then 1 else 0
  {
    var q := x / 100;
    By100(x + 100, q + 1, x % 100);
    if x % 100 == 0 {
      By100(x + 99, q, 99);
    } else {
      By100(x + 99, q + 1, x % 100 - 1);
    }
  }

  lemma Next400(x: int)
    ensures (x + 400) / 400 == (x + 399) / 400 + if x % 400 == 0 then 1 else 0
  {
    var q := x / 400;
    By400(x + 400, q + 1, x % 400);
    if x % 400 == 0 {
      By400(x + 399, q, 399);
    } else {
      By400(x + 399, q + 1, x % 400 - 1);
    }
  }

  lemma Divisors(year: int)
    ensures year % 400 == 0 ==> year % 100 == 0
    ensures year % 100 == 0 ==> year % 4 == 0
  {
    if year % 400 == 0 {
      By100(year, 4 * (year / 400), 0);
    }
    if year % 100 == 0 {
      By4(year, 25 * (year / 100), 0);
    }
  }

  lemma YearLength(year: int)
    ensures DaysBeforeYear(year + 1) == DaysBeforeYear(year) + if IsLeap(year) then 366 else 365
  {
    Divisors(year);
    Next4(year);
    Next100(year);
    Next400(year);
  }

  lemma MonthTable(year: int)
    ensures var l := if IsLeap(year) then 1 else 0;
            && DaysBeforeMonth(year, 1) == 0 && DaysBeforeMonth(year, 2) == 31 && DaysBeforeMonth(year, 3) == 59 + l
            && DaysBeforeMonth(year, 4) == 90 + l && DaysBeforeMonth(year, 5) == 120 + l
            && DaysBeforeMonth(year, 6) == 151 + l
            && DaysBeforeMonth(year, 7) == 181 + l && DaysBeforeMonth(year, 8) == 212 + l
            && DaysBeforeMonth(year, 9) == 243 + l
            && DaysBeforeMonth(year, 10) == 273 + l && DaysBeforeMonth(year, 11) == 304 + l
            && DaysBeforeMonth(year, 12) == 334 + l
  {
    assert DaysBeforeMonth(year, 4) == DaysBeforeMonth(year, 3) + 31;
    assert DaysBeforeMonth(year, 7) == DaysBeforeMonth(year, 6) + 30;
    assert DaysBeforeMonth(year, 10) == DaysBeforeMonth(year, 9) + 30;
  }

  lemma EpochIsDayZero()
    ensures Valid(EPOCH) && DayNumber(EPOCH) == 0
  {
  }

  /** `DayNumber` counts days: the next day's number is one more. */
  lemma DayNumberCounts(date: Date)
    requires Valid(date)
    ensures Valid(NextDay(date)) && DayNumber(NextDay(date)) == DayNumber(date) + 1
  {
    YearLength(date.year);
    MonthTable(date.year);
    hide IsLeap, DaysBeforeYear;
  }

  // ---------------------------------------------------------------------------
  // The conversion
  // ---------------------------------------------------------------------------

  /** Division as the machine does it, towards zero. */
  function TruncDiv(a: int, b: int): int
    requires b > 0
  {
    if a >= 0 then a / b else -((-a) / b)
  }

  /** The 400-year era of a day counted from the first of March of year 0. */
  function Era(z: int64): int64
    requires z as int >= -0x8000_0000_0000_0000 + 146096
  {
    TruncDiv((if z >= 0 then z else z - 146096) as int, 146097) as int64
  }

  /** Subtracting first makes the truncating division round down. */
  lemma EraIsFloor(z: int64)
    requires z as int >= -0x8000_0000_0000_0000 + 146096
    ensures Era(z) as int == z as int / 146097
    ensures 0 <= z as int - Era(z) as int * 146097 <= 146096
  {
  }

  /** Days before year `yoe` of a 400-year era whose years start in March. */
  function EraDays(yoe: int): int
  {
    365 * yoe + yoe / 4 - yoe / 100 + yoe / 400
  }

  function YearOfEra(doe: uint64): uint64
    requires doe <= 146096
  {
    (doe - doe / 1460 + doe / 36524 - doe / 146096) / 365
  }

  /** A day of the era as centuries, four-year groups, years and days. */
  lemma SplitDay(doe: int) returns (c: int, q: int, t: int, u: int)
    requires 0 <= doe <= 146096
    ensures 0 <= c <= 3 && 0 <= q <= 24 && 0 <= t <= 3 && 0 <= u <= 365
    ensures doe == 36524 * c + 1461 * q + 365 * t + u
    ensures u == 365 ==> t == 3
    ensures q == 24 && u == 365 ==> c == 3
  {
    c := if doe / 36524 == 4 then 3 else doe / 36524;
    var r := doe - 36524 * c;
    q := r / 1461;
    var s := r - 1461 * q;
    t := if s / 365 == 4 then 3 else s / 365;
    u := s - 365 * t;
  }

  lemma EraDaysOf(c: int, q: int, t: int)
    requires 0 <= c <= 3 && 0 <= q <= 24 && 0 <= t <= 3
    ensures EraDays(100 * c + 4 * q + t) == 36524 * c + 1461 * q + 365 * t
  {
    assert (100 * c + 4 * q + t) / 4 == 25 * c + q;
    assert (100 * c + 4 * q + t) / 100 == c;
  }

  /** The closed formula finds the year whose days contain `doe`. */
  lemma YearOfEraIsRight(doe: uint64)
    requires doe <= 146096
    ensures var yoe := YearOfEra(doe) as int; 0 <= yoe <= 399 && EraDays(yoe) <= doe as int < EraDays(yoe + 1)
  {
    var c, q, t, u := SplitDay(doe as int);
    var yoe := 100 * c + 4 * q + t;
    CenturyTerms(doe as int, c, q, t, u);
    assert YearOfEra(doe) as int == yoe;
    EraDaysOf(c, q, t);
    if t < 3 {
      EraDaysOf(c, q, t + 1);
    } else if q < 24 {
      EraDaysOf(c, q + 1, 0);
    } else if c < 3 {
      EraDaysOf(c + 1, 0, 0);
    } else {
      assert EraDays(400) == 146097;
    }
  }

  lemma CenturyTerms(doe: int, c: int, q: int, t: int, u: int)
    requires 0 <= c <= 3 && 0 <= q <= 24 && 0 <= t <= 3 && 0 <= u <= 365
    requires doe == 36524 * c + 1461 * q + 365 * t + u && (u == 365 ==> t == 3) && (q == 24 && u == 365 ==> c == 3)
    requires 0 <= doe <= 146096
    ensures doe / 36524 - doe / 146096 == c
    ensures doe / 1460 == 25 * c + q + (24 * c + q + 365 * t + u) / 1460
    ensures (doe - doe / 1460 + doe / 36524 - doe / 146096) / 365 == 100 * c + 4 * q + t
  {
  }

  lemma YearIsShort(yoe: int)
    requires 0 <= yoe <= 399
    ensures EraDays(yoe + 1) - EraDays(yoe) <= 366
    ensures EraDays(yoe) == 365 * yoe + yoe / 4 - yoe / 100
  {
  }

  /** Month and day from the day of a year that starts in March of `y`. */
  function DateInYear(y: int64, doy: uint64): (int64, uint32, uint32)
    requires doy <= 365 && y as int + 1 < 0x8000_0000_0000_0000
  {
    var mp := (5 * doy + 2) / 153;
    MonthIndexIsRight(doy as int);
    var d := (doy - (153 * mp + 2) / 5 + 1) as uint32;
    var m := (if mp < 10 then mp + 3 else mp - 9) as uint32;
    var y := if m <= 2 then y + 1 else y;
    (y, m, d)
  }

  /** The era of a day, and the day within it. */
  function SplitEra(z: int64): (r: (int64, uint64))
    requires z as int >= -0x8000_0000_0000_0000 + 146096
    ensures r.1 <= 146096 && z as int == r.0 as int * 146097 + r.1 as int
  {
    var era := Era(z);
    EraIsFloor(z);
    (era, (z - era * 146097) as uint64)
  }

  /** The year within an era that contains a day, and the day within that year. */
  function SplitYear(doe: uint64): (r: (uint64, uint64))
    requires doe <= 146096
    ensures r.0 <= 399 && r.1 <= 365
    ensures doe as int == EraDays(r.0 as int) + r.1 as int < EraDays(r.0 as int + 1)
  {
    var yoe := YearOfEra(doe);
    YearOfEraIsRight(doe);
    YearIsShort(yoe as int);
    (yoe, doe - (365 * yoe + yoe / 4 - yoe / 100))
  }

  /** The machine computation: every intermediate fits its type as long as the first addition does. */
  function CivilFromDays(z: int64): (int64, uint32, uint32)
    requires z as int + 719468 < 0x8000_0000_0000_0000
  {
    var (era, doe) := SplitEra(z + 719468);
    var (yoe, doy) := SplitYear(doe);
    DateInYear(yoe as int64 + era * 400, doy)
  }

  function Civil(z: int64): Date
    requires z as int + 719468 < 0x8000_0000_0000_0000
  {
    var (y, m, d) := CivilFromDays(z);
    Date(y as int, m as int, d as int)
  }

  /** Month of a year that starts in March, from the day of that year. */
  function MonthIndex(doy: int): int
  {
    (5 * doy + 2) / 153
  }

  lemma MonthIndexIsRight(doy: int)
    requires 0 <= doy <= 365
    ensures var mp := MonthIndex(doy);
            0 <= mp <= 11 && (153 * mp + 2) / 5 <= doy
            && (mp < 11 ==> doy < (153 * (mp + 1) + 2) / 5)
  {
  }

  function MarchDate(y: int, doy: int): Date
  {
    var mp := MonthIndex(doy);
    var m := if mp < 10 then mp + 3 else mp - 9;
    Date(if m <= 2 then y + 1 else y, m, doy - (153 * mp + 2) / 5 + 1)
  }

  lemma DateInYearIsMarchDate(y: int64, doy: uint64)
    requires doy <= 365 && y as int + 1 < 0x8000_0000_0000_0000
    ensures var (y', m, d) := DateInYear(y, doy); Date(y' as int, m as int, d as int) == MarchDate(y as int, doy as int)
  {
  }

  lemma EraYearLength(yoe: int)
    requires 0 <= yoe <= 399
    ensures EraDays(yoe + 1) - EraDays(yoe) == if IsLeap(yoe + 1) then 366 else 365
  {
    assert (yoe + 1) / 4 == yoe / 4 + if (yoe + 1) % 4 == 0 then 1 else 0;
    assert (yoe + 1) / 100 == yoe / 100 + if (yoe + 1) % 100 == 0 then 1 else 0;
    assert (yoe + 1) / 400 == yoe / 400 + if (yoe + 1) % 400 == 0 then 1 else 0;
  }

  lemma Shift4(x: int, k: int) ensures (x + 4 * k) % 4 == x % 4 {}

  lemma Shift100(x: int, k: int) ensures (x + 100 * k) % 100 == x % 100 {}

  lemma Shift400(x: int, k: int) ensures (x + 400 * k) % 400 == x % 400 {}

  /** The leap years repeat every era. */
  lemma LeapYearsRepeat(year: int, era: int)
    ensures IsLeap(year + 400 * era) == IsLeap(year)
  {
    Shift4(year, 100 * era);
    Shift100(year, 4 * era);
    Shift400(year, era);
  }

  /** The January after an era's year starts, counted through eras and counted through January years. */
  lemma MarchFirst(yoe: int, era: int)
    requires 0 <= yoe <= 399
    ensures DaysBeforeYear(yoe + 400 * era + 1) == EraDays(yoe) + 146097 * era + 366
  {
    var y := yoe + 400 * era;
    assert (y + 4) / 4 == yoe / 4 + 100 * era + 1;
    assert (y + 100) / 100 == yoe / 100 + 4 * era + 1;
    assert (y + 400) / 400 == yoe / 400 + era + 1;
  }

  lemma MarchDateIsValid(y: int, doy: int)
    requires 0 <= doy < if IsLeap(y + 1) then 366 else 365
    ensures Valid(MarchDate(y, doy))
  {
    MonthIndexIsRight(doy);
    hide IsLeap, MonthIndex;
  }

  lemma MarchDateNumber(y: int, doy: int)
    requires 0 <= doy <= 365
    ensures DayNumber(MarchDate(y, doy)) == DaysBeforeYear(y + 1) - 306 + doy - DaysBeforeYear(1970)
  {
    MonthIndexIsRight(doy);
    var mp := MonthIndex(doy);
    if mp < 10 {
      YearLength(y);
      MonthTable(y);
      hide IsLeap, DaysBeforeYear, MonthIndex, DaysBeforeMonth, DaysInMonth;
      assert DayNumber(MarchDate(y, doy)) == DaysBeforeYear(y + 1) - 306 + doy - DaysBeforeYear(1970);
    } else {
      MonthTable(y + 1);
      hide IsLeap, DaysBeforeYear, MonthIndex, DaysBeforeMonth, DaysInMonth;
      assert DayNumber(MarchDate(y, doy)) == DaysBeforeYear(y + 1) - 306 + doy - DaysBeforeYear(1970);
    }
  }

  lemma CivilIsMarchDate(z: int64) returns (era: int, yoe: int, doy: int)
    requires z as int + 719468 < 0x8000_0000_0000_0000
    ensures 0 <= yoe <= 399 && 0 <= doy < EraDays(yoe + 1) - EraDays(yoe)
    ensures z as int + 719468 == 146097 * era + EraDays(yoe) + doy
    ensures Civil(z) == MarchDate(yoe + 400 * era, doy)
  {
    hide SplitEra, SplitYear, DateInYear, MarchDate, EraDays;
    var (e, doe) := SplitEra(z + 719468);
    var (y, d) := SplitYear(doe);
    era, yoe, doy := e as int, y as int, d as int;
    DateInYearIsMarchDate(y as int64 + e * 400, d);
  }

  lemma EpochYear()
    ensures DaysBeforeYear(1970) == 719528
  {
  }

  lemma MarchDateIsRight(era: int, yoe: int, doy: int)
    requires 0 <= yoe <= 399 && 0 <= doy < EraDays(yoe + 1) - EraDays(yoe)
    ensures var date := MarchDate(yoe + 400 * era, doy);
            Valid(date) && DayNumber(date) == 146097 * era + EraDays(yoe) + doy - 719468
  {
    EraYearLength(yoe);
    hide EraDays;
    LeapYearsRepeat(yoe + 1, era);
    var y := yoe + 400 * era;
    assert y + 1 == yoe + 1 + 400 * era;
    hide MarchDate, DayNumber, Valid, IsLeap, DaysBeforeYear;
    MarchDateIsValid(y, doy);
    MarchDateNumber(y, doy);
    MarchFirst(yoe, era);
    EpochYear();
  }

  /** Every day number becomes a valid date, and that date has that day number. */
  lemma CivilIsRight(z: int64)
    requires z as int + 719468 < 0x8000_0000_0000_0000
    ensures Valid(Civil(z)) && DayNumber(Civil(z)) == z as int
  {
    hide Civil, EraDays, MarchDate, DayNumber, Valid;
    var era, yoe, doy := CivilIsMarchDate(z);
    MarchDateIsRight(era, yoe, doy);
  }

  // ---------------------------------------------------------------------------
  // What follows
  // ---------------------------------------------------------------------------

  predicate Before(a: Date, b: Date)
  {
    a.year < b.year || (a.year == b.year && (a.month < b.month || (a.month == b.month && a.day < b.day)))
  }

  lemma {:induction false} YearsAreOrdered(a: int, b: int)
    requires a <= b
    ensures DaysBeforeYear(a) + 365 * (b - a) <= DaysBeforeYear(b)
    decreases b - a
  {
    if a < b {
      YearLength(b - 1);
      YearsAreOrdered(a, b - 1);
    }
  }

  /** A valid date falls within its year, and within its month. */
  lemma WithinYear(date: Date)
    requires Valid(date)
    ensures var n := DayNumber(date) + DaysBeforeYear(1970);
            && DaysBeforeYear(date.year) <= n < DaysBeforeYear(date.year + 1)
            && DaysBeforeYear(date.year) + DaysBeforeMonth(date.year, date.month) <= n
            && (date.month < 12 ==> n < DaysBeforeYear(date.year) + DaysBeforeMonth(date.year, date.month + 1))
  {
    MonthTable(date.year);
    YearLength(date.year);
    hide IsLeap, DaysBeforeYear;
  }

  lemma MonthsAreOrdered(year: int, a: int, b: int)
    requires 1 <= a <= b <= 12
    ensures DaysBeforeMonth(year, a) <= DaysBeforeMonth(year, b)
  {
    MonthTable(year);
    hide IsLeap;
  }

  /** Earlier dates have smaller day numbers, so no two valid dates share one. */
  lemma DayNumberIsOrdered(a: Date, b: Date)
    requires Valid(a) && Valid(b) && Before(a, b)
    ensures DayNumber(a) < DayNumber(b)
  {
    if a.year == b.year && a.month == b.month {
      assert DayNumber(b) - DayNumber(a) == b.day - a.day;
    } else {
      WithinYear(a);
      WithinYear(b);
      if a.year < b.year {
        YearsAreOrdered(a.year + 1, b.year);
      } else {
        MonthsAreOrdered(a.year, a.month + 1, b.month);
      }
      hide DayNumber, DaysBeforeYear, DaysBeforeMonth, DaysInMonth;
    }
  }

  lemma SameDayNumberSameDate(a: Date, b: Date)
    requires Valid(a) && Valid(b) && DayNumber(a) == DayNumber(b)
    ensures a == b
  {
    hide DayNumber, Valid;
    if Before(a, b) {
      DayNumberIsOrdered(a, b);
    } else if Before(b, a) {
      DayNumberIsOrdered(b, a);
    }
  }

  /** The conversion and the day count are inverse to each other. */
  lemma RoundTrip(date: Date)
    requires Valid(date)
    requires -0x8000_0000_0000_0000 <= DayNumber(date) < 0x8000_0000_0000_0000 - 719468
    ensures Civil(DayNumber(date) as int64) == date
  {
    CivilIsRight(DayNumber(date) as int64);
    SameDayNumberSameDate(Civil(DayNumber(date) as int64), date);
  }

  /** Each day number is followed by the next calendar day. */
  lemma CivilCounts(z: int64)
    requires z as int + 719469 < 0x8000_0000_0000_0000
    ensures Civil(z + 1) == NextDay(Civil(z))
  {
    CivilIsRight(z);
    CivilIsRight(z + 1);
    hide Civil, NextDay, DayNumber, Valid;
    DayNumberCounts(Civil(z));
    SameDayNumberSameDate(Civil(z + 1), NextDay(Civil(z)));
  }

  /** Counting starts at the epoch. */
  lemma CivilStarts()
    ensures Civil(0) == EPOCH
  {
    CivilIsRight(0);
    EpochIsDayZero();
    hide Civil, DayNumber, Valid;
    SameDayNumberSameDate(Civil(0), EPOCH);
  }
}
