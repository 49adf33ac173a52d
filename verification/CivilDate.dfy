/** Calendar dates from day numbers: the era arithmetic the gateway uses, against the
    calendar as one counts it day by day. */
module CivilDate {

  datatype Date = Date(year: int, month: int, day: int)

  // ---------------------------------------------------------------------
  // The Gregorian calendar
  // ---------------------------------------------------------------------

  /** Leap years, as in Appendix C of RFC 3339. */
  predicate Leap(y: int) { y % 4 == 0 && (y % 100 != 0 || y % 400 == 0) }

  function MonthLength(y: int, m: int): int {
    if m == 2 then if Leap(y) then 29 else 28
    else if m == 4 || m == 6 || m == 9 || m == 11 then 30
    else 31
  }

  predicate IsDate(d: Date) { 1 <= d.month <= 12 && 1 <= d.day <= MonthLength(d.year, d.month) }

  function NextDay(d: Date): Date {
    if d.day < MonthLength(d.year, d.month) then d.(day := d.day + 1)
    else if d.month < 12 then Date(d.year, d.month + 1, 1)
    else Date(d.year + 1, 1, 1)
  }

  predicate Earlier(a: Date, b: Date) {
    a.year < b.year || (a.year == b.year && (a.month < b.month || (a.month == b.month && a.day < b.day)))
  }

  // ---------------------------------------------------------------------
  // The era arithmetic
  // ---------------------------------------------------------------------

  /** Division as the machine does it, towards zero. */
  function TruncDiv(a: int, b: int): int
    requires b > 0
  {
    if a >= 0 then a / b else -((-a) / b)
  }

  const DAYS_PER_ERA := 146097

  function EraOf(z: int): int { TruncDiv(if z >= 0 then z else z - 146096, DAYS_PER_ERA) }

  function DayOfEra(z: int): int { z - EraOf(z) * DAYS_PER_ERA }

  function YearOfEra(doe: int): int { (doe - doe / 1460 + doe / 36524 - doe / 146096) / 365 }

  /** Days of an era before its year `yoe`. */
  function YearStart(yoe: int): int { 365 * yoe + yoe / 4 - yoe / 100 }

  function MonthOfYear(doy: int): int { (5 * doy + 2) / 153 }

  /** Days of a year counted from March before its month `mp`. */
  function MonthStart(mp: int): int { (153 * mp + 2) / 5 }

  /** A day by its era, its year in the era and its day in that year, which begins in March. */
  datatype Place = Place(era: int, yoe: int, doy: int)

  function PlaceIn(era: int, doe: int): Place {
    var yoe := YearOfEra(doe);
    Place(era, yoe, doe - YearStart(yoe))
  }

  function PlaceOf(z: int): Place { PlaceIn(EraOf(z), DayOfEra(z)) }

  /** Day `doy` of the year that begins in March of calendar year `y`. */
  function DateIn(y: int, doy: int): Date {
    var mp := MonthOfYear(doy);
    var month := if mp < 10 then mp + 3 else mp - 9;
    Date(if month <= 2 then y + 1 else y, month, doy - MonthStart(mp) + 1)
  }

  function MarchYear(p: Place): int { p.yoe + p.era * 400 }

  function DateOf(p: Place): Date { DateIn(MarchYear(p), p.doy) }

  function CivilFromDays(days: int): Date { DateOf(PlaceOf(days + 719468)) }

  // ---------------------------------------------------------------------
  // Eras, years and months
  // ---------------------------------------------------------------------

  /** Truncating division, with its correction for negative days, rounds down. */
  lemma EraFloors(z: int)
    ensures 0 <= DayOfEra(z) < DAYS_PER_ERA
    ensures EraOf(z) == z / DAYS_PER_ERA
  {
  }

  /** Years of an era, a leap day being the last day of its year. */
  predicate InYear(doe: int, yoe: int) {
    0 <= yoe < 400 && YearStart(yoe) <= doe < if yoe == 399 then DAYS_PER_ERA else YearStart(yoe + 1)
  }

  /** A day of the era by century, four-year cycle, year of the cycle and day of the year. */
  predicate Splits(doe: int, c: int, q: int, r: int, d: int) {
    && 0 <= c < 4 && 0 <= q < 25 && 0 <= r < 4
    && 0 <= d < 365 + (if r == 3 && (q < 24 || c == 3) then 1 else 0)
    && doe == 36524 * c + 1461 * q + 365 * r + d
  }

  lemma SplitExists(doe: int) returns (c: int, q: int, r: int, d: int)
    requires 0 <= doe < DAYS_PER_ERA
    ensures Splits(doe, c, q, r, d)
  {
    c := if doe / 36524 == 4 then 3 else doe / 36524;
    var inCentury := doe - 36524 * c;
    q := inCentury / 1461;
    var inCycle := inCentury - 1461 * q;
    r := if inCycle / 365 == 4 then 3 else inCycle / 365;
    d := inCycle - 365 * r;
  }

  lemma SplitYearStart(c: int, q: int, r: int)
    requires 0 <= c < 4 && 0 <= q < 25 && 0 <= r < 4
    ensures var y := 100 * c + 4 * q + r;
            y / 4 == 25 * c + q && y / 100 == c && YearStart(y) == 36524 * c + 1461 * q + 365 * r
  {
  }

  /** The divisions by 36524 and 146096 cancel to the number of past centuries, and
      the one by 1460 takes out the leap days; what is left is below 365. */
  lemma SplitYearOfEra(doe: int, c: int, q: int, r: int, d: int)
    requires Splits(doe, c, q, r, d)
    ensures YearOfEra(doe) == 100 * c + 4 * q + r
  {
    assert doe / 36524 - doe / 146096 == c;
    var rest := 24 * c + q + 365 * r + d;
    assert doe == 1460 * (25 * c + q) + rest && 0 <= rest < 2920;
    var e := if rest >= 1460 then 1 else 0;
    assert doe / 1460 == 25 * c + q + e;
    assert doe - doe / 1460 + doe / 36524 - doe / 146096 == 365 * (100 * c + 4 * q + r) + (d - e);
    assert 0 <= d - e < 365;
  }

  lemma YearOfEraIsRight(doe: int)
    requires 0 <= doe < DAYS_PER_ERA
    ensures InYear(doe, YearOfEra(doe))
  {
    var c, q, r, d := SplitExists(doe);
    SplitYearOfEra(doe, c, q, r, d);
    SplitYearStart(c, q, r);
    SplitYearLength(c, q, r);
    YearLengthIsRight(100 * c + 4 * q + r);
  }

  lemma SplitYearLength(c: int, q: int, r: int)
    requires 0 <= c < 4 && 0 <= q < 25 && 0 <= r < 4
    ensures YearLength(100 * c + 4 * q + r) == 365 + (if r == 3 && (q < 24 || c == 3) then 1 else 0)
  {
  }

  lemma YearIsUnique(doe: int, a: int, b: int)
    requires InYear(doe, a) && InYear(doe, b)
    ensures a == b
  {
  }

  /** The year ends with February of the next calendar year. */
  function YearLength(yoe: int): int {
    if (yoe + 1) % 4 == 0 && ((yoe + 1) % 100 != 0 || yoe == 399) then 366 else 365
  }

  lemma YearLengthIsRight(yoe: int)
    requires 0 <= yoe < 400
    ensures YearStart(yoe) + YearLength(yoe) == if yoe == 399 then DAYS_PER_ERA else YearStart(yoe + 1)
  {
  }

  lemma Cycle4(t: int, k: int)
    ensures (4 * t + k) % 4 == k % 4
  {
  }

  lemma Cycle100(t: int, k: int)
    ensures (100 * t + k) % 100 == k % 100
  {
  }

  lemma Cycle400(t: int, k: int)
    ensures (400 * t + k) % 400 == k % 400
  {
  }

  lemma SameInEveryEra(era: int, k: int)
    ensures Leap(era * 400 + k) == Leap(k)
  {
    Cycle4(100 * era, k);
    Cycle100(4 * era, k);
    Cycle400(era, k);
  }

  predicate IsPlace(p: Place) { 0 <= p.yoe < 400 && 0 <= p.doy < YearLength(p.yoe) }

  function NextPlace(p: Place): Place {
    if p.doy + 1 < YearLength(p.yoe) then p.(doy := p.doy + 1)
    else if p.yoe < 399 then Place(p.era, p.yoe + 1, 0)
    else Place(p.era + 1, 0, 0)
  }

  lemma PlaceInIsRight(era: int, doe: int)
    requires 0 <= doe < DAYS_PER_ERA
    ensures var p := PlaceIn(era, doe);
            IsPlace(p) && InYear(doe, p.yoe) && p.era == era && p.doy == doe - YearStart(p.yoe)
  {
    YearOfEraIsRight(doe);
    YearLengthIsRight(YearOfEra(doe));
  }

  lemma PlaceInIs(era: int, doe: int, yoe: int)
    requires 0 <= doe < DAYS_PER_ERA && InYear(doe, yoe)
    ensures PlaceIn(era, doe) == Place(era, yoe, doe - YearStart(yoe))
  {
    PlaceInIsRight(era, doe);
    YearIsUnique(doe, PlaceIn(era, doe).yoe, yoe);
  }

  lemma NextInYear(doe: int, yoe: int)
    requires InYear(doe, yoe) && doe + 1 < DAYS_PER_ERA
    ensures if doe + 1 - YearStart(yoe) < YearLength(yoe) then InYear(doe + 1, yoe)
            else yoe < 399 && YearStart(yoe + 1) == doe + 1 && InYear(doe + 1, yoe + 1)
  {
    YearLengthIsRight(yoe);
    if yoe < 399 {
      YearLengthIsRight(yoe + 1);
    }
  }

  lemma NextInEra(era: int, doe: int)
    requires 0 <= doe && doe + 1 < DAYS_PER_ERA
    ensures PlaceIn(era, doe + 1) == NextPlace(PlaceIn(era, doe))
  {
    PlaceInIsRight(era, doe);
    var yoe := PlaceIn(era, doe).yoe;
    NextInYear(doe, yoe);
    if doe + 1 - YearStart(yoe) < YearLength(yoe) {
      PlaceInIs(era, doe + 1, yoe);
    } else {
      PlaceInIs(era, doe + 1, yoe + 1);
    }
  }

  lemma NextEra(era: int)
    ensures PlaceIn(era + 1, 0) == NextPlace(PlaceIn(era, DAYS_PER_ERA - 1))
  {
    PlaceInIs(era + 1, 0, 0);
    PlaceInIs(era, DAYS_PER_ERA - 1, 399);
  }

  lemma NextOfEra(z: int)
    ensures if DayOfEra(z) + 1 == DAYS_PER_ERA then EraOf(z + 1) == EraOf(z) + 1 && DayOfEra(z + 1) == 0
            else EraOf(z + 1) == EraOf(z) && DayOfEra(z + 1) == DayOfEra(z) + 1
  {
    EraFloors(z);
    EraFloors(z + 1);
  }

  lemma PlacesCount(z: int)
    ensures IsPlace(PlaceOf(z)) && PlaceOf(z + 1) == NextPlace(PlaceOf(z))
  {
    EraFloors(z);
    NextOfEra(z);
    PlaceInIsRight(EraOf(z), DayOfEra(z));
    PlaceStep(EraOf(z), DayOfEra(z), EraOf(z + 1), DayOfEra(z + 1));
  }

  lemma PlaceStep(era: int, doe: int, era': int, doe': int)
    requires 0 <= doe < DAYS_PER_ERA
    requires if doe + 1 == DAYS_PER_ERA then era' == era + 1 && doe' == 0 else era' == era && doe' == doe + 1
    ensures PlaceIn(era', doe') == NextPlace(PlaceIn(era, doe))
  {
    if doe + 1 == DAYS_PER_ERA {
      NextEra(era);
    } else {
      NextInEra(era, doe);
    }
  }

  /** The months counted from March, as the formulas lay them out. */
  lemma MonthsCount(y: int, doy: int)
    requires 0 <= doy < 337 + MonthLength(y + 1, 2)
    ensures IsDate(DateIn(y, doy))
    ensures NextDay(DateIn(y, doy)) ==
            if doy + 1 < 337 + MonthLength(y + 1, 2) then DateIn(y, doy + 1) else DateIn(y + 1, 0)
  {
  }

  lemma PlaceLength(p: Place)
    requires IsPlace(p)
    ensures YearLength(p.yoe) == 337 + MonthLength(MarchYear(p) + 1, 2)
  {
    SameInEveryEra(p.era, p.yoe + 1);
    assert MarchYear(p) + 1 == p.era * 400 + (p.yoe + 1);
  }

  lemma NextMarchYear(p: Place)
    requires IsPlace(p)
    ensures var p' := NextPlace(p);
            if p.doy + 1 < YearLength(p.yoe) then MarchYear(p') == MarchYear(p) && p'.doy == p.doy + 1
            else MarchYear(p') == MarchYear(p) + 1 && p'.doy == 0
  {
  }

  lemma DatesFollow(p: Place)
    requires IsPlace(p)
    ensures IsDate(DateOf(p)) && DateOf(NextPlace(p)) == NextDay(DateOf(p))
  {
    PlaceLength(p);
    NextMarchYear(p);
    MonthsCount(MarchYear(p), p.doy);
  }

  // ---------------------------------------------------------------------
  // Day numbers are the calendar
  // ---------------------------------------------------------------------

  /** For every day number the result is a date, and for the next number it is the next day. */
  lemma CountsDays(days: int)
    ensures IsDate(CivilFromDays(days))
    ensures CivilFromDays(days + 1) == NextDay(CivilFromDays(days))
  {
    var z := days + 719468;
    assert z + 1 == (days + 1) + 719468;
    PlacesCount(z);
    DatesFollow(PlaceOf(z));
  }

  lemma EpochIsRight()
    ensures CivilFromDays(0) == Date(1970, 1, 1)
  {
    assert EraOf(719468) == 4;
    assert DayOfEra(719468) == 135080;
    assert YearOfEra(135080) == 369;
    assert PlaceOf(719468) == Place(4, 369, 306);
  }

  /** The days from the start of year 0 to the start of year `y`. */
  function DaysBeforeYear(y: int): int { 365 * y + (y + 3) / 4 - (y + 99) / 100 + (y + 399) / 400 }

  function DaysBeforeMonth(y: int, m: int): int
    requires 1 <= m <= 12
  {
    if m == 1 then 0 else DaysBeforeMonth(y, m - 1) + MonthLength(y, m - 1)
  }

  /** Days counted year by year and month by month; 719528 is where 1970 begins. */
  function DayNumber(d: Date): int
    requires IsDate(d)
  {
    DaysBeforeYear(d.year) + DaysBeforeMonth(d.year, d.month) + d.day - 1 - 719528
  }

  lemma Quarter(y: int)
    ensures (y + 4) / 4 == (y + 3) / 4 + if y % 4 == 0 then 1 else 0
  {
  }

  lemma Century(y: int)
    ensures (y + 100) / 100 == (y + 99) / 100 + if y % 100 == 0 then 1 else 0
    ensures y % 100 == 0 ==> y % 4 == 0
  {
    assert y == 4 * (25 * (y / 100)) + y % 100;
    Cycle4(25 * (y / 100), y % 100);
  }

  lemma FourCenturies(y: int)
    ensures (y + 400) / 400 == (y + 399) / 400 + if y % 400 == 0 then 1 else 0
    ensures y % 400 == 0 ==> y % 100 == 0
  {
    assert y == 100 * (4 * (y / 400)) + y % 400;
    Cycle100(4 * (y / 400), y % 400);
  }

  lemma YearsAddUp(y: int)
    ensures DaysBeforeYear(y + 1) == DaysBeforeYear(y) + if Leap(y) then 366 else 365
  {
    Quarter(y);
    Century(y);
    FourCenturies(y);
  }

  lemma MonthsAddUp(y: int, m: int)
    requires 1 <= m <= 12
    ensures DaysBeforeMonth(y, 12) + MonthLength(y, 12) == if Leap(y) then 366 else 365
    ensures 0 <= DaysBeforeMonth(y, m) <= DaysBeforeMonth(y, 12)
    ensures forall k :: 1 <= k < m ==> DaysBeforeMonth(y, k) + MonthLength(y, k) <= DaysBeforeMonth(y, m)
  {
    var feb := MonthLength(y, 2);
    assert DaysBeforeMonth(y, 2) == 31 && DaysBeforeMonth(y, 3) == 31 + feb;
    assert DaysBeforeMonth(y, 4) == 62 + feb && DaysBeforeMonth(y, 5) == 92 + feb;
    assert DaysBeforeMonth(y, 6) == 123 + feb && DaysBeforeMonth(y, 7) == 153 + feb;
    assert DaysBeforeMonth(y, 8) == 184 + feb && DaysBeforeMonth(y, 9) == 215 + feb;
    assert DaysBeforeMonth(y, 10) == 245 + feb && DaysBeforeMonth(y, 11) == 276 + feb;
    assert DaysBeforeMonth(y, 12) == 306 + feb;
  }

  lemma NextDayCounts(d: Date)
    requires IsDate(d)
    ensures IsDate(NextDay(d)) && DayNumber(NextDay(d)) == DayNumber(d) + 1
    ensures Earlier(d, NextDay(d))
  {
    YearsAddUp(d.year);
    MonthsAddUp(d.year, d.month);
  }

  lemma {:induction false} YearsGrow(y: int, y': int)
    requires y <= y'
    ensures DaysBeforeYear(y) <= DaysBeforeYear(y')
    decreases y' - y
  {
    if y < y' {
      YearsAddUp(y);
      YearsGrow(y + 1, y');
    }
  }

  lemma EarlierIsFewer(a: Date, b: Date)
    requires IsDate(a) && IsDate(b) && Earlier(a, b)
    ensures DayNumber(a) < DayNumber(b)
  {
    MonthsAddUp(a.year, a.month);
    MonthsAddUp(b.year, b.month);
    if a.year < b.year {
      YearsAddUp(a.year);
      YearsGrow(a.year + 1, b.year);
    }
  }

  // The rest holds of any way to number the days one after another.

  predicate CountsAt(f: int -> Date, n: int) { IsDate(f(n)) && f(n + 1) == NextDay(f(n)) }

  ghost predicate Counts(f: int -> Date) { f(0) == Date(1970, 1, 1) && forall n :: CountsAt(f, n) }

  lemma {:induction false} CountedNumber(f: int -> Date, n: int)
    requires Counts(f)
    ensures IsDate(f(n)) && DayNumber(f(n)) == n
    decreases if n >= 0 then n else -n
  {
    assert CountsAt(f, n);
    if n == 0 {
      assert DaysBeforeYear(1970) == 719528;
    } else if n > 0 {
      CountedNumber(f, n - 1);
      assert CountsAt(f, n - 1);
      NextDayCounts(f(n - 1));
    } else {
      CountedNumber(f, n + 1);
      NextDayCounts(f(n));
    }
  }

  /** Two dates with one number are one date. */
  lemma NumberIsUnique(a: Date, b: Date)
    requires IsDate(a) && IsDate(b) && DayNumber(a) == DayNumber(b)
    ensures a == b
  {
    if Earlier(a, b) {
      EarlierIsFewer(a, b);
    } else if Earlier(b, a) {
      EarlierIsFewer(b, a);
    }
  }

  lemma CivilCounts()
    ensures Counts(CivilFromDays)
  {
    EpochIsRight();
    forall n ensures CountsAt(CivilFromDays, n) {
      CountsDays(n);
    }
  }

  /** Day numbers and dates stand in one-to-one correspondence: the arithmetic undoes
      counting, and counting undoes the arithmetic. */
  lemma RoundTrips(days: int, d: Date)
    requires IsDate(d)
    ensures IsDate(CivilFromDays(days)) && DayNumber(CivilFromDays(days)) == days
    ensures CivilFromDays(DayNumber(d)) == d
  {
    CivilCounts();
    CountedNumber(CivilFromDays, days);
    CountedNumber(CivilFromDays, DayNumber(d));
    NumberIsUnique(CivilFromDays(DayNumber(d)), d);
  }

  /** The order of day numbers is the order of their dates. */
  lemma OrderIsKept(a: int, b: int)
    ensures a < b <==> Earlier(CivilFromDays(a), CivilFromDays(b))
  {
    CivilCounts();
    OrderIsCounted(CivilFromDays, a, b);
  }

  lemma OrderIsCounted(f: int -> Date, a: int, b: int)
    requires Counts(f)
    ensures a < b <==> Earlier(f(a), f(b))
  {
    CountedNumber(f, a);
    CountedNumber(f, b);
    if Earlier(f(a), f(b)) {
      EarlierIsFewer(f(a), f(b));
    } else if Earlier(f(b), f(a)) {
      EarlierIsFewer(f(b), f(a));
    }
  }

  /** No intermediate value of the unsigned arithmetic is negative, and the signed ones
      stay in range for every day number below 2^62 in size. */
  lemma NoUnderflow(days: int)
    requires -0x4000_0000_0000_0000 <= days < 0x4000_0000_0000_0000
    ensures var z := days + 719468;
            var doe := DayOfEra(z);
            var p := PlaceOf(z);
            && -0x8000_0000_0000_0000 <= z - 146096 && z < 0x8000_0000_0000_0000
            && 0 <= doe < 0x1_0000_0000
            && doe - doe / 1460 >= 0 && doe - doe / 1460 + doe / 36524 - doe / 146096 >= 0
            && doe - YearStart(p.yoe) >= 0
            && 0 <= MonthOfYear(p.doy) <= 11 && p.doy - MonthStart(MonthOfYear(p.doy)) >= 0
  {
    EraFloors(days + 719468);
    PlaceInIsRight(EraOf(days + 719468), DayOfEra(days + 719468));
  }
}
