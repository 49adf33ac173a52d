/** Audit timestamps: printed from seconds and milliseconds since 1970, and compared as strings. */
module Timestamp {
  import opened Prelude
  import opened CivilDate

  // ---------------------------------------------------------------------
  // Zero-padded decimals
  // ---------------------------------------------------------------------

  const DIGITS: string := "0123456789"

  function Digit(n: nat): char
    requires n < 10
  {
    DIGITS[n]
  }

  function DigitValue(c: char): nat {
    if '0' <= c <= '9' then (c - '0') as nat else 0
  }

  /** `n` in decimal, with zeros in front up to a width of `w`; a longer number is printed in full. */
  function Padded(n: nat, w: nat): string
    decreases w, n
  {
    if n == 0 && w == 0 then []
    else Padded(n / 10, if w == 0 then 0 else w - 1) + [Digit(n % 10)]
  }

  function Value(s: string): nat {
    if s == [] then 0 else 10 * Value(s[..|s| - 1]) + DigitValue(s[|s| - 1])
  }

  function Pow10(w: nat): nat { if w == 0 then 1 else 10 * Pow10(w - 1) }

  predicate AllDigits(s: string) { forall i :: 0 <= i < |s| ==> '0' <= s[i] <= '9' }

  lemma DigitRoundTrip(n: nat)
    requires n < 10
    ensures '0' <= Digit(n) <= '9' && DigitValue(Digit(n)) == n
  {
  }

  lemma ValueSnoc(s: string, c: char)
    ensures Value(s + [c]) == 10 * Value(s) + DigitValue(c)
  {
    assert (s + [c])[..|s|] == s;
  }

  lemma {:induction false} PaddedReads(n: nat, w: nat)
    ensures AllDigits(Padded(n, w)) && Value(Padded(n, w)) == n
    decreases w, n
  {
    if n != 0 || w != 0 {
      var front := Padded(n / 10, if w == 0 then 0 else w - 1);
      PaddedReads(n / 10, if w == 0 then 0 else w - 1);
      DigitRoundTrip(n % 10);
      ValueSnoc(front, Digit(n % 10));
    }
  }

  lemma Tenth(n: nat, p: nat)
    ensures n < 10 * p <==> n / 10 < p
  {
  }

  lemma {:induction false} PaddedLength(n: nat, w: nat)
    ensures n < Pow10(w) <==> |Padded(n, w)| == w
    ensures |Padded(n, w)| >= w
    decreases w, n
  {
    if w > 0 {
      PaddedLength(n / 10, w - 1);
      Tenth(n, Pow10(w - 1));
    } else if n > 0 {
      PaddedLength(n / 10, 0);
    }
  }

  lemma LastDigit(a: nat, b: nat)
    ensures a < b <==> a / 10 < b / 10 || (a / 10 == b / 10 && a % 10 < b % 10)
  {
  }

  lemma DigitOrder(x: nat, y: nat)
    requires x < 10 && y < 10
    ensures Before([Digit(x)], [Digit(y)]) <==> x < y
  {
    DigitRoundTrip(x);
    DigitRoundTrip(y);
  }

  lemma AppendDigit(front: string, front': string, a: nat, b: nat)
    requires |front| == |front'|
    requires Before(front, front') <==> a / 10 < b / 10
    requires front == front' <==> a / 10 == b / 10
    ensures Before(front + [Digit(a % 10)], front' + [Digit(b % 10)]) <==> a < b
  {
    BeforeByParts(front, [Digit(a % 10)], front', [Digit(b % 10)]);
    DigitOrder(a % 10, b % 10);
    LastDigit(a, b);
  }

  lemma {:induction false} PaddedOrder(a: nat, b: nat, w: nat)
    requires a < Pow10(w) && b < Pow10(w)
    ensures |Padded(a, w)| == |Padded(b, w)| == w
    ensures Before(Padded(a, w), Padded(b, w)) <==> a < b
    ensures Padded(a, w) == Padded(b, w) <==> a == b
  {
    PaddedLength(a, w);
    PaddedLength(b, w);
    PaddedReads(a, w);
    PaddedReads(b, w);
    if w > 0 {
      Tenth(a, Pow10(w - 1));
      Tenth(b, Pow10(w - 1));
      PaddedOrder(a / 10, b / 10, w - 1);
      AppendDigit(Padded(a / 10, w - 1), Padded(b / 10, w - 1), a, b);
    }
  }

  // ---------------------------------------------------------------------
  // Rows of fields
  // ---------------------------------------------------------------------

  /** A number to be printed in a width, and what follows it. */
  datatype Field = Field(value: nat, width: nat, tail: string)

  function PrintRow(row: seq<Field>): string {
    if row == [] then [] else Padded(row[0].value, row[0].width) + (row[0].tail + PrintRow(row[1..]))
  }

  predicate Fits(row: seq<Field>) { forall i :: 0 <= i < |row| ==> row[i].value < Pow10(row[i].width) }

  predicate SameShape(a: seq<Field>, b: seq<Field>) {
    |a| == |b| && forall i :: 0 <= i < |a| ==> a[i].width == b[i].width && a[i].tail == b[i].tail
  }

  predicate RowBefore(a: seq<Field>, b: seq<Field>)
    requires |a| == |b|
  {
    a != [] && (a[0].value < b[0].value || (a[0].value == b[0].value && RowBefore(a[1..], b[1..])))
  }

  lemma {:induction false} RowOrder(a: seq<Field>, b: seq<Field>)
    requires SameShape(a, b) && Fits(a) && Fits(b)
    ensures Before(PrintRow(a), PrintRow(b)) <==> RowBefore(a, b)
  {
    if a != [] {
      RowOrder(a[1..], b[1..]);
      var w, tail := a[0].width, a[0].tail;
      PaddedOrder(a[0].value, b[0].value, w);
      BeforeByParts(Padded(a[0].value, w), tail + PrintRow(a[1..]), Padded(b[0].value, w), tail + PrintRow(b[1..]));
      BeforeByParts(tail, PrintRow(a[1..]), tail, PrintRow(b[1..]));
      if Before(tail, tail) {
        BeforeAsymmetric(tail, tail);
      }
    }
  }

  /** Reads a row of the given shape; None when the text is not of that shape. */
  function ReadRow(s: string, shape: seq<Field>): Option<seq<nat>> {
    if shape == [] then if s == [] then Some([]) else None
    else
      var w, tail := shape[0].width, shape[0].tail;
      if |s| < w || !AllDigits(s[..w]) || !(tail <= s[w..]) then None
      else
        var rest := ReadRow(s[w + |tail|..], shape[1..]);
        if rest.None? then None else Some([Value(s[..w])] + rest.value)
  }

  function Values(row: seq<Field>): seq<nat> { seq(|row|, i requires 0 <= i < |row| => row[i].value) }

  lemma ReadFirst(p: string, rest: string, shape: seq<Field>)
    requires shape != [] && |p| == shape[0].width && AllDigits(p)
    ensures var more := ReadRow(rest, shape[1..]);
            ReadRow(p + (shape[0].tail + rest), shape) == if more.None? then None else Some([Value(p)] + more.value)
  {
    var w, tail := shape[0].width, shape[0].tail;
    var s := p + (tail + rest);
    assert s[..w] == p && s[w..] == tail + rest && s[w + |tail|..] == rest;
  }

  lemma RestFits(row: seq<Field>, shape: seq<Field>)
    requires row != [] && SameShape(row, shape) && Fits(row)
    ensures SameShape(row[1..], shape[1..]) && Fits(row[1..])
    ensures row[0].value < Pow10(shape[0].width) && row[0].tail == shape[0].tail && row[0].width == shape[0].width
    ensures Values(row) == [row[0].value] + Values(row[1..])
  {
  }

  lemma PaddedIsRead(n: nat, w: nat, rest: string, shape: seq<Field>)
    requires n < Pow10(w) && shape != [] && shape[0].width == w
    ensures var more := ReadRow(rest, shape[1..]);
            ReadRow(Padded(n, w) + (shape[0].tail + rest), shape) == if more.None? then None else Some([n] + more.value)
  {
    PaddedLength(n, w);
    PaddedReads(n, w);
    ReadFirst(Padded(n, w), rest, shape);
  }

  lemma {:induction false} RowRoundTrip(row: seq<Field>, shape: seq<Field>)
    requires SameShape(row, shape) && Fits(row)
    ensures ReadRow(PrintRow(row), shape) == Some(Values(row))
  {
    if row != [] {
      RestFits(row, shape);
      RowRoundTrip(row[1..], shape[1..]);
      PaddedIsRead(row[0].value, row[0].width, PrintRow(row[1..]), shape);
    } else {
      assert Values(row) == [];
    }
  }

  function RowLength(row: seq<Field>): nat {
    if row == [] then 0 else row[0].width + |row[0].tail| + RowLength(row[1..])
  }

  lemma {:induction false} RowFits(row: seq<Field>)
    ensures |PrintRow(row)| >= RowLength(row)
    ensures |PrintRow(row)| == RowLength(row) <==> Fits(row)
  {
    if row != [] {
      RowFits(row[1..]);
      PaddedLength(row[0].value, row[0].width);
      assert Fits(row) <==> row[0].value < Pow10(row[0].width) && Fits(row[1..]);
    }
  }

  // ---------------------------------------------------------------------
  // Timestamps
  // ---------------------------------------------------------------------

  function RowOf(date: Date, day: nat, millis: nat): seq<Field>
    requires date.year >= 0 && IsDate(date)
  {
    [Field(date.year, 4, "-"), Field(date.month, 2, "-"), Field(date.day, 2, "T"),
     Field(day / 3600, 2, ":"), Field(day % 3600 / 60, 2, ":"), Field(day % 60, 2, "."),
     Field(millis, 3, "Z")]
  }

  lemma YearIsPositive(days: nat)
    ensures IsDate(CivilFromDays(days)) && CivilFromDays(days).year >= 1970
  {
    CountsDays(days);
    EpochIsRight();
    OrderIsKept(0, days);
    if days > 0 {
      assert Earlier(CivilFromDays(0), CivilFromDays(days));
    }
  }

  function StampRow(secs: nat, millis: nat): seq<Field> {
    YearIsPositive(secs / 86400);
    RowOf(CivilFromDays(secs / 86400), secs % 86400, millis)
  }

  /** The timestamp for `secs` seconds and `millis` milliseconds since the start of 1970. */
  function Rfc3339(secs: nat, millis: nat): string { PrintRow(StampRow(secs, millis)) }

  /** The first second of the year 10000. */
  const YEAR_10000: nat := 253402300800

  /** Any way of counting days reaches the year 10000 on day 2932897. */
  lemma FourDigitYears(f: int -> Date, n: int)
    requires Counts(f)
    ensures IsDate(f(n)) && (f(n).year <= 9999 <==> n < 2932897)
  {
    var d := Date(10000, 1, 1);
    assert DaysBeforeYear(10000) == 3652425;
    CountedNumber(f, n);
    CountedNumber(f, 2932897);
    NumberIsUnique(f(2932897), d);
    OrderIsCounted(f, n, 2932897);
  }

  lemma StampFits(secs: nat, millis: nat)
    requires millis < 1000
    ensures Fits(StampRow(secs, millis)) <==> secs < YEAR_10000
    ensures RowLength(StampRow(secs, millis)) == 24
  {
    CivilCounts();
    FourDigitYears(CivilFromDays, secs / 86400);
    YearIsPositive(secs / 86400);
    RowOfFits(CivilFromDays(secs / 86400), secs % 86400, millis);
  }

  lemma RowOfFits(date: Date, day: nat, millis: nat)
    requires IsDate(date) && date.year >= 0 && day < 86400 && millis < 1000
    ensures Fits(RowOf(date, day, millis)) <==> date.year <= 9999
    ensures RowLength(RowOf(date, day, millis)) == 24
  {
    var row := RowOf(date, day, millis);
    assert Pow10(2) == 100 && Pow10(3) == 1000 && Pow10(4) == 10000;
    if date.year <= 9999 {
      forall i | 0 <= i < |row| ensures row[i].value < Pow10(row[i].width) {
        assert i == 0 || i == 1 || i == 2 || i == 3 || i == 4 || i == 5 || i == 6;
      }
    } else {
      assert row[0].value >= Pow10(row[0].width);
    }
    RowLength7(row);
  }

  lemma RowLength7(row: seq<Field>)
    requires |row| == 7
    ensures RowLength(row) == row[0].width + |row[0].tail| + row[1].width + |row[1].tail| + row[2].width
              + |row[2].tail| + row[3].width + |row[3].tail| + row[4].width + |row[4].tail| + row[5].width
              + |row[5].tail| + row[6].width + |row[6].tail|
  {
    assert row[0..] == row && RowLength(row[7..]) == 0;
    RowLengthAt(row, 6);
    RowLengthAt(row, 5);
    RowLengthAt(row, 4);
    RowLengthAt(row, 3);
    RowLengthAt(row, 2);
    RowLengthAt(row, 1);
    RowLengthAt(row, 0);
  }

  lemma RowLengthAt(row: seq<Field>, k: nat)
    requires k < |row|
    ensures RowLength(row[k..]) == row[k].width + |row[k].tail| + RowLength(row[k + 1..])
  {
    assert row[k..][1..] == row[k + 1..];
  }

  /** 24 characters exactly as long as the year has four digits. */
  lemma LengthIs24(secs: nat, millis: nat)
    requires millis < 1000
    ensures |Rfc3339(secs, millis)| == 24 <==> secs < YEAR_10000
  {
    StampFits(secs, millis);
    RowFits(StampRow(secs, millis));
  }

  /** Beyond that the order breaks: every time on the first day of 10000 sorts before every one
      on the last day of 9999. */
  lemma OrderBreaksAfter9999(secs: nat, millis: nat, secs': nat, millis': nat)
    requires secs / 86400 == 2932896 && secs' / 86400 == 2932897
    ensures secs < secs' && Before(Rfc3339(secs', millis'), Rfc3339(secs, millis))
  {
    CivilCounts();
    TurnOf10000(CivilFromDays);
    assert CivilFromDays(secs / 86400) == Date(9999, 12, 31);
    assert CivilFromDays(secs' / 86400) == Date(10000, 1, 1);
    LongYearSortsFirst(StampRow(secs', millis'), StampRow(secs, millis));
  }

  lemma TurnOf10000(f: int -> Date)
    requires Counts(f)
    ensures f(2932897) == Date(10000, 1, 1) && f(2932896) == Date(9999, 12, 31)
  {
    assert DaysBeforeYear(10000) == 3652425 && DaysBeforeYear(9999) == 3652060;
    assert !Leap(9999);
    MonthsAddUp(9999, 12);
    CountedNumber(f, 2932897);
    CountedNumber(f, 2932896);
    NumberIsUnique(f(2932897), Date(10000, 1, 1));
    NumberIsUnique(f(2932896), Date(9999, 12, 31));
  }

  lemma LongYearSortsFirst(a: seq<Field>, b: seq<Field>)
    requires a != [] && b != [] && a[0].width == 4 && b[0].width == 4
    requires 10000 <= a[0].value < 20000 && 9000 <= b[0].value < 10000
    ensures Before(PrintRow(a), PrintRow(b))
  {
    YearLeads(a[0].value);
    YearLeads(b[0].value);
    LeadingDigit(a[0].value, 4, 4, 1);
    LeadingDigit(b[0].value, 4, 3, 9);
    DigitOrder(1, 9);
    assert PrintRow(a)[0] == Digit(1) && PrintRow(b)[0] == Digit(9);
  }

  /** `d` is the number that `n` has before its last `k` digits. */
  predicate Leads(n: nat, k: nat, d: nat) { if k == 0 then n == d else Leads(n / 10, k - 1, d) }

  lemma YearLeads(n: nat)
    ensures 10000 <= n < 20000 ==> Leads(n, 4, 1)
    ensures 9000 <= n < 10000 ==> Leads(n, 3, 9)
  {
    var n1 := n / 10;
    var n2 := n1 / 10;
    var n3 := n2 / 10;
    var n4 := n3 / 10;
    assert Leads(n3, 0, n3) && Leads(n2, 1, n3) && Leads(n1, 2, n3) && Leads(n, 3, n3);
    assert Leads(n4, 0, n4) && Leads(n3, 1, n4) && Leads(n2, 2, n4) && Leads(n1, 3, n4) && Leads(n, 4, n4);
  }

  lemma {:induction false} LeadingDigit(n: nat, w: nat, k: nat, d: nat)
    requires Leads(n, k, d) && 1 <= d <= 9 && w <= k + 1
    ensures Padded(n, w) != [] && Padded(n, w)[0] == Digit(d)
  {
    if k == 0 {
      assert Padded(n / 10, if w == 0 then 0 else w - 1) == [];
    } else {
      LeadingDigit(n / 10, if w == 0 then 0 else w - 1, k - 1, d);
    }
  }

  lemma RowBefore7(a: seq<Field>, b: seq<Field>)
    requires |a| == |b| == 7
    ensures RowBefore(a, b) <==>
      || a[0].value < b[0].value || (a[0].value == b[0].value && (
         a[1].value < b[1].value || (a[1].value == b[1].value && (
         a[2].value < b[2].value || (a[2].value == b[2].value && (
         a[3].value < b[3].value || (a[3].value == b[3].value && (
         a[4].value < b[4].value || (a[4].value == b[4].value && (
         a[5].value < b[5].value || (a[5].value == b[5].value &&
         a[6].value < b[6].value)))))))))))
  {
    assert a[0..] == a && b[0..] == b && a[7..] == [] && b[7..] == [];
    RowBeforeAt(a, b, 6);
    RowBeforeAt(a, b, 5);
    RowBeforeAt(a, b, 4);
    RowBeforeAt(a, b, 3);
    RowBeforeAt(a, b, 2);
    RowBeforeAt(a, b, 1);
    RowBeforeAt(a, b, 0);
  }

  lemma RowBeforeAt(a: seq<Field>, b: seq<Field>, k: nat)
    requires |a| == |b| && k < |a|
    ensures RowBefore(a[k..], b[k..]) <==>
            a[k].value < b[k].value || (a[k].value == b[k].value && RowBefore(a[k + 1..], b[k + 1..]))
  {
    assert a[k..][1..] == a[k + 1..] && b[k..][1..] == b[k + 1..];
  }

  lemma ClockOrder(day: nat, day': nat)
    requires day < 86400 && day' < 86400
    ensures day < day' <==>
      || day / 3600 < day' / 3600
      || (day / 3600 == day' / 3600 && day % 3600 / 60 < day' % 3600 / 60)
      || (day / 3600 == day' / 3600 && day % 3600 / 60 == day' % 3600 / 60 && day % 60 < day' % 60)
    ensures day == 3600 * (day / 3600) + 60 * (day % 3600 / 60) + day % 60
  {
  }

  lemma RowOfOrder(date: Date, day: nat, millis: nat, date': Date, day': nat, millis': nat)
    requires IsDate(date) && date.year >= 0 && day < 86400
    requires IsDate(date') && date'.year >= 0 && day' < 86400
    ensures RowBefore(RowOf(date, day, millis), RowOf(date', day', millis')) <==>
      Earlier(date, date') || (date == date' && (day < day' || (day == day' && millis < millis')))
  {
    RowBefore7(RowOf(date, day, millis), RowOf(date', day', millis'));
    ClockOrder(day, day');
  }

  lemma SecondsOrder(a: nat, b: nat)
    ensures a < b <==> a / 86400 < b / 86400 || (a / 86400 == b / 86400 && a % 86400 < b % 86400)
  {
  }

  /** Up to the year 9999 the order of timestamps as strings is the order of the times they stand for. */
  lemma StringOrderIsTimeOrder(secs: nat, millis: nat, secs': nat, millis': nat)
    requires millis < 1000 && millis' < 1000 && secs < YEAR_10000 && secs' < YEAR_10000
    ensures Before(Rfc3339(secs, millis), Rfc3339(secs', millis')) <==> 1000 * secs + millis < 1000 * secs' + millis'
  {
    var row, row' := StampRow(secs, millis), StampRow(secs', millis');
    StampFits(secs, millis);
    StampFits(secs', millis');
    RowOrder(row, row');
    YearIsPositive(secs / 86400);
    YearIsPositive(secs' / 86400);
    RowOfOrder(CivilFromDays(secs / 86400), secs % 86400, millis, CivilFromDays(secs' / 86400), secs' % 86400, millis');
    OrderIsKept(secs / 86400, secs' / 86400);
    OrderIsKept(secs' / 86400, secs / 86400);
    SecondsOrder(secs, secs');
  }

  /** String order is time order for all times before second `n`. */
  ghost predicate OrderedUpTo(n: nat) {
    forall secs: nat, millis: nat, secs': nat, millis': nat ::
      secs < n && secs' < n && millis < 1000 && millis' < 1000 ==>
        (Before(Rfc3339(secs, millis), Rfc3339(secs', millis')) <==> 1000 * secs + millis < 1000 * secs' + millis')
  }

  /** The first second of the year 10000 is exactly how far the order of strings can be relied on. */
  lemma OrderedUpToIff(n: nat)
    ensures OrderedUpTo(n) <==> n <= YEAR_10000
  {
    if n <= YEAR_10000 {
      forall secs: nat, millis: nat, secs': nat, millis': nat | secs < n && secs' < n && millis < 1000 && millis' < 1000
        ensures Before(Rfc3339(secs, millis), Rfc3339(secs', millis')) <==> 1000 * secs + millis < 1000 * secs' + millis'
      {
        StringOrderIsTimeOrder(secs, millis, secs', millis');
      }
    } else {
      OrderBreaksAfter9999(YEAR_10000 - 1, 0, YEAR_10000, 0);
      assert Before(Rfc3339(YEAR_10000, 0), Rfc3339(YEAR_10000 - 1, 0));
    }
  }

  // ---------------------------------------------------------------------
  // Reading timestamps back
  // ---------------------------------------------------------------------

  const SHAPE: seq<Field> :=
    [Field(0, 4, "-"), Field(0, 2, "-"), Field(0, 2, "T"), Field(0, 2, ":"), Field(0, 2, ":"), Field(0, 2, "."), Field(0, 3, "Z")]

  /** A `date-time` of section 5.6 of RFC 3339, in UTC and with three digits of a second. */
  predicate IsDateTime(s: string) {
    var v := ReadRow(s, SHAPE);
    && v.Some? && |v.value| == 7
    && IsDate(Date(v.value[0], v.value[1], v.value[2]))
    && v.value[3] <= 23 && v.value[4] <= 59 && v.value[5] <= 59
  }

  /** The milliseconds since the start of 1970 a timestamp stands for. */
  function Instant(s: string): int
    requires IsDateTime(s)
  {
    var v := ReadRow(s, SHAPE).value;
    1000 * (86400 * DayNumber(Date(v[0], v[1], v[2])) + 3600 * v[3] + 60 * v[4] + v[5]) + v[6]
  }

  /** What is printed is a date-time, and reading its fields back gives the millisecond it was printed from. */
  lemma StampRoundTrip(secs: nat, millis: nat)
    requires millis < 1000 && secs < YEAR_10000
    ensures IsDateTime(Rfc3339(secs, millis)) && Instant(Rfc3339(secs, millis)) == 1000 * secs + millis
  {
    var row := StampRow(secs, millis);
    StampFits(secs, millis);
    RowRoundTrip(row, SHAPE);
    var days := secs / 86400;
    YearIsPositive(days);
    ClockOrder(secs % 86400, secs % 86400);
    RoundTrips(days, CivilFromDays(days));
    var date := CivilFromDays(days);
    assert Values(row)[0] == date.year && Values(row)[1] == date.month && Values(row)[2] == date.day;
  }
}
