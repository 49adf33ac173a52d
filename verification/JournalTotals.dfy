/** Nothing between the first date row and the end of the sheet is lost or counted twice. */
module JournalTotals {
  import opened Prelude
  import opened JournalParse
  import opened JournalCells

  function AllLines(entries: seq<JournalEntry>): seq<Line> {
    if entries == [] then [] else entries[0].lines + AllLines(entries[1..])
  }

  lemma LinesSplit(vs: seq<View>)
    ensures LinesOf(vs) == LinesBeforeDate(vs) + LinesOf(FromDate(vs))
  {
  }

  lemma AllLinesCons(head: Head, lines: seq<Line>, more: seq<JournalEntry>)
    ensures AllLines(Entry(head, lines) + more) == lines + AllLines(more)
  {
    if lines == [] {
      assert Entry(head, lines) + more == more;
    } else {
      assert (Entry(head, lines) + more)[1..] == more;
    }
  }

  lemma {:induction false} FromDateTwice(vs: seq<View>)
    ensures FromDate(FromDate(vs)) == FromDate(vs)
    ensures FromDate(vs) != [] ==> FromDate(vs)[0].head.Some?
    ensures Entries(FromDate(vs)) == Entries(vs)
  {
    if vs != [] && vs[0].head.None? {
      FromDateTwice(vs[1..]);
    }
  }

  /** Put end to end, the lines of the entries are exactly the lines of the rows from the first date row on, in order. */
  lemma {:induction false} LinesConserved(vs: seq<View>)
    ensures AllLines(Entries(vs)) == LinesOf(FromDate(vs))
    decreases |vs|
  {
    if vs == [] {
    } else if vs[0].head.None? {
      LinesConserved(vs[1..]);
    } else {
      LinesConserved(FromDate(vs[1..]));
      FromDateTwice(vs[1..]);
      DateRowConserved(vs);
    }
  }

  lemma DateRowConserved(vs: seq<View>)
    requires vs != [] && vs[0].head.Some?
    requires AllLines(Entries(FromDate(vs[1..]))) == LinesOf(FromDate(vs[1..]))
    ensures AllLines(Entries(vs)) == LinesOf(vs)
  {
    var rest := vs[1..];
    var own, before, after := Add([], vs[0].line), LinesBeforeDate(rest), LinesOf(FromDate(rest));
    LinesSplit(rest);
    AllLinesCons(vs[0].head.value, own + before, Entries(FromDate(rest)));
    assert LinesOf(vs) == own + LinesOf(rest);
    assert own + (before + after) == own + before + after;
  }

  /** Entry `e` is what the date row `vs[r]` begins: its head, and the lines from there to the next date row. */
  predicate BeginsAt(vs: seq<View>, r: nat, e: JournalEntry)
    requires r < |vs|
  {
    vs[r].head == Some(e.head) && e.lines != [] && e.lines == Add([], vs[r].line) + LinesBeforeDate(vs[r + 1..])
  }

  /** Entries begin at the rows `at`, one after the other. */
  ghost predicate BeginAt(vs: seq<View>, at: seq<nat>, entries: seq<JournalEntry>) {
    && |at| == |entries|
    && (forall k :: 0 <= k < |at| ==> at[k] < |vs| && BeginsAt(vs, at[k], entries[k]))
    && (forall j, k :: 0 <= j < k < |at| ==> at[j] < at[k])
  }

  function Shifted(at: seq<nat>, d: nat): seq<nat> { seq(|at|, i requires 0 <= i < |at| => at[i] + d) }

  lemma ShiftBegins(vs: seq<View>, d: nat, at: seq<nat>, entries: seq<JournalEntry>)
    requires d <= |vs| && BeginAt(vs[d..], at, entries)
    ensures BeginAt(vs, Shifted(at, d), entries)
  {
    forall k | 0 <= k < |at| ensures Shifted(at, d)[k] < |vs| && BeginsAt(vs, Shifted(at, d)[k], entries[k]) {
      assert BeginsAt(vs[d..], at[k], entries[k]);
      assert vs[d..][at[k] + 1..] == vs[at[k] + d + 1..];
    }
  }

  lemma FirstBegins(vs: seq<View>, at: seq<nat>, e: JournalEntry, entries: seq<JournalEntry>)
    requires vs != [] && BeginsAt(vs, 0, e) && BeginAt(vs, at, entries) && (forall k :: 0 <= k < |at| ==> 0 < at[k])
    ensures BeginAt(vs, [0] + at, [e] + entries)
  {
    var at', entries' := [0] + at, [e] + entries;
    forall k | 0 <= k < |at'| ensures at'[k] < |vs| && BeginsAt(vs, at'[k], entries'[k]) {
      if k > 0 {
        assert BeginsAt(vs, at[k - 1], entries[k - 1]);
      }
    }
  }

  lemma DateRowBegins(vs: seq<View>, lines: seq<Line>, d: nat, at: seq<nat>, more: seq<JournalEntry>) returns (at': seq<nat>)
    requires vs != [] && vs[0].head.Some? && lines == Add([], vs[0].line) + LinesBeforeDate(vs[1..])
    requires 0 < d <= |vs| && BeginAt(vs[d..], at, more)
    ensures BeginAt(vs, at', Entry(vs[0].head.value, lines) + more)
  {
    ShiftBegins(vs, d, at, more);
    at' := Shifted(at, d);
    if lines != [] {
      FirstBegins(vs, at', JournalEntry(vs[0].head.value, lines), more);
      at' := [0] + at';
    } else {
      assert Entry(vs[0].head.value, lines) + more == more;
    }
  }

  /** Every entry has lines and is what a date row begins, different entries different rows, in order. */
  lemma {:induction false} EntriesAreReal(vs: seq<View>) returns (at: seq<nat>)
    ensures BeginAt(vs, at, Entries(vs))
    decreases |vs|
  {
    if vs == [] {
      at := [];
    } else if vs[0].head.None? {
      at := EntriesAreReal(vs[1..]);
      ShiftBegins(vs, 1, at, Entries(vs[1..]));
      at := Shifted(at, 1);
    } else {
      var rest := FromDate(vs[1..]);
      FromDateIsSuffix(vs[1..]);
      assert vs[|vs| - |rest|..] == rest;
      at := EntriesAreReal(rest);
      at := DateRowBegins(vs, Add([], vs[0].line) + LinesBeforeDate(vs[1..]), |vs| - |rest|, at, Entries(rest));
    }
  }

  lemma {:induction false} FromDateIsSuffix(vs: seq<View>)
    ensures |FromDate(vs)| <= |vs| && FromDate(vs) == vs[|vs| - |FromDate(vs)|..]
  {
    if vs != [] && vs[0].head.None? {
      FromDateIsSuffix(vs[1..]);
    }
  }

  // ---------------------------------------------------------------------
  // Money
  // ---------------------------------------------------------------------

  datatype Side = DebitSide | CreditSide

  function Amount(line: Line, side: Side): real { if side.DebitSide? then line.debit else line.credit }

  function SumLines(lines: seq<Line>, side: Side): real {
    if lines == [] then 0.0 else Amount(lines[0], side) + SumLines(lines[1..], side)
  }

  function SumEntries(entries: seq<JournalEntry>, side: Side): real {
    if entries == [] then 0.0 else SumLines(entries[0].lines, side) + SumEntries(entries[1..], side)
  }

  lemma {:induction false} SumConcat(a: seq<Line>, b: seq<Line>, side: Side)
    ensures SumLines(a + b, side) == SumLines(a, side) + SumLines(b, side)
  {
    if a == [] {
      assert a + b == b;
    } else {
      assert (a + b)[1..] == a[1..] + b;
      SumConcat(a[1..], b, side);
    }
  }

  lemma {:induction false} SumOfEntries(entries: seq<JournalEntry>, side: Side)
    ensures SumEntries(entries, side) == SumLines(AllLines(entries), side)
  {
    if entries != [] {
      SumConcat(entries[0].lines, AllLines(entries[1..]), side);
      SumOfEntries(entries[1..], side);
    }
  }

  /** What a row carries on a side, if it names an account. */
  function Carries(sheet: Sheet, row: Row, side: Side): real {
    if Account(sheet, row).None? then 0.0 else if side.DebitSide? then Debit(sheet, row) else Credit(sheet, row)
  }

  function Column(sheet: Sheet, rows: seq<Row>, side: Side): real {
    if rows == [] then 0.0 else Carries(sheet, rows[0], side) + Column(sheet, rows[1..], side)
  }

  function RowsFromDate(sheet: Sheet, rows: seq<Row>): seq<Row> {
    if rows == [] || IsDateLike(DateCell(sheet, rows[0])) then rows else RowsFromDate(sheet, rows[1..])
  }

  lemma BlankRowsAreEmpty(sheet: Sheet, row: Row)
    requires IsBlankRow(row)
    ensures Account(sheet, row).None? && !IsDateLike(DateCell(sheet, row))
  {
    var date := DateCell(sheet, row);
    if date.Some? {
      assert Blank(date.value);
      assert Split("", '/') == [""];
    }
  }

  /** A row begins an entry exactly when its date cell looks like a date. */
  lemma DateRowsBegin(sheet: Sheet, row: Row)
    ensures ViewOf(sheet, row).head.Some? <==> IsDateLike(DateCell(sheet, row))
  {
    if IsBlankRow(row) {
      BlankRowsAreEmpty(sheet, row);
    }
  }

  /** A row that is passed over carries nothing. */
  lemma ViewCarries(sheet: Sheet, row: Row, side: Side)
    ensures var line := ViewOf(sheet, row).line;
            (if line.Some? then Amount(line.value, side) else 0.0) == Carries(sheet, row, side)
  {
    if IsBlankRow(row) {
      BlankRowsAreEmpty(sheet, row);
    }
  }

  lemma {:induction false} ColumnOfLines(sheet: Sheet, rows: seq<Row>, side: Side)
    ensures SumLines(LinesOf(Views(rows, Reader(sheet))), side) == Column(sheet, rows, side)
  {
    if rows != [] {
      var vs := Views(rows, Reader(sheet));
      assert vs[1..] == Views(rows[1..], Reader(sheet));
      assert vs[0] == ViewOf(sheet, rows[0]);
      ColumnOfLines(sheet, rows[1..], side);
      ViewCarries(sheet, rows[0], side);
    }
  }

  lemma {:induction false} FromDateRows(sheet: Sheet, rows: seq<Row>)
    ensures FromDate(Views(rows, Reader(sheet))) == Views(RowsFromDate(sheet, rows), Reader(sheet))
  {
    if rows != [] {
      var vs := Views(rows, Reader(sheet));
      assert vs[1..] == Views(rows[1..], Reader(sheet));
      assert vs[0] == ViewOf(sheet, rows[0]);
      DateRowsBegin(sheet, rows[0]);
      FromDateRows(sheet, rows[1..]);
    }
  }

  /** What the entries add up to is the column's sum over all rows that name an account, from the first date row on. */
  lemma MoneyConserved(sheet: Sheet, rows: seq<Row>, side: Side)
    ensures SumEntries(Entries(Views(rows, Reader(sheet))), side) == Column(sheet, RowsFromDate(sheet, rows), side)
  {
    var vs := Views(rows, Reader(sheet));
    SumOfEntries(Entries(vs), side);
    LinesConserved(vs);
    FromDateRows(sheet, rows);
    ColumnOfLines(sheet, RowsFromDate(sheet, rows), side);
  }

  /** The totals the import report sets against the trial balance. */
  method JournalWithTotals(parse: string -> real, rows: seq<Row>) returns (entries: seq<JournalEntry>, debit: real, credit: real)
    ensures entries == Entries(Views(Body(rows), Reader(SheetOf(parse, rows))))
    ensures debit == Column(SheetOf(parse, rows), RowsFromDate(SheetOf(parse, rows), Body(rows)), DebitSide)
    ensures credit == Column(SheetOf(parse, rows), RowsFromDate(SheetOf(parse, rows), Body(rows)), CreditSide)
  {
    entries := ParseJournal(parse, rows);
    debit, credit := SumEntries(entries, DebitSide), SumEntries(entries, CreditSide);
    MoneyConserved(SheetOf(parse, rows), Body(rows), DebitSide);
    MoneyConserved(SheetOf(parse, rows), Body(rows), CreditSide);
  }

  // ---------------------------------------------------------------------
  // The same by the labels of the header row
  // ---------------------------------------------------------------------

  /** The last cell of the header row that heads the column is at `at`. */
  predicate LastHeads(row: Row, i: nat, at: nat)
    requires i < |COLUMNS|
  {
    at < |row| && Heads(row[at], i) && forall j :: at < j < |row| ==> !Heads(row[j], i)
  }

  lemma LastHeadIs(row: Row, i: nat, at: nat)
    requires i < |COLUMNS| && LastHeads(row, i, at)
    ensures LastOf(row, ColumnOf, COLUMNS[i]) == Some(at)
  {
    ColumnIs(row[at], i);
    forall j | at < j < |row| ensures ColumnOf(row[j]) != COLUMNS[i] {
      ColumnIs(row[j], i);
    }
    LastOfIs(row, ColumnOf, COLUMNS[i], at);
  }

  lemma LastOfIs(row: Row, heads: string -> JournalParse.Column, column: JournalParse.Column, at: nat)
    requires at < |row| && heads(row[at]) == column && forall j :: at < j < |row| ==> heads(row[j]) != column
    ensures LastOf(row, heads, column) == Some(at)
  {
    LastOfIsLast(row, heads, column);
  }

  predicate NamesAccount(row: Row, account: nat) { !BlankOption(Cell(row, account)) }

  /** The sum of a column over the rows that name an account. */
  function CellSum(parse: string -> real, rows: seq<Row>, account: nat, column: nat): real {
    if rows == [] then 0.0
    else
      (if NamesAccount(rows[0], account) then ParseNum(parse, Cell(rows[0], column)) else 0.0)
      + CellSum(parse, rows[1..], account, column)
  }

  function FromDateCell(rows: seq<Row>, date: nat): seq<Row> {
    if rows == [] || IsDateLike(Cell(rows[0], date)) then rows else FromDateCell(rows[1..], date)
  }

  /** How a sheet is read whose header row labels its columns so. */
  predicate IsLabelled(sheet: Sheet, date: nat, account: nat, debit: nat, credit: nat) {
    sheet.cols.date == Some(date) && sheet.cols.account == Some(account) && sheet.cols.debit == Some(debit) && sheet.cols.credit == Some(credit)
  }

  lemma {:induction false} ColumnBelow(sheet: Sheet, rows: seq<Row>, side: Side, date: nat, account: nat, debit: nat, credit: nat)
    requires IsLabelled(sheet, date, account, debit, credit)
    ensures Column(sheet, rows, side) == CellSum(sheet.parse, rows, account, if side.DebitSide? then debit else credit)
  {
    if rows != [] {
      ColumnBelow(sheet, rows[1..], side, date, account, debit, credit);
    }
  }

  lemma {:induction false} DateBelow(sheet: Sheet, rows: seq<Row>, date: nat)
    requires sheet.cols.date == Some(date)
    ensures RowsFromDate(sheet, rows) == FromDateCell(rows, date)
  {
    if rows != [] {
      DateBelow(sheet, rows[1..], date);
    }
  }

  /** In a sheet whose header row has its last date label at `date`, and so on, the total debit is the sum of what stands
      below the debit label, and the total credit of what stands below the credit label, over the rows with a text below
      the account label, from the first row with a date below the date label on. */
  lemma TotalsByLabel(parse: string -> real, rows: seq<Row>, date: nat, account: nat, debit: nat, credit: nat)
    requires HeaderRow(rows) < |rows|
    requires var header := rows[HeaderRow(rows)];
             LastHeads(header, 0, date) && LastHeads(header, 5, account) && LastHeads(header, 6, debit) && LastHeads(header, 7, credit)
    ensures var sheet, counted := SheetOf(parse, rows), FromDateCell(rows[HeaderRow(rows) + 1..], date);
            && Column(sheet, RowsFromDate(sheet, Body(rows)), DebitSide) == CellSum(parse, counted, account, debit)
            && Column(sheet, RowsFromDate(sheet, Body(rows)), CreditSide) == CellSum(parse, counted, account, credit)
  {
    var header, sheet := rows[HeaderRow(rows)], SheetOf(parse, rows);
    LastHeadIs(header, 0, date);
    LastHeadIs(header, 5, account);
    LastHeadIs(header, 6, debit);
    LastHeadIs(header, 7, credit);
    assert IsLabelled(sheet, date, account, debit, credit);
    DateBelow(sheet, Body(rows), date);
    ColumnBelow(sheet, FromDateCell(Body(rows), date), DebitSide, date, account, debit, credit);
    ColumnBelow(sheet, FromDateCell(Body(rows), date), CreditSide, date, account, debit, credit);
  }
}
