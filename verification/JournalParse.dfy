/** Reading a QuickBooks journal: rows of text in, journal entries out. */
module JournalParse {
  import opened Prelude

  type Row = seq<string>

  datatype Line = Line(memo: Option<string>, account: string, debit: real, credit: real)

  datatype Head = Head(date: string, kind: string, num: Option<string>, name: Option<string>)

  datatype JournalEntry = JournalEntry(head: Head, lines: seq<Line>)

  // ---------------------------------------------------------------------
  // Cells
  // ---------------------------------------------------------------------

  function Cell(row: Row, i: nat): Option<string> { if i < |row| then Some(row[i]) else None }

  function GetJournalCell(row: Row, col: Option<nat>, offset: nat, fallback: nat): Option<string> {
    if col.Some? then Cell(row, col.value) else Cell(row, offset + fallback)
  }

  predicate Blank(s: string) { Trim(s) == "" }

  function DetectOffset(row: Row): nat { if |row| > 0 && !Blank(row[0]) then 0 else 1 }

  function StrOpt(v: Option<string>): Option<string> {
    if v.Some? && !Blank(v.value) then Some(Trim(v.value)) else None
  }

  function Without(s: string, chars: set<char>): string {
    if s == [] then [] else (if s[0] in chars then [] else [s[0]]) + Without(s[1..], chars)
  }

  /** An amount. `parse` turns the cleaned text into a number, and into zero when it is none. */
  function ParseNum(parse: string -> real, v: Option<string>): real {
    if v.None? || Blank(v.value) then 0.0
    else
      var negative := StartsWith(Trim(v.value), "(") && EndsWith(Trim(v.value), ")");
      var number := parse(Without(v.value, {'$', ',', ' ', '(', ')'}));
      if negative then -number else number
  }

  predicate IsDigit(c: char) { '0' <= c <= '9' }

  predicate IsDateLike(v: Option<string>) {
    v.Some? &&
    var s := Trim(v.value);
    var slash := Split(s, '/');
    || (|slash| == 3 && forall i :: 0 <= i < 3 ==> forall c :: c in slash[i] ==> IsDigit(c))
    || (|s| >= 10 && s[4] == '-' && s[7] == '-' && forall i :: 0 <= i < 10 ==> IsDigit(s[i]) || s[i] == '-')
  }

  function PadTwo(s: string): string { if |s| == 0 then "00" else if |s| == 1 then "0" + s else s }

  function NormalizeDate(v: Option<string>): string {
    var s := Trim(v.GetOr(""));
    var slash := Split(s, '/');
    if |slash| == 3 then
      (if |slash[2]| == 2 then "20" + slash[2] else slash[2]) + "-" + PadTwo(slash[0]) + "-" + PadTwo(slash[1])
    else if |s| >= 10 then s[..10] else s
  }

  // ---------------------------------------------------------------------
  // The header row
  // ---------------------------------------------------------------------

  function NonBlank(row: Row): Row {
    if row == [] then [] else (if Blank(row[0]) then [] else [row[0]]) + NonBlank(row[1..])
  }

  function Has(text: string): string -> bool { (word: string) => Contains(text, word) }

  predicate HeaderSaying(has: string -> bool) {
    || has("phone") || has("email")
    || (has("date")
        && (has("debit") || has("credit") || has("balance"))
        && (has("account") || has("memo") || has("description")))
  }

  predicate IsHeader(row: Row) { HeaderSaying(Has(Lower(JoinWith(NonBlank(row), " ")))) }

  function FirstFrom(rows: seq<Row>, isHeader: Row -> bool, i: nat): (h: nat)
    requires i <= 20
    ensures (exists j :: i <= j < |rows| && j < 20 && isHeader(rows[j])) ==>
              i <= h < |rows| && h < 20 && isHeader(rows[h]) && forall j :: i <= j < h ==> !isHeader(rows[j])
    ensures (forall j :: i <= j < |rows| && j < 20 ==> !isHeader(rows[j])) ==> h == 4
    decreases 20 - i
  {
    if i >= |rows| || i >= 20 then 4 else if isHeader(rows[i]) then i else FirstFrom(rows, isHeader, i + 1)
  }

  /** The first header among the first twenty rows, or else row 4, whether there is one or not. */
  function HeaderRow(rows: seq<Row>): nat { FirstFrom(rows, IsHeader, 0) }

  method FirstHeader(rows: seq<Row>, isHeader: Row -> bool) returns (h: nat)
    ensures h == FirstFrom(rows, isHeader, 0)
  {
    var i := 0;
    while i < |rows| && i < 20
      invariant 0 <= i <= 20
      invariant FirstFrom(rows, isHeader, 0) == FirstFrom(rows, isHeader, i)
    {
      if isHeader(rows[i]) {
        return i;
      }
      i := i + 1;
    }
    return 4;
  }

  // ---------------------------------------------------------------------
  // Columns
  // ---------------------------------------------------------------------

  datatype Column = DateCol | TypeCol | NumCol | NameCol | MemoCol | AccountCol | DebitCol | CreditCol | OtherCol

  datatype JournalCols = JournalCols(
    date: Option<nat>, txType: Option<nat>, num: Option<nat>, name: Option<nat>,
    memo: Option<nat>, account: Option<nat>, debit: Option<nat>, credit: Option<nat>)

  function WordLength(s: string): nat { if s == [] || IsSpace(s[0]) then 0 else 1 + WordLength(s[1..]) }

  lemma WordFits(s: string)
    ensures WordLength(s) <= |s|
    ensures s != [] && !IsSpace(s[0]) ==> WordLength(s) > 0
  {
  }

  function Words(s: string): seq<string>
    decreases |s|
  {
    var t := TrimStart(s);
    if t == [] then []
    else
      WordFits(t);
      [t[..WordLength(t)]] + Words(t[WordLength(t)..])
  }

  /** The first of these words that a label has decides which column it heads. */
  function ColumnSaying(has: string -> bool): Column {
    if has("date") then DateCol
    else if has("type") then TypeCol
    else if has("num") || has("no.") then NumCol
    else if has("name") || has("payee") then NameCol
    else if has("memo") || has("description") then MemoCol
    else if has("account") then AccountCol
    else if has("debit") then DebitCol
    else if has("credit") then CreditCol
    else OtherCol
  }

  function ColumnOf(cell: string): Column { ColumnSaying(Has(JoinWith(Words(Lower(cell)), " "))) }

  /** The last cell that heads the column. */
  function LastOf(row: Row, heads: string -> Column, column: Column): Option<nat> {
    if row == [] then None
    else if heads(row[|row| - 1]) == column then Some(|row| - 1)
    else LastOf(row[..|row| - 1], heads, column)
  }

  lemma {:induction false} LastOfIsLast(row: Row, heads: string -> Column, column: Column)
    ensures match LastOf(row, heads, column)
            case Some(i) => i < |row| && heads(row[i]) == column && forall j :: i < j < |row| ==> heads(row[j]) != column
            case None => forall j :: 0 <= j < |row| ==> heads(row[j]) != column
  {
    if row != [] {
      LastOfIsLast(row[..|row| - 1], heads, column);
    }
  }

  function ColsBy(row: Row, heads: string -> Column): JournalCols {
    JournalCols(LastOf(row, heads, DateCol), LastOf(row, heads, TypeCol), LastOf(row, heads, NumCol), LastOf(row, heads, NameCol),
                LastOf(row, heads, MemoCol), LastOf(row, heads, AccountCol), LastOf(row, heads, DebitCol), LastOf(row, heads, CreditCol))
  }

  function ColsOf(row: Row): JournalCols { ColsBy(row, ColumnOf) }

  function SetColumn(cols: JournalCols, column: Column, i: nat): JournalCols {
    match column
    case DateCol => cols.(date := Some(i))
    case TypeCol => cols.(txType := Some(i))
    case NumCol => cols.(num := Some(i))
    case NameCol => cols.(name := Some(i))
    case MemoCol => cols.(memo := Some(i))
    case AccountCol => cols.(account := Some(i))
    case DebitCol => cols.(debit := Some(i))
    case CreditCol => cols.(credit := Some(i))
    case OtherCol => cols
  }

  lemma LastSnoc(row: Row, cell: string, heads: string -> Column, column: Column)
    ensures LastOf(row + [cell], heads, column) == if heads(cell) == column then Some(|row|) else LastOf(row, heads, column)
  {
    assert (row + [cell])[..|row|] == row;
  }

  lemma ColsSnoc(row: Row, cell: string, heads: string -> Column)
    ensures ColsBy(row + [cell], heads) == SetColumn(ColsBy(row, heads), heads(cell), |row|)
  {
    LastSnoc(row, cell, heads, DateCol);
    LastSnoc(row, cell, heads, TypeCol);
    LastSnoc(row, cell, heads, NumCol);
    LastSnoc(row, cell, heads, NameCol);
    LastSnoc(row, cell, heads, MemoCol);
    LastSnoc(row, cell, heads, AccountCol);
    LastSnoc(row, cell, heads, DebitCol);
    LastSnoc(row, cell, heads, CreditCol);
  }

  /** For every column the last cell that heads it wins. */
  method MapColumns(row: Row, heads: string -> Column) returns (cols: JournalCols)
    ensures cols == ColsBy(row, heads)
  {
    cols := JournalCols(None, None, None, None, None, None, None, None);
    for i := 0 to |row|
      invariant cols == ColsBy(row[..i], heads)
    {
      ColsSnoc(row[..i], row[i], heads);
      assert row[..i + 1] == row[..i] + [row[i]];
      cols := SetColumn(cols, heads(row[i]), i);
    }
    assert row[..|row|] == row;
  }

  // ---------------------------------------------------------------------
  // Rows
  // ---------------------------------------------------------------------

  /** How the rows of one sheet are read. */
  datatype Sheet = Sheet(parse: string -> real, cols: JournalCols)

  function DateCell(sheet: Sheet, row: Row): Option<string> { GetJournalCell(row, sheet.cols.date, DetectOffset(row), 0) }
  function TypeCell(sheet: Sheet, row: Row): Option<string> { GetJournalCell(row, sheet.cols.txType, DetectOffset(row), 1) }
  function NumCell(sheet: Sheet, row: Row): Option<string> { GetJournalCell(row, sheet.cols.num, DetectOffset(row), 2) }
  function NameCell(sheet: Sheet, row: Row): Option<string> { GetJournalCell(row, sheet.cols.name, DetectOffset(row), 3) }
  function MemoCell(sheet: Sheet, row: Row): Option<string> { GetJournalCell(row, sheet.cols.memo, DetectOffset(row), 4) }
  function Account(sheet: Sheet, row: Row): Option<string> { StrOpt(GetJournalCell(row, sheet.cols.account, DetectOffset(row), 5)) }
  function Debit(sheet: Sheet, row: Row): real { ParseNum(sheet.parse, GetJournalCell(row, sheet.cols.debit, DetectOffset(row), 6)) }
  function Credit(sheet: Sheet, row: Row): real { ParseNum(sheet.parse, GetJournalCell(row, sheet.cols.credit, DetectOffset(row), 7)) }

  predicate IsBlankRow(row: Row) { forall i :: 0 <= i < |row| ==> Blank(row[i]) }

  /** A row that names an account and nothing else. */
  predicate IsAccountHeaderRow(sheet: Sheet, row: Row) {
    && !IsDateLike(DateCell(sheet, row))
    && Account(sheet, row).Some?
    && Debit(sheet, row) == 0.0 && Credit(sheet, row) == 0.0
    && Blank(TypeCell(sheet, row).GetOr("")) && Blank(NumCell(sheet, row).GetOr(""))
    && Blank(NameCell(sheet, row).GetOr("")) && Blank(MemoCell(sheet, row).GetOr(""))
  }

  /** What a row contributes: possibly the head of an entry, possibly a line. */
  datatype View = View(head: Option<Head>, line: Option<Line>)

  function ViewOf(sheet: Sheet, row: Row): View {
    if IsBlankRow(row) || IsAccountHeaderRow(sheet, row) then View(None, None)
    else
      View(
        if IsDateLike(DateCell(sheet, row)) then
          Some(Head(NormalizeDate(DateCell(sheet, row)), StrOpt(TypeCell(sheet, row)).GetOr("Journal"),
                    StrOpt(NumCell(sheet, row)), StrOpt(NameCell(sheet, row))))
        else None,
        if Account(sheet, row).Some? then
          Some(Line(StrOpt(MemoCell(sheet, row)), Account(sheet, row).value, Debit(sheet, row), Credit(sheet, row)))
        else None)
  }

  function Reader(sheet: Sheet): Row -> View { row => ViewOf(sheet, row) }

  function Views(rows: seq<Row>, view: Row -> View): (vs: seq<View>)
    ensures |vs| == |rows|
  {
    seq(|rows|, i requires 0 <= i < |rows| => view(rows[i]))
  }

  // ---------------------------------------------------------------------
  // Entries, said outright
  // ---------------------------------------------------------------------

  function LinesOf(vs: seq<View>): seq<Line> {
    if vs == [] then []
    else if vs[0].line.Some? then [vs[0].line.value] + LinesOf(vs[1..])
    else LinesOf(vs[1..])
  }

  /** The rows from the next date row on. */
  function FromDate(vs: seq<View>): (rest: seq<View>)
    ensures |rest| <= |vs|
  {
    if vs == [] || vs[0].head.Some? then vs else FromDate(vs[1..])
  }

  /** The lines of the rows before that. */
  function LinesBeforeDate(vs: seq<View>): seq<Line> {
    if vs == [] || vs[0].head.Some? then []
    else if vs[0].line.Some? then [vs[0].line.value] + LinesBeforeDate(vs[1..])
    else LinesBeforeDate(vs[1..])
  }

  function Add(lines: seq<Line>, line: Option<Line>): seq<Line> { if line.Some? then lines + [line.value] else lines }

  function Entry(head: Head, lines: seq<Line>): seq<JournalEntry> {
    if lines == [] then [] else [JournalEntry(head, lines)]
  }

  /** From one date row to the next is one entry, with the lines between; what comes before the first
      date row belongs to none, and an entry without lines is no entry. */
  function Entries(vs: seq<View>): seq<JournalEntry>
    decreases |vs|
  {
    if vs == [] then []
    else if vs[0].head.None? then Entries(vs[1..])
    else Entry(vs[0].head.value, Add([], vs[0].line) + LinesBeforeDate(vs[1..])) + Entries(FromDate(vs[1..]))
  }

  // ---------------------------------------------------------------------
  // The one-pass loop
  // ---------------------------------------------------------------------

  /** What is still to come when `current` is open and `vs` remain. */
  function Resume(current: Option<JournalEntry>, vs: seq<View>): seq<JournalEntry> {
    if current.None? then Entries(vs)
    else Entry(current.value.head, current.value.lines + LinesBeforeDate(vs)) + Entries(FromDate(vs))
  }

  function Close(entries: seq<JournalEntry>, current: Option<JournalEntry>): seq<JournalEntry> {
    if current.Some? && current.value.lines != [] then entries + [current.value] else entries
  }

  lemma ResumeLine(current: JournalEntry, v: View, rest: seq<View>)
    requires v.head.None?
    ensures Resume(Some(current), [v] + rest) == Resume(Some(current.(lines := Add(current.lines, v.line))), rest)
  {
    assert ([v] + rest)[1..] == rest;
    assert current.lines + LinesBeforeDate([v] + rest) == Add(current.lines, v.line) + LinesBeforeDate(rest);
  }

  lemma ResumeDate(entries: seq<JournalEntry>, current: Option<JournalEntry>, v: View, rest: seq<View>)
    requires v.head.Some?
    ensures entries + Resume(current, [v] + rest)
         == Close(entries, current) + Resume(Some(JournalEntry(v.head.value, Add([], v.line))), rest)
  {
    var vs := [v] + rest;
    assert vs[1..] == rest;
    if current.Some? {
      assert current.value.lines + [] == current.value.lines;
      assert entries + (Entry(current.value.head, current.value.lines) + Entries(vs)) == Close(entries, current) + Entries(vs);
    }
  }

  datatype Progress = Progress(entries: seq<JournalEntry>, current: Option<JournalEntry>)

  /** What a row does to the entries finished so far and to the one still open. */
  function Took(p: Progress, v: View): Progress {
    if v.head.Some? then Progress(Close(p.entries, p.current), Some(JournalEntry(v.head.value, Add([], v.line))))
    else if p.current.Some? then p.(current := Some(p.current.value.(lines := Add(p.current.value.lines, v.line))))
    else p
  }

  lemma TookKeeps(p: Progress, v: View, rest: seq<View>)
    ensures p.entries + Resume(p.current, [v] + rest) == Took(p, v).entries + Resume(Took(p, v).current, rest)
  {
    if v.head.Some? {
      ResumeDate(p.entries, p.current, v, rest);
    } else if p.current.Some? {
      ResumeLine(p.current.value, v, rest);
    } else {
      assert ([v] + rest)[1..] == rest;
    }
  }

  /** One round of the loop, on a row read as `v`. */
  method TakeRow(p: Progress, v: View) returns (p': Progress)
    ensures p' == Took(p, v)
  {
    p' := p;
    if v.head.Some? {
      if p.current.Some? && p.current.value.lines != [] {
        p' := p'.(entries := p.entries + [p.current.value]);
      }
      var next := JournalEntry(v.head.value, []);
      if v.line.Some? {
        next := next.(lines := next.lines + [v.line.value]);
      }
      p' := p'.(current := Some(next));
    } else if p.current.Some? && v.line.Some? {
      p' := p'.(current := Some(p.current.value.(lines := p.current.value.lines + [v.line.value])));
    }
  }

  function SheetOf(parse: string -> real, rows: seq<Row>): Sheet {
    var h := HeaderRow(rows);
    Sheet(parse, ColsOf(if h < |rows| then rows[h] else []))
  }

  function Body(rows: seq<Row>): seq<Row> { if HeaderRow(rows) + 1 <= |rows| then rows[HeaderRow(rows) + 1..] else [] }

  method ParseBody(body: seq<Row>, view: Row -> View) returns (entries: seq<JournalEntry>)
    ensures entries == Entries(Views(body, view))
  {
    var p := Progress([], None);
    ghost var vs := Views(body, view);
    for k := 0 to |body|
      invariant p.entries + Resume(p.current, vs[k..]) == Entries(vs)
    {
      assert vs[k..] == [vs[k]] + vs[k + 1..];
      TookKeeps(p, vs[k], vs[k + 1..]);
      p := TakeRow(p, view(body[k]));
    }
    AtTheEnd(p);
    assert vs[|body|..] == [];
    entries := p.entries;
    if p.current.Some? && p.current.value.lines != [] {
      entries := entries + [p.current.value];
    }
  }

  lemma AtTheEnd(p: Progress)
    ensures p.entries + Resume(p.current, []) == Close(p.entries, p.current)
  {
    var none: seq<View> := [];
    assert Entries(none) == [];
    if p.current.Some? {
      var c := p.current.value;
      assert c.lines + LinesBeforeDate(none) == c.lines;
      assert Resume(p.current, none) == Entry(c.head, c.lines) + Entries(none) == Entry(c.head, c.lines);
    }
  }

  /** One pass over the rows below the header finds the entries that the rows, said outright, stand for. */
  method ParseJournal(parse: string -> real, rows: seq<Row>) returns (entries: seq<JournalEntry>)
    ensures entries == Entries(Views(Body(rows), Reader(SheetOf(parse, rows))))
  {
    var h := FirstHeader(rows, IsHeader);
    var cols := MapColumns(if h < |rows| then rows[h] else [], ColumnOf);
    var sheet := Sheet(parse, cols);
    var body := if h + 1 <= |rows| then rows[h + 1..] else [];
    entries := ParseBody(body, Reader(sheet));
  }
}
