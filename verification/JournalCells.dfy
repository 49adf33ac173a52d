/** What the cells of a journal mean, said of their texts. */
module JournalCells {
  import opened Prelude
  import opened JournalParse

  // ---------------------------------------------------------------------
  // Texts inside texts
  // ---------------------------------------------------------------------

  /** A word to look for: not empty and without white space. */
  predicate IsWord(p: string) { p != "" && forall i :: 0 <= i < |p| ==> !IsSpace(p[i]) }

  predicate StartsApart(b: string) { b == "" || IsSpace(b[0]) }

  /** A word does not reach across white space. */
  lemma ContainsApart(a: string, b: string, p: string)
    requires IsWord(p) && StartsApart(b)
    ensures Contains(a + b, p) <==> Contains(a, p) || Contains(b, p)
  {
    var s := a + b;
    if Contains(a, p) {
      var i :| 0 <= i <= |a| && StartsWith(a[i..], p);
      assert s[i..] == a[i..] + b;
      assert StartsWith(s[i..], p);
    }
    if Contains(b, p) {
      var i :| 0 <= i <= |b| && StartsWith(b[i..], p);
      assert s[|a| + i..] == b[i..];
      assert StartsWith(s[|a| + i..], p);
    }
    if Contains(s, p) {
      var i :| 0 <= i <= |s| && StartsWith(s[i..], p);
      if i + |p| <= |a| {
        assert a[i..][..|p|] == s[i..][..|p|];
        assert StartsWith(a[i..], p);
      } else if i >= |a| {
        assert b[i - |a|..] == s[i..];
        assert StartsWith(b[i - |a|..], p);
      } else {
        assert s[i..][|a| - i] == b[0] == p[|a| - i];
      }
    }
  }

  lemma NothingContains(p: string)
    requires IsWord(p)
    ensures !Contains("", p)
  {
  }

  lemma {:induction false} TrimStartContains(s: string, p: string)
    requires IsWord(p)
    ensures Contains(TrimStart(s), p) <==> Contains(s, p)
  {
    if s != [] && IsSpace(s[0]) {
      TrimStartContains(s[1..], p);
      SpaceInFront(s[..1], s[1..], p);
      assert s[..1] + s[1..] == s;
    }
  }

  lemma SpaceInFront(space: string, s: string, p: string)
    requires IsWord(p) && |space| == 1 && IsSpace(space[0])
    ensures Contains(space + s, p) <==> Contains(s, p)
  {
    if Contains(s, p) {
      var i :| 0 <= i <= |s| && StartsWith(s[i..], p);
      assert (space + s)[i + 1..] == s[i..];
      assert StartsWith((space + s)[i + 1..], p);
    }
    if Contains(space + s, p) {
      var i :| 0 <= i <= |space + s| && StartsWith((space + s)[i..], p);
      assert (space + s)[0] == space[0];
      assert (space + s)[i..] == s[i - 1..];
      assert StartsWith(s[i - 1..], p);
    }
  }

  predicate SomeContains(pieces: seq<string>, p: string) { exists i :: 0 <= i < |pieces| && Contains(pieces[i], p) }

  lemma SomeCons(pieces: seq<string>, p: string)
    requires pieces != []
    ensures SomeContains(pieces, p) <==> Contains(pieces[0], p) || SomeContains(pieces[1..], p)
  {
    if SomeContains(pieces[1..], p) {
      var i :| 0 <= i < |pieces[1..]| && Contains(pieces[1..][i], p);
      assert Contains(pieces[i + 1], p);
    }
    if SomeContains(pieces, p) {
      var i :| 0 <= i < |pieces| && Contains(pieces[i], p);
      if i > 0 {
        assert Contains(pieces[1..][i - 1], p);
      }
    }
  }

  /** A word is in texts joined by spaces exactly when it is in one of them. */
  lemma {:induction false} JoinedContains(pieces: seq<string>, p: string)
    requires IsWord(p)
    ensures Contains(JoinWith(pieces, " "), p) <==> SomeContains(pieces, p)
  {
    if pieces == [] {
      NothingContains(p);
    } else {
      SomeCons(pieces, p);
      if |pieces| > 1 {
        var rest := JoinWith(pieces[1..], " ");
        JoinedContains(pieces[1..], p);
        assert pieces[0] + " " + rest == pieces[0] + (" " + rest);
        ContainsApart(pieces[0], " " + rest, p);
        SpaceInFront(" ", rest, p);
      }
    }
  }

  lemma WordEnds(s: string)
    ensures WordLength(s) <= |s| && StartsApart(s[WordLength(s)..])
  {
    if s != [] && !IsSpace(s[0]) {
      WordEnds(s[1..]);
      assert s[WordLength(s)..] == s[1..][WordLength(s[1..])..];
    }
  }

  /** And it is in a text exactly when it is in one of the text's words. */
  lemma {:induction false} WordsContain(s: string, p: string)
    requires IsWord(p)
    ensures SomeContains(Words(s), p) <==> Contains(s, p)
    decreases |s|
  {
    var t := TrimStart(s);
    TrimStartContains(s, p);
    if t == [] {
      NothingContains(p);
    } else {
      WordFits(t);
      WordEnds(t);
      var word, rest := t[..WordLength(t)], t[WordLength(t)..];
      WordsContain(rest, p);
      OneWordMore(word, rest, Words(rest), p);
      assert word + rest == t;
    }
  }

  lemma OneWordMore(word: string, rest: string, words: seq<string>, p: string)
    requires IsWord(p) && StartsApart(rest) && (SomeContains(words, p) <==> Contains(rest, p))
    ensures SomeContains([word] + words, p) <==> Contains(word + rest, p)
  {
    SomeCons([word] + words, p);
    assert ([word] + words)[1..] == words;
    ContainsApart(word, rest, p);
  }

  // ---------------------------------------------------------------------
  // Labels
  // ---------------------------------------------------------------------

  const COLUMNS: seq<Column> := [DateCol, TypeCol, NumCol, NameCol, MemoCol, AccountCol, DebitCol, CreditCol]

  /** The words that make a label one of a column's. */
  function WordsOfColumn(column: Column): seq<string> {
    match column
    case DateCol => ["date"]
    case TypeCol => ["type"]
    case NumCol => ["num", "no."]
    case NameCol => ["name", "payee"]
    case MemoCol => ["memo", "description"]
    case AccountCol => ["account"]
    case DebitCol => ["debit"]
    case CreditCol => ["credit"]
    case OtherCol => []
  }

  predicate Says(has: string -> bool, column: Column) {
    exists k :: 0 <= k < |WordsOfColumn(column)| && has(WordsOfColumn(column)[k])
  }

  predicate SaysFirst(has: string -> bool, i: nat)
    requires i < |COLUMNS|
  {
    Says(has, COLUMNS[i]) && forall j :: 0 <= j < i ==> !Says(has, COLUMNS[j])
  }

  /** A cell heads a column when it says one of its words, in any case, and none of the columns' before it. */
  predicate Heads(cell: string, i: nat)
    requires i < |COLUMNS|
  {
    SaysFirst(Has(Lower(cell)), i)
  }

  lemma LabelContains(cell: string, p: string)
    requires IsWord(p)
    ensures Contains(JoinWith(Words(Lower(cell)), " "), p) <==> Contains(Lower(cell), p)
  {
    JoinedContains(Words(Lower(cell)), p);
    WordsContain(Lower(cell), p);
  }

  lemma ColumnWordsAreWords(column: Column, k: nat)
    requires k < |WordsOfColumn(column)|
    ensures IsWord(WordsOfColumn(column)[k])
  {
  }

  lemma OneWord(has: string -> bool, column: Column)
    requires |WordsOfColumn(column)| == 1
    ensures Says(has, column) <==> has(WordsOfColumn(column)[0])
  {
  }

  lemma TwoWords(has: string -> bool, column: Column)
    requires |WordsOfColumn(column)| == 2
    ensures Says(has, column) <==> has(WordsOfColumn(column)[0]) || has(WordsOfColumn(column)[1])
  {
  }

  lemma ColumnSayingIs(has: string -> bool, i: nat)
    requires i < |COLUMNS|
    ensures ColumnSaying(has) == COLUMNS[i] <==> SaysFirst(has, i)
  {
    OneWord(has, DateCol);
    OneWord(has, TypeCol);
    TwoWords(has, NumCol);
    TwoWords(has, NameCol);
    TwoWords(has, MemoCol);
    OneWord(has, AccountCol);
    OneWord(has, DebitCol);
    OneWord(has, CreditCol);
    assert Says(has, COLUMNS[0]) == Says(has, DateCol) && Says(has, COLUMNS[1]) == Says(has, TypeCol);
    assert Says(has, COLUMNS[2]) == Says(has, NumCol) && Says(has, COLUMNS[3]) == Says(has, NameCol);
    assert Says(has, COLUMNS[4]) == Says(has, MemoCol) && Says(has, COLUMNS[5]) == Says(has, AccountCol);
    assert Says(has, COLUMNS[6]) == Says(has, DebitCol) && Says(has, COLUMNS[7]) == Says(has, CreditCol);
  }

  lemma SameSaying(has: string -> bool, has': string -> bool, column: Column)
    requires forall k :: 0 <= k < |WordsOfColumn(column)| ==> has(WordsOfColumn(column)[k]) == has'(WordsOfColumn(column)[k])
    ensures Says(has, column) == Says(has', column)
  {
  }

  /** A cell is taken for the header of a column exactly when it heads it. */
  lemma ColumnIs(cell: string, i: nat)
    requires i < |COLUMNS|
    ensures ColumnOf(cell) == COLUMNS[i] <==> Heads(cell, i)
  {
    var tag, text := Has(JoinWith(Words(Lower(cell)), " ")), Has(Lower(cell));
    ColumnSayingIs(tag, i);
    forall column ensures Says(tag, column) == Says(text, column) {
      forall k | 0 <= k < |WordsOfColumn(column)| ensures tag(WordsOfColumn(column)[k]) == text(WordsOfColumn(column)[k]) {
        ColumnWordsAreWords(column, k);
        LabelContains(cell, WordsOfColumn(column)[k]);
      }
      SameSaying(tag, text, column);
    }
  }

  // ---------------------------------------------------------------------
  // The header row
  // ---------------------------------------------------------------------

  predicate SomeCellSays(row: Row, word: string) { exists i :: 0 <= i < |row| && Contains(Lower(row[i]), word) }

  function Lowered(row: Row): Row { seq(|row|, i requires 0 <= i < |row| => Lower(row[i])) }

  lemma LowerConcat(a: string, b: string)
    ensures Lower(a + b) == Lower(a) + Lower(b)
  {
  }

  lemma {:induction false} LowerJoined(row: Row)
    ensures Lower(JoinWith(row, " ")) == JoinWith(Lowered(row), " ")
  {
    if |row| > 1 {
      var rest := JoinWith(row[1..], " ");
      LowerJoined(row[1..]);
      LowerConcat(row[0] + " ", rest);
      LowerConcat(row[0], " ");
      assert Lowered(row)[1..] == Lowered(row[1..]);
      assert Lower(" ") == " ";
    }
  }

  lemma BlankContainsNoWord(s: string, p: string)
    requires Blank(s) && IsWord(p)
    ensures !Contains(Lower(s), p)
  {
    SpaceOnly(s);
    assert forall i :: 0 <= i < |s| ==> IsSpace(Lower(s)[i]);
    assert forall i :: 0 <= i < |s| ==> Lower(s)[i..][0] == Lower(s)[i];
  }

  lemma {:induction false} SpaceOnly(s: string)
    requires Blank(s)
    ensures AllSpace(s)
  {
    if s != [] {
      if IsSpace(s[0]) {
        SpaceOnly(s[1..]);
      } else {
        TrimStartIs([], s);
        NotAllEnd(s);
      }
    }
  }

  lemma {:induction false} NotAllEnd(s: string)
    requires s != [] && !IsSpace(s[0])
    ensures TrimEnd(s) != []
  {
    if IsSpace(s[|s| - 1]) {
      NotAllEnd(s[..|s| - 1]);
    }
  }

  lemma {:induction false} NonBlankSays(row: Row, p: string)
    requires IsWord(p)
    ensures SomeContains(Lowered(NonBlank(row)), p) <==> SomeCellSays(row, p)
  {
    if row != [] {
      NonBlankSays(row[1..], p);
      SomeCellCons(row, p);
      if Blank(row[0]) {
        BlankContainsNoWord(row[0], p);
        assert NonBlank(row) == NonBlank(row[1..]);
      } else {
        LoweredCons(row[0], NonBlank(row[1..]), p);
      }
    }
  }

  lemma LoweredCons(cell: string, rest: Row, p: string)
    ensures SomeContains(Lowered([cell] + rest), p) <==> Contains(Lower(cell), p) || SomeContains(Lowered(rest), p)
  {
    var all := Lowered([cell] + rest);
    assert all[1..] == Lowered(rest) && all[0] == Lower(cell);
    SomeCons(all, p);
  }

  lemma SomeCellCons(row: Row, p: string)
    requires row != []
    ensures SomeCellSays(row, p) <==> Contains(Lower(row[0]), p) || SomeCellSays(row[1..], p)
  {
    if SomeCellSays(row[1..], p) {
      var i :| 0 <= i < |row[1..]| && Contains(Lower(row[1..][i]), p);
      assert Contains(Lower(row[i + 1]), p);
    }
    if SomeCellSays(row, p) {
      var i :| 0 <= i < |row| && Contains(Lower(row[i]), p);
      if i > 0 {
        assert Contains(Lower(row[1..][i - 1]), p);
      }
    }
  }

  lemma RowSays(row: Row, p: string)
    requires IsWord(p)
    ensures Contains(Lower(JoinWith(NonBlank(row), " ")), p) <==> SomeCellSays(row, p)
  {
    LowerJoined(NonBlank(row));
    JoinedContains(Lowered(NonBlank(row)), p);
    NonBlankSays(row, p);
  }

  function CellsSay(row: Row): string -> bool { (word: string) => SomeCellSays(row, word) }

  predicate IsHeaderWord(word: string) {
    word in {"phone", "email", "date", "debit", "credit", "balance", "account", "memo", "description"}
  }

  lemma HeaderWordsAreWords(word: string)
    requires IsHeaderWord(word)
    ensures IsWord(word)
  {
  }

  lemma HeaderBy(has: string -> bool, says: string -> bool)
    requires forall word :: IsHeaderWord(word) ==> has(word) == says(word)
    ensures HeaderSaying(has) <==>
      || says("phone") || says("email")
      || (says("date") && (says("debit") || says("credit") || says("balance"))
          && (says("account") || says("memo") || says("description")))
  {
    assert IsHeaderWord("phone") && IsHeaderWord("email") && IsHeaderWord("date");
    assert IsHeaderWord("debit") && IsHeaderWord("credit") && IsHeaderWord("balance");
    assert IsHeaderWord("account") && IsHeaderWord("memo") && IsHeaderWord("description");
  }

  /** A row is a header exactly when its cells say phone or email, or a date, an amount and what it is for. */
  lemma HeaderIff(row: Row)
    ensures var says := CellsSay(row);
            IsHeader(row) <==>
              || says("phone") || says("email")
              || (says("date") && (says("debit") || says("credit") || says("balance"))
                  && (says("account") || says("memo") || says("description")))
  {
    var has := Has(Lower(JoinWith(NonBlank(row), " ")));
    forall word | IsHeaderWord(word) ensures has(word) == CellsSay(row)(word) {
      HeaderWordsAreWords(word);
      RowSays(row, word);
    }
    HeaderBy(has, CellsSay(row));
  }

  // ---------------------------------------------------------------------
  // Amounts
  // ---------------------------------------------------------------------

  const SIGNS: set<char> := {'$', ',', ' ', '(', ')'}

  lemma {:induction false} WithoutConcat(a: string, b: string, chars: set<char>)
    ensures Without(a + b, chars) == Without(a, chars) + Without(b, chars)
  {
    if a == [] {
      assert a + b == b;
    } else {
      assert (a + b)[1..] == a[1..] + b;
      WithoutConcat(a[1..], b, chars);
    }
  }

  lemma {:induction false} WithoutFree(s: string, chars: set<char>)
    requires forall i :: 0 <= i < |s| ==> s[i] !in chars
    ensures Without(s, chars) == s
  {
    if s != [] {
      WithoutFree(s[1..], chars);
    }
  }

  /** A number by itself: not empty, without white space and without the characters that are taken out. */
  predicate IsPlain(d: string) { IsWord(d) && forall i :: 0 <= i < |d| ==> d[i] !in SIGNS }

  lemma PlainTrims(a: string, d: string, b: string)
    requires IsPlain(d) && (a == "" || a == "(" || a == "$") && (b == "" || b == ")")
    ensures Trim(a + d + b) == a + d + b
  {
    var s := a + d + b;
    assert !IsSpace(s[0]) && !IsSpace(s[|s| - 1]);
    TrimIs("", s, "");
    assert "" + s + "" == s;
  }

  lemma PlainCleans(a: string, d: string, b: string)
    requires IsPlain(d) && (a == "" || a == "(" || a == "$") && (b == "" || b == ")")
    ensures Without(a + d + b, SIGNS) == d
  {
    WithoutConcat(a + d, b, SIGNS);
    WithoutConcat(a, d, SIGNS);
    WithoutFree(d, SIGNS);
    assert Without(a, SIGNS) == "" && Without(b, SIGNS) == "";
  }

  /** A missing or blank amount is zero; a number means itself, also after a dollar sign or with commas in it, and its
      negative in brackets. */
  lemma AmountIs(parse: string -> real, d: string, e: string)
    requires IsPlain(d) && IsPlain(e)
    ensures ParseNum(parse, None) == 0.0 && ParseNum(parse, Some("")) == 0.0
    ensures ParseNum(parse, Some("" + d + "")) == parse(d)
    ensures ParseNum(parse, Some("$" + d + "")) == parse(d)
    ensures ParseNum(parse, Some("(" + d + ")")) == -parse(d)
    ensures ParseNum(parse, Some(d + "," + e)) == parse(d + e)
  {
    PlainAmount(parse, "", d, "");
    PlainAmount(parse, "$", d, "");
    PlainAmount(parse, "(", d, ")");
    CommaAmount(parse, d, e);
  }

  lemma PlainAmount(parse: string -> real, a: string, d: string, b: string)
    requires IsPlain(d) && ((a == "" && b == "") || (a == "$" && b == "") || (a == "(" && b == ")"))
    ensures ParseNum(parse, Some(a + d + b)) == if a == "(" then -parse(d) else parse(d)
  {
    var s := a + d + b;
    PlainTrims(a, d, b);
    PlainCleans(a, d, b);
    assert s[|a|] == d[0];
    if a == "(" {
      assert s[..1] == "(" && s[|s| - 1..] == ")";
    } else {
      assert s[0] != '(';
    }
  }

  lemma CommaAmount(parse: string -> real, d: string, e: string)
    requires IsPlain(d) && IsPlain(e)
    ensures ParseNum(parse, Some(d + "," + e)) == parse(d + e)
  {
    CommaCleans(d, e);
    CommaTrims(d, e);
    assert (d + "," + e)[0] == d[0] != '(';
  }

  lemma CommaCleans(d: string, e: string)
    requires IsPlain(d) && IsPlain(e)
    ensures Without(d + "," + e, SIGNS) == d + e
  {
    WithoutConcat(d + ",", e, SIGNS);
    WithoutConcat(d, ",", SIGNS);
    WithoutFree(d, SIGNS);
    WithoutFree(e, SIGNS);
    assert Without(",", SIGNS) == "" && d + "" == d;
  }

  lemma CommaTrims(d: string, e: string)
    requires IsPlain(d) && IsPlain(e)
    ensures Trim(d + "," + e) == d + "," + e
  {
    var s := d + "," + e;
    TrimIs("", s, "");
    assert "" + s + "" == s;
  }

  // ---------------------------------------------------------------------
  // Dates
  // ---------------------------------------------------------------------

  predicate AllDigits(s: string) { forall c :: c in s ==> IsDigit(c) }

  lemma ThreeParts(m: string, d: string, y: string)
    requires '/' !in m && '/' !in d && '/' !in y
    ensures Split(m + "/" + d + "/" + y, '/') == [m, d, y]
  {
    assert m + "/" + d + "/" + y == m + ['/'] + (d + ['/'] + y);
    SplitAt(m, d + ['/'] + y, '/');
    SplitAt(d, y, '/');
    SplitFree(y, '/');
  }

  /** A month, a day and a year between slashes are a date, written out as year, month and day with two digits each for
      the latter; a year of two digits is one of this century. */
  lemma SlashDate(m: string, d: string, y: string)
    requires AllDigits(m) && AllDigits(d) && AllDigits(y) && m != "" && y != ""
    ensures IsDateLike(Some(m + "/" + d + "/" + y))
    ensures NormalizeDate(Some(m + "/" + d + "/" + y)) ==
            (if |y| == 2 then "20" + y else y) + "-" + PadTwo(m) + "-" + PadTwo(d)
  {
    SlashTrims(m, d, y);
    ThreeParts(m, d, y);
    DateOfParts(m + "/" + d + "/" + y, m, d, y);
  }

  lemma SlashTrims(m: string, d: string, y: string)
    requires AllDigits(m) && AllDigits(y) && m != "" && y != ""
    ensures Trim(m + "/" + d + "/" + y) == m + "/" + d + "/" + y
  {
    var s := m + "/" + d + "/" + y;
    assert m[0] in m && y[|y| - 1] in y;
    assert s[0] == m[0] && s[|s| - 1] == y[|y| - 1];
    TrimIs("", s, "");
    assert "" + s + "" == s;
  }

  lemma DateOfParts(s: string, m: string, d: string, y: string)
    requires Trim(s) == s && Split(s, '/') == [m, d, y] && AllDigits(m) && AllDigits(d) && AllDigits(y)
    ensures IsDateLike(Some(s))
    ensures NormalizeDate(Some(s)) == (if |y| == 2 then "20" + y else y) + "-" + PadTwo(m) + "-" + PadTwo(d)
  {
    var parts := Split(s, '/');
    assert parts[0] == m && parts[1] == d && parts[2] == y;
  }

  lemma PadTwoIs(s: string)
    ensures |s| == 1 ==> PadTwo(s) == "0" + s
    ensures |s| >= 2 ==> PadTwo(s) == s
  {
  }

  /** A date of digits and dashes is taken as it is, up to the day. */
  lemma DashDate(date: string, rest: string)
    requires |date| == 10 && date[4] == '-' && date[7] == '-' && (forall i :: 0 <= i < 10 ==> IsDigit(date[i]) || date[i] == '-')
    requires '/' !in rest && (rest != "" ==> !IsSpace(rest[|rest| - 1]))
    ensures IsDateLike(Some(date + rest)) && NormalizeDate(Some(date + rest)) == date
  {
    var s := date + rest;
    assert !IsSpace(s[0]) && !IsSpace(s[|s| - 1]);
    TrimIs("", s, "");
    assert "" + s + "" == s;
    assert '/' !in s;
    SplitFree(s, '/');
    assert s[..10] == date;
  }

  /** Nothing else is a date. */
  lemma DateLikeOnlyIf(v: Option<string>)
    requires IsDateLike(v)
    ensures v.Some?
    ensures var s := Trim(v.value);
            || (exists m, d, y :: AllDigits(m) && AllDigits(d) && AllDigits(y) && s == m + "/" + d + "/" + y)
            || (|s| >= 10 && s[4] == '-' && s[7] == '-' && forall i :: 0 <= i < 10 ==> IsDigit(s[i]) || s[i] == '-')
  {
    var s := Trim(v.value);
    var slash := Split(s, '/');
    if |slash| == 3 && forall i :: 0 <= i < 3 ==> forall c :: c in slash[i] ==> IsDigit(c) {
      SplitIsJoined(s, '/');
      JoinOfThree(slash);
      assert AllDigits(slash[0]) && AllDigits(slash[1]) && AllDigits(slash[2]);
    }
  }

  lemma JoinOfThree(parts: seq<string>)
    requires |parts| == 3
    ensures JoinWith(parts, ['/']) == parts[0] + "/" + parts[1] + "/" + parts[2]
  {
    assert JoinWith(parts[1..][1..], ['/']) == parts[2];
    assert JoinWith(parts[1..], ['/']) == parts[1] + "/" + parts[2];
    assert parts[0] + "/" + (parts[1] + "/" + parts[2]) == parts[0] + "/" + parts[1] + "/" + parts[2];
  }

  // ---------------------------------------------------------------------
  // Rows
  // ---------------------------------------------------------------------

  const NO_COLUMNS := JournalCols(None, None, None, None, None, None, None, None)

  /** The cells of a row, by the columns that were found, or where none was by their usual place. */
  predicate CellsAre(sheet: Sheet, row: Row, cells: seq<Option<string>>)
    requires |cells| == 8
  {
    && DateCell(sheet, row) == cells[0] && TypeCell(sheet, row) == cells[1] && NumCell(sheet, row) == cells[2]
    && NameCell(sheet, row) == cells[3] && MemoCell(sheet, row) == cells[4]
    && Account(sheet, row) == StrOpt(cells[5])
    && Debit(sheet, row) == ParseNum(sheet.parse, cells[6]) && Credit(sheet, row) == ParseNum(sheet.parse, cells[7])
  }

  function Present(cells: seq<string>): (r: seq<Option<string>>)
    ensures |r| == |cells|
  {
    seq(|cells|, i requires 0 <= i < |cells| => Some(cells[i]))
  }

  /** Where no header was understood, a row is date, type, number, name, memo, account, debit and credit from its first cell
      on, or from its second if the first one is blank. */
  lemma UsualPlaces(parse: string -> real, cells: seq<string>, blank: string)
    requires |cells| == 8 && Blank(blank)
    ensures !Blank(cells[0]) ==> CellsAre(Sheet(parse, NO_COLUMNS), cells, Present(cells))
    ensures CellsAre(Sheet(parse, NO_COLUMNS), [blank] + cells, Present(cells))
  {
  }

  /** Where the headers were understood, each cell is the one below its header. */
  lemma FoundPlaces(sheet: Sheet, row: Row, at: seq<nat>)
    requires |at| == 8
    requires sheet.cols == JournalCols(Some(at[0]), Some(at[1]), Some(at[2]), Some(at[3]), Some(at[4]), Some(at[5]), Some(at[6]), Some(at[7]))
    ensures CellsAre(sheet, row, seq(8, i requires 0 <= i < 8 => Cell(row, at[i])))
  {
  }

  /** What a row is read as, said of its cells: nothing if it is blank or names an account and nothing else; or else
      the head of an entry if its date is one, and a line if it names an account. */
  lemma ViewIs(sheet: Sheet, row: Row, cells: seq<Option<string>>)
    requires |cells| == 8 && CellsAre(sheet, row, cells)
    ensures var dated, named := IsDateLike(cells[0]), !BlankOption(cells[5]);
            var debit, credit := ParseNum(sheet.parse, cells[6]), ParseNum(sheet.parse, cells[7]);
            var bare := !dated && named && debit == 0.0 && credit == 0.0
                        && BlankOption(cells[1]) && BlankOption(cells[2]) && BlankOption(cells[3]) && BlankOption(cells[4]);
            var nothing := IsBlankRow(row) || bare;
            && ViewOf(sheet, row).head == (if nothing || !dated then None
                                           else Some(Head(NormalizeDate(cells[0]), Text(cells[1]).GetOr("Journal"), Text(cells[2]), Text(cells[3]))))
            && ViewOf(sheet, row).line == (if nothing || !named then None else Some(Line(Text(cells[4]), Trim(cells[5].value), debit, credit)))
  {
    assert Blank("");
  }

  /** The trimmed text of a cell that has one. */
  function Text(v: Option<string>): Option<string> { if BlankOption(v) then None else Some(Trim(v.value)) }
}
