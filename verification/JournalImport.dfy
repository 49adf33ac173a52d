/** Posting a journal: each entry is judged, and a good one is written as a header, its lines and their ledger rows. */
module JournalImport {
  import opened Prelude
  import opened JournalParse
  import opened JournalTotals

  datatype Verdict = MissingMap | TooFew | Unbalanced | Good

  function Abs(x: real): real { if x < 0.0 then -x else x }

  /** Two totals differ by at most `n` cents. */
  predicate WithinCents(debit: real, credit: real, n: nat) { Abs(debit - credit) <= 0.01 * n as real }

  lemma MoreCents(debit: real, credit: real, n: nat, m: nat)
    requires WithinCents(debit, credit, n) && n <= m
    ensures WithinCents(debit, credit, m)
  {
    assert 0.01 * n as real <= 0.01 * m as real;
  }

  predicate Mapped(accounts: map<string, string>, lines: seq<Line>) {
    forall i :: 0 <= i < |lines| ==> lines[i].account in accounts
  }

  function Missing(accounts: map<string, string>, lines: seq<Line>): set<string> {
    set i | 0 <= i < |lines| && lines[i].account !in accounts :: lines[i].account
  }

  function Judge(accounts: map<string, string>, lines: seq<Line>): Verdict {
    if !Mapped(accounts, lines) then MissingMap
    else if |lines| < 2 then TooFew
    else if Abs(SumLines(lines, DebitSide) - SumLines(lines, CreditSide)) > 0.01 then Unbalanced
    else Good
  }

  /** An entry is good exactly when all its accounts have ids, it has two lines at least, and its debits and credits are
      within a cent of each other; otherwise the first of these that fails is what is wrong with it. */
  lemma JudgeIs(accounts: map<string, string>, lines: seq<Line>)
    ensures var off := SumLines(lines, DebitSide) - SumLines(lines, CreditSide);
            var missing := exists i :: 0 <= i < |lines| && lines[i].account !in accounts;
            && (Judge(accounts, lines) == MissingMap <==> missing)
            && (Judge(accounts, lines) == TooFew <==> !missing && |lines| < 2)
            && (Judge(accounts, lines) == Unbalanced <==> !missing && |lines| >= 2 && (off > 0.01 || off < -0.01))
            && (Judge(accounts, lines) == Good <==> !missing && |lines| >= 2 && -0.01 <= off <= 0.01)
  {
  }

  datatype Posting = Posting(accountId: string, description: Option<string>, debit: real, credit: real, sortOrder: nat)

  function Postings(accounts: map<string, string>, lines: seq<Line>): seq<Posting>
    requires Mapped(accounts, lines)
  {
    seq(|lines|, i requires 0 <= i < |lines| =>
      Posting(accounts[lines[i].account], lines[i].memo, lines[i].debit, lines[i].credit, i))
  }

  /** A line is posted under the id of its own account, with its memo, its amounts and its place. */
  lemma PostingIs(accounts: map<string, string>, lines: seq<Line>, i: nat)
    requires Mapped(accounts, lines) && i < |lines|
    ensures |Postings(accounts, lines)| == |lines|
    ensures var p := Postings(accounts, lines)[i];
            && p.accountId == accounts[lines[i].account] && p.description == lines[i].memo
            && p.debit == lines[i].debit && p.credit == lines[i].credit && p.sortOrder == i
  {
  }

  /** The lines as they will be posted, and the accounts that have no id. */
  method MapLines(accounts: map<string, string>, lines: seq<Line>) returns (payload: seq<Posting>, unmapped: set<string>, missing: bool)
    ensures missing <==> !Mapped(accounts, lines)
    ensures unmapped == Missing(accounts, lines)
    ensures !missing ==> payload == Postings(accounts, lines)
  {
    payload, unmapped, missing := [], {}, false;
    for i := 0 to |lines|
      invariant missing <==> !Mapped(accounts, lines[..i])
      invariant unmapped == Missing(accounts, lines[..i])
      invariant !missing ==> payload == Postings(accounts, lines[..i])
    {
      var line := lines[i];
      MissingSnoc(accounts, lines[..i], line);
      assert lines[..i + 1] == lines[..i] + [line];
      if line.account !in accounts {
        unmapped := unmapped + {line.account};
        missing := true;
        assert lines[..i + 1][i] == line;
        continue;
      }
      payload := payload + [Posting(accounts[line.account], line.memo, line.debit, line.credit, i)];
    }
    assert lines[..|lines|] == lines;
  }

  lemma MissingSnoc(accounts: map<string, string>, lines: seq<Line>, line: Line)
    ensures Missing(accounts, lines + [line]) == Missing(accounts, lines) + if line.account in accounts then {} else {line.account}
  {
    var all := lines + [line];
    forall a | a in Missing(accounts, lines) ensures a in Missing(accounts, all) {
      var i :| 0 <= i < |lines| && lines[i].account !in accounts && lines[i].account == a;
      assert all[i].account == a;
    }
    assert all[|lines|] == line;
  }

  // ---------------------------------------------------------------------
  // Rounding
  // ---------------------------------------------------------------------

  /** To the nearest integer, halves away from zero. */
  function Round(x: real): int { if x >= 0.0 then (x + 0.5).Floor else -((0.5 - x).Floor) }

  function Round2(v: real): real { Round(v * 100.0) as real / 100.0 }

  /** A rounded amount is a whole number of cents, at most half a cent away, and a half goes away from zero. */
  lemma RoundIsNearest(v: real)
    ensures Round2(v) * 100.0 == (Round2(v) * 100.0).Floor as real
    ensures v >= 0.0 ==> -0.005 < Round2(v) - v <= 0.005
    ensures v < 0.0 ==> -0.005 <= Round2(v) - v < 0.005
  {
    assert Round2(v) == Round(v * 100.0) as real / 100.0;
  }

  lemma RoundSpread(x: real, y: real)
    requires x - 1.0 <= y <= x
    ensures 0 <= Round(x) - Round(y) <= 2
    ensures Round(x) - Round(y) == 2 <==> x == 0.5 && y == -0.5
  {
    if y >= 0.0 {
    } else if x < 0.0 {
    } else {
      assert x < 1.0 && -1.0 <= y;
      assert Round(x) == if x >= 0.5 then 1 else 0;
      assert Round(y) == if y <= -0.5 then -1 else 0;
    }
  }

  predicate IsHalfCentPair(debit: real, credit: real) {
    (debit == 0.005 && credit == -0.005) || (debit == -0.005 && credit == 0.005)
  }

  /** Totals within a cent of each other are stored within a cent of each other, with one exception:
      half a cent against minus half a cent, which round to two cents apart. */
  lemma StoredTotalsSpread(debit: real, credit: real)
    requires Abs(debit - credit) <= 0.01
    ensures Abs(Round2(debit) - Round2(credit)) <= 0.02
    ensures Abs(Round2(debit) - Round2(credit)) > 0.01 <==> IsHalfCentPair(debit, credit)
  {
    if credit <= debit {
      RoundSpread(debit * 100.0, credit * 100.0);
    } else {
      RoundSpread(credit * 100.0, debit * 100.0);
    }
  }

  // ---------------------------------------------------------------------
  // One entry after the other
  // ---------------------------------------------------------------------

  /** What the data plane does with the three writes of an entry. A stored header may come back without its id, and
      the answer to stored lines may be lost; an error in the answer, or none, is one to the gateway. */
  datatype HeaderReply = HeaderFailed | HeaderStored(returned: bool)
  datatype LinesReply = LinesFailed | LinesUnanswered | LinesStored
  datatype EntryIo = EntryIo(header: HeaderReply, lines: LinesReply, ledgerOk: bool)

  /** A stored header. One whose lines were not stored has none. */
  datatype Header = Header(number: nat, debit: real, credit: real, postings: seq<Posting>)

  datatype Import = Import(
    imported: nat, errors: nat, totalLines: nat, unmapped: set<string>,
    headers: seq<Header>, ledger: seq<Posting>)

  const NOTHING := Import(0, 0, 0, {}, [], [])

  /** The lines are in the table. */
  predicate Posted(io: EntryIo) { io.header.HeaderStored? && io.header.returned && !io.lines.LinesFailed? }

  /** And the gateway knows. */
  predicate Written(io: EntryIo) { Posted(io) && io.lines.LinesStored? }

  function HeaderOf(number: nat, debit: real, credit: real, postings: seq<Posting>): Header {
    Header(number, Round2(debit), Round2(credit), postings)
  }

  function Write(s: Import, number: nat, debit: real, credit: real, postings: seq<Posting>, io: EntryIo): Import {
    if io.header.HeaderFailed? then s.(errors := s.errors + 1)
    else if !Written(io) then
      s.(errors := s.errors + 1, headers := s.headers + [HeaderOf(number, debit, credit, if Posted(io) then postings else [])])
    else
      s.(imported := s.imported + 1, headers := s.headers + [HeaderOf(number, debit, credit, postings)],
         ledger := if io.ledgerOk then s.ledger + postings else s.ledger)
  }

  /** The writes of one entry; a failed ledger write is passed over. */
  method PostEntry(before: Import, number: nat, debit: real, credit: real, payload: seq<Posting>, io: EntryIo) returns (s: Import)
    ensures s == Write(before, number, debit, credit, payload, io)
  {
    s := before;
    if io.header.HeaderFailed? {
      s := s.(errors := s.errors + 1);
      return;
    }
    var stored := Header(number, Round2(debit), Round2(credit), []);
    if !io.header.returned {
      s := s.(errors := s.errors + 1, headers := s.headers + [stored]);
      return;
    }
    if !io.lines.LinesFailed? {
      stored := stored.(postings := payload);
    }
    s := s.(headers := s.headers + [stored]);
    if !io.lines.LinesStored? {
      s := s.(errors := s.errors + 1);
      return;
    }
    if io.ledgerOk {
      s := s.(ledger := s.ledger + payload);
    }
    s := s.(imported := s.imported + 1);
  }

  function One(s: Import, accounts: map<string, string>, lines: seq<Line>, number: nat, dryRun: bool, io: EntryIo): Import {
    var s1 := s.(unmapped := s.unmapped + Missing(accounts, lines));
    if Judge(accounts, lines) != Good then s1.(errors := s1.errors + 1)
    else
      var s2 := s1.(totalLines := s1.totalLines + |lines|);
      if dryRun then s2.(imported := s2.imported + 1)
      else Write(s2, number, SumLines(lines, DebitSide), SumLines(lines, CreditSide), Postings(accounts, lines), io)
  }

  function All(accounts: map<string, string>, entries: seq<JournalEntry>, dryRun: bool, io: seq<EntryIo>): Import
    requires |io| == |entries|
  {
    if entries == [] then NOTHING
    else
      var n := |entries| - 1;
      One(All(accounts, entries[..n], dryRun, io[..n]), accounts, entries[n].lines, n + 1, dryRun, io[n])
  }

  /** Judges an entry and writes it if it is good; the lines are counted before they are written. */
  method TakeEntry(before: Import, accounts: map<string, string>, lines: seq<Line>, number: nat, dryRun: bool, io: EntryIo) returns (s: Import)
    ensures s == One(before, accounts, lines, number, dryRun, io)
  {
    s := before;
    var payload, unmapped, missing := MapLines(accounts, lines);
    s := s.(unmapped := s.unmapped + unmapped);
    if missing || |payload| < 2 {
      s := s.(errors := s.errors + 1);
      return;
    }
    var debit, credit := SumLines(lines, DebitSide), SumLines(lines, CreditSide);
    if Abs(debit - credit) > 0.01 {
      s := s.(errors := s.errors + 1);
      return;
    }
    s := s.(totalLines := s.totalLines + |payload|);
    if dryRun {
      s := s.(imported := s.imported + 1);
      return;
    }
    s := PostEntry(s, number, debit, credit, payload, io);
  }

  method ImportJournal(accounts: map<string, string>, entries: seq<JournalEntry>, dryRun: bool, io: seq<EntryIo>) returns (s: Import)
    requires |io| == |entries|
    ensures s == All(accounts, entries, dryRun, io)
  {
    s := NOTHING;
    for k := 0 to |entries|
      invariant s == All(accounts, entries[..k], dryRun, io[..k])
    {
      assert entries[..k + 1][..k] == entries[..k] && io[..k + 1][..k] == io[..k];
      s := TakeEntry(s, accounts, entries[k].lines, k + 1, dryRun, io[k]);
    }
    assert entries[..|entries|] == entries && io[..|entries|] == io;
  }

  // ---------------------------------------------------------------------
  // Every entry is accounted for
  // ---------------------------------------------------------------------

  predicate Imports(accounts: map<string, string>, lines: seq<Line>, dryRun: bool, io: EntryIo) {
    Judge(accounts, lines) == Good && (dryRun || Written(io))
  }

  /** The entries that get in, in order. */
  function Kept(accounts: map<string, string>, entries: seq<JournalEntry>, dryRun: bool, io: seq<EntryIo>): seq<JournalEntry>
    requires |io| == |entries|
  {
    if entries == [] then []
    else
      var n := |entries| - 1;
      Kept(accounts, entries[..n], dryRun, io[..n]) + if Imports(accounts, entries[n].lines, dryRun, io[n]) then [entries[n]] else []
  }

  function AccountsOf(entries: seq<JournalEntry>): set<string> {
    set i, j | 0 <= i < |entries| && 0 <= j < |entries[i].lines| :: entries[i].lines[j].account
  }

  lemma {:induction false} EveryEntryIsCounted(accounts: map<string, string>, entries: seq<JournalEntry>, dryRun: bool, io: seq<EntryIo>)
    requires |io| == |entries|
    ensures var s := All(accounts, entries, dryRun, io);
            && s.imported + s.errors == |entries|
            && s.imported == |Kept(accounts, entries, dryRun, io)|
  {
    if entries != [] {
      EveryEntryIsCounted(accounts, entries[..|entries| - 1], dryRun, io[..|entries| - 1]);
    }
  }

  lemma AccountsSnoc(entries: seq<JournalEntry>)
    requires entries != []
    ensures var n := |entries| - 1;
            AccountsOf(entries) == AccountsOf(entries[..n]) + (set j | 0 <= j < |entries[n].lines| :: entries[n].lines[j].account)
  {
    var n := |entries| - 1;
    forall a | a in AccountsOf(entries[..n]) ensures a in AccountsOf(entries) {
      var i, j :| 0 <= i < n && 0 <= j < |entries[..n][i].lines| && entries[..n][i].lines[j].account == a;
      assert entries[i].lines[j].account == a;
    }
    forall a | a in AccountsOf(entries)
      ensures a in AccountsOf(entries[..n]) + (set j | 0 <= j < |entries[n].lines| :: entries[n].lines[j].account)
    {
      var i, j :| 0 <= i < |entries| && 0 <= j < |entries[i].lines| && entries[i].lines[j].account == a;
      if i < n {
        assert entries[..n][i].lines[j].account == a;
      }
    }
  }

  /** The unmapped accounts are exactly those that some line names and that have no id. */
  lemma {:induction false} UnmappedIsExact(accounts: map<string, string>, entries: seq<JournalEntry>, dryRun: bool, io: seq<EntryIo>)
    requires |io| == |entries|
    ensures All(accounts, entries, dryRun, io).unmapped == AccountsOf(entries) - accounts.Keys
  {
    if entries != [] {
      var n := |entries| - 1;
      UnmappedIsExact(accounts, entries[..n], dryRun, io[..n]);
      AccountsSnoc(entries);
      assert Missing(accounts, entries[n].lines) ==
             (set j | 0 <= j < |entries[n].lines| :: entries[n].lines[j].account) - accounts.Keys;
    }
  }

  lemma {:induction false} SumSnoc(entries: seq<JournalEntry>, e: JournalEntry, side: Side)
    ensures SumEntries(entries + [e], side) == SumEntries(entries, side) + SumLines(e.lines, side)
    decreases |entries|
  {
    if entries != [] {
      assert (entries + [e])[1..] == entries[1..] + [e];
      SumSnoc(entries[1..], e, side);
    }
  }

  /** Every entry that gets in has at least two lines, all mapped, and balances to the cent; together
      they are out of balance by at most a cent each. */
  lemma {:induction false} ImportedBalance(accounts: map<string, string>, entries: seq<JournalEntry>, dryRun: bool, io: seq<EntryIo>)
    requires |io| == |entries|
    ensures var kept := Kept(accounts, entries, dryRun, io);
            && (forall k :: 0 <= k < |kept| ==> Judge(accounts, kept[k].lines) == Good)
            && WithinCents(SumEntries(kept, DebitSide), SumEntries(kept, CreditSide), |kept|)
  {
    if entries != [] {
      var n := |entries| - 1;
      ImportedBalance(accounts, entries[..n], dryRun, io[..n]);
      var before := Kept(accounts, entries[..n], dryRun, io[..n]);
      if Imports(accounts, entries[n].lines, dryRun, io[n]) {
        SumSnoc(before, entries[n], DebitSide);
        SumSnoc(before, entries[n], CreditSide);
      } else {
        assert before + [] == before;
      }
    }
  }

  // ---------------------------------------------------------------------
  // What is in the tables afterwards
  // ---------------------------------------------------------------------

  function Complete(headers: seq<Header>): seq<Header> {
    if headers == [] then []
    else
      var n := |headers| - 1;
      Complete(headers[..n]) + if headers[n].postings == [] then [] else [headers[n]]
  }

  lemma CompleteSnoc(headers: seq<Header>, h: Header)
    ensures Complete(headers + [h]) == Complete(headers) + if h.postings == [] then [] else [h]
  {
    assert (headers + [h])[..|headers|] == headers;
  }

  /** A header stands for an entry: its postings are the entry's lines under their ids, its totals their rounded sums. */
  predicate StandsFor(accounts: map<string, string>, h: Header, e: JournalEntry) {
    && Mapped(accounts, e.lines) && h.postings == Postings(accounts, e.lines)
    && h.debit == Round2(SumLines(e.lines, DebitSide)) && h.credit == Round2(SumLines(e.lines, CreditSide))
  }

  predicate StandFor(accounts: map<string, string>, headers: seq<Header>, kept: seq<JournalEntry>) {
    |headers| == |kept| && forall k :: 0 <= k < |headers| ==> StandsFor(accounts, headers[k], kept[k])
  }

  function EachIo(f: EntryIo -> EntryIo, io: seq<EntryIo>): (r: seq<EntryIo>)
    ensures |r| == |io|
  {
    seq(|io|, i requires 0 <= i < |io| => f(io[i]))
  }

  lemma EachSame(f: EntryIo -> EntryIo, io: seq<EntryIo>)
    requires forall i :: 0 <= i < |io| ==> f(io[i]) == io[i]
    ensures EachIo(f, io) == io
  {
  }

  lemma EachSnoc(f: EntryIo -> EntryIo, io: seq<EntryIo>)
    requires io != []
    ensures EachIo(f, io)[..|io| - 1] == EachIo(f, io[..|io| - 1]) && EachIo(f, io)[|io| - 1] == f(io[|io| - 1])
  {
  }

  /** The entries whose lines are in the table are those that would get in if no answer were lost. */
  function AnsweredIo(io: EntryIo): EntryIo { if io.lines.LinesUnanswered? then io.(lines := LinesStored) else io }

  function Answered(io: seq<EntryIo>): (r: seq<EntryIo>)
    ensures |r| == |io|
  {
    EachIo(AnsweredIo, io)
  }

  /** An entry whose header gets stored and that is reported as an error. */
  predicate LeavesHeader(accounts: map<string, string>, lines: seq<Line>, io: EntryIo) {
    Judge(accounts, lines) == Good && io.header.HeaderStored? && !Written(io)
  }

  function Leftovers(accounts: map<string, string>, entries: seq<JournalEntry>, io: seq<EntryIo>): nat
    requires |io| == |entries|
  {
    if entries == [] then 0
    else
      var n := |entries| - 1;
      Leftovers(accounts, entries[..n], io[..n]) + Bit(LeavesHeader(accounts, entries[n].lines, io[n]))
  }

  /** After a real run the headers that have lines are exactly the entries whose lines were stored, answered or not, in
      order; and there is one header for each imported entry and one for each entry that leaves its header behind. */
  lemma {:induction false} HeadersStandForImports(accounts: map<string, string>, entries: seq<JournalEntry>, io: seq<EntryIo>)
    requires |io| == |entries|
    ensures var s := All(accounts, entries, false, io);
            && StandFor(accounts, Complete(s.headers), Kept(accounts, entries, false, Answered(io)))
            && |s.headers| == s.imported + Leftovers(accounts, entries, io)
            && Leftovers(accounts, entries, io) <= s.errors
  {
    if entries != [] {
      var n := |entries| - 1;
      HeadersStandForImports(accounts, entries[..n], io[..n]);
      EachSnoc(AnsweredIo, io);
      var before := All(accounts, entries[..n], false, io[..n]);
      var kept := Kept(accounts, entries[..n], false, Answered(io[..n]));
      OneHeader(before, accounts, entries[n], kept, Leftovers(accounts, entries[..n], io[..n]), n + 1, io[n]);
    }
  }

  /** The header that a good entry stores, if it stores one. */
  function HeaderFor(accounts: map<string, string>, lines: seq<Line>, number: nat, io: EntryIo): Header
    requires Mapped(accounts, lines)
  {
    HeaderOf(number, SumLines(lines, DebitSide), SumLines(lines, CreditSide), if Posted(io) then Postings(accounts, lines) else [])
  }

  lemma OneAddsHeader(s: Import, accounts: map<string, string>, lines: seq<Line>, number: nat, io: EntryIo)
    ensures var s' := One(s, accounts, lines, number, false, io);
            && s'.headers == (if Judge(accounts, lines) == Good && io.header.HeaderStored?
                              then s.headers + [HeaderFor(accounts, lines, number, io)] else s.headers)
            && s'.imported == s.imported + Bit(Imports(accounts, lines, false, io))
            && s'.errors == s.errors + Bit(!Imports(accounts, lines, false, io))
  {
  }

  lemma OneHeader(s: Import, accounts: map<string, string>, e: JournalEntry, kept: seq<JournalEntry>, left: nat, number: nat, io: EntryIo)
    requires StandFor(accounts, Complete(s.headers), kept)
    requires |s.headers| == s.imported + left && left <= s.errors
    ensures var s' := One(s, accounts, e.lines, number, false, io);
            var left' := left + Bit(LeavesHeader(accounts, e.lines, io));
            && StandFor(accounts, Complete(s'.headers), kept + if Imports(accounts, e.lines, false, AnsweredIo(io)) then [e] else [])
            && |s'.headers| == s'.imported + left' && left' <= s'.errors
  {
    OneAddsHeader(s, accounts, e.lines, number, io);
    if Judge(accounts, e.lines) == Good && io.header.HeaderStored? {
      HeaderStands(accounts, e, number, io);
      MoreStandFor(accounts, s.headers, kept, HeaderFor(accounts, e.lines, number, io), e);
    } else {
      assert kept + [] == kept;
    }
  }

  lemma MoreStandFor(accounts: map<string, string>, headers: seq<Header>, kept: seq<JournalEntry>, h: Header, e: JournalEntry)
    requires StandFor(accounts, Complete(headers), kept) && (h.postings != [] ==> StandsFor(accounts, h, e))
    ensures StandFor(accounts, Complete(headers + [h]), kept + if h.postings == [] then [] else [e])
  {
    CompleteSnoc(headers, h);
    if h.postings != [] {
      StandForSnoc(accounts, Complete(headers), kept, h, e);
    } else {
      assert kept + [] == kept && Complete(headers) + [] == Complete(headers);
    }
  }

  lemma HeaderStands(accounts: map<string, string>, e: JournalEntry, number: nat, io: EntryIo)
    requires Judge(accounts, e.lines) == Good
    ensures var h := HeaderFor(accounts, e.lines, number, io);
            if Posted(io) then h.postings != [] && StandsFor(accounts, h, e) else h.postings == []
  {
  }

  lemma StandForSnoc(accounts: map<string, string>, headers: seq<Header>, kept: seq<JournalEntry>, h: Header, e: JournalEntry)
    requires StandFor(accounts, headers, kept) && StandsFor(accounts, h, e)
    ensures StandFor(accounts, headers + [h], kept + [e])
  {
  }

  /** An entry that is in the books, lines and all, and reported as an error. */
  predicate LosesAnswer(accounts: map<string, string>, lines: seq<Line>, io: EntryIo) {
    Judge(accounts, lines) == Good && Posted(io) && io.lines.LinesUnanswered?
  }

  lemma {:induction false} AnswersKeep(accounts: map<string, string>, entries: seq<JournalEntry>, io: seq<EntryIo>)
    requires |io| == |entries|
    ensures |Kept(accounts, entries, false, io)| <= |Kept(accounts, entries, false, Answered(io))|
    ensures |Kept(accounts, entries, false, io)| == |Kept(accounts, entries, false, Answered(io))| <==>
            forall i :: 0 <= i < |entries| ==> !LosesAnswer(accounts, entries[i].lines, io[i])
    ensures (forall i :: 0 <= i < |entries| ==> !LosesAnswer(accounts, entries[i].lines, io[i])) ==>
            Kept(accounts, entries, false, io) == Kept(accounts, entries, false, Answered(io))
  {
    if entries != [] {
      var n := |entries| - 1;
      EachSnoc(AnsweredIo, io);
      AnswersKeep(accounts, entries[..n], io[..n]);
      assert forall i :: 0 <= i < n ==> entries[..n][i] == entries[i] && io[..n][i] == io[i];
    }
  }

  /** The headers with lines are the imported entries exactly when no answer to stored lines is lost. */
  lemma CompleteIsImportedIff(accounts: map<string, string>, entries: seq<JournalEntry>, io: seq<EntryIo>)
    requires |io| == |entries|
    ensures StandFor(accounts, Complete(All(accounts, entries, false, io).headers), Kept(accounts, entries, false, io)) <==>
            forall i :: 0 <= i < |entries| ==> !LosesAnswer(accounts, entries[i].lines, io[i])
  {
    HeadersStandForImports(accounts, entries, io);
    AnswersKeep(accounts, entries, io);
  }

  /** The header table holds one header for each imported entry and nothing else exactly when no good entry has its header
      stored and is not written. */
  lemma NoHeaderLeftIff(accounts: map<string, string>, entries: seq<JournalEntry>, io: seq<EntryIo>)
    requires |io| == |entries|
    ensures var s := All(accounts, entries, false, io);
            |s.headers| == s.imported <==> forall i :: 0 <= i < |entries| ==> !LeavesHeader(accounts, entries[i].lines, io[i])
  {
    HeadersStandForImports(accounts, entries, io);
    NoLeftoversIff(accounts, entries, io);
  }

  lemma {:induction false} NoLeftoversIff(accounts: map<string, string>, entries: seq<JournalEntry>, io: seq<EntryIo>)
    requires |io| == |entries|
    ensures Leftovers(accounts, entries, io) == 0 <==> forall i :: 0 <= i < |entries| ==> !LeavesHeader(accounts, entries[i].lines, io[i])
  {
    if entries != [] {
      var n := |entries| - 1;
      NoLeftoversIff(accounts, entries[..n], io[..n]);
      assert forall i :: 0 <= i < n ==> entries[..n][i] == entries[i] && io[..n][i] == io[i];
    }
  }

  // ---------------------------------------------------------------------
  // The totals in the headers
  // ---------------------------------------------------------------------

  /** A stored header carries the rounded totals of the entry it is numbered after, a good one, and they are at most
      a cent apart, or two for the one pair of totals that rounds apart. */
  predicate WellTotalled(accounts: map<string, string>, entries: seq<JournalEntry>, h: Header) {
    && 1 <= h.number <= |entries|
    && var lines := entries[h.number - 1].lines;
       var debit, credit := SumLines(lines, DebitSide), SumLines(lines, CreditSide);
       && Judge(accounts, lines) == Good
       && h.debit == Round2(debit) && h.credit == Round2(credit)
       && Abs(h.debit - h.credit) <= 0.02
       && (Abs(h.debit - h.credit) > 0.01 <==> IsHalfCentPair(debit, credit))
  }

  predicate AllWellTotalled(accounts: map<string, string>, entries: seq<JournalEntry>, headers: seq<Header>) {
    && (forall k :: 0 <= k < |headers| ==> WellTotalled(accounts, entries, headers[k]))
    && (forall j, k :: 0 <= j < k < |headers| ==> headers[j].number < headers[k].number)
  }

  lemma GoodIsWellTotalled(accounts: map<string, string>, entries: seq<JournalEntry>, n: nat, postings: seq<Posting>)
    requires n < |entries| && Judge(accounts, entries[n].lines) == Good
    ensures var lines := entries[n].lines;
            WellTotalled(accounts, entries, HeaderOf(n + 1, SumLines(lines, DebitSide), SumLines(lines, CreditSide), postings))
  {
    StoredTotalsSpread(SumLines(entries[n].lines, DebitSide), SumLines(entries[n].lines, CreditSide));
  }

  /** So are all headers after any run, left-overs included, and no entry has two. */
  lemma {:induction false} HeadersAreWellTotalled(accounts: map<string, string>, entries: seq<JournalEntry>, dryRun: bool, io: seq<EntryIo>)
    requires |io| == |entries|
    ensures AllWellTotalled(accounts, entries, All(accounts, entries, dryRun, io).headers)
  {
    if entries != [] {
      var n := |entries| - 1;
      HeadersAreWellTotalled(accounts, entries[..n], dryRun, io[..n]);
      var before := All(accounts, entries[..n], dryRun, io[..n]);
      forall k | 0 <= k < |before.headers| ensures WellTotalled(accounts, entries, before.headers[k]) && before.headers[k].number <= n {
        assert WellTotalled(accounts, entries[..n], before.headers[k]);
      }
      OneMoreHeader(before, accounts, entries, dryRun, io[n]);
    }
  }

  lemma OneMoreHeader(s: Import, accounts: map<string, string>, entries: seq<JournalEntry>, dryRun: bool, io: EntryIo)
    requires entries != [] && AllWellTotalled(accounts, entries, s.headers)
    requires forall k :: 0 <= k < |s.headers| ==> s.headers[k].number < |entries|
    ensures AllWellTotalled(accounts, entries, One(s, accounts, entries[|entries| - 1].lines, |entries|, dryRun, io).headers)
  {
    var n := |entries| - 1;
    if Judge(accounts, entries[n].lines) == Good {
      GoodIsWellTotalled(accounts, entries, n, Postings(accounts, entries[n].lines));
      GoodIsWellTotalled(accounts, entries, n, []);
    }
  }

  lemma SumOfTwo(lines: seq<Line>, side: Side)
    requires |lines| == 2
    ensures SumLines(lines, side) == Amount(lines[0], side) + Amount(lines[1], side)
  {
    assert SumLines(lines[1..][1..], side) == 0.0;
  }

  /** There is a good entry whose stored totals are two cents apart. */
  lemma SomeTotalsRoundApart()
    ensures var lines := [Line(None, "a", 0.005, 0.0), Line(None, "a", 0.0, -0.005)];
            && Judge(map["a" := "1"], lines) == Good
            && Abs(Round2(SumLines(lines, DebitSide)) - Round2(SumLines(lines, CreditSide))) == 0.02
  {
    var lines := [Line(None, "a", 0.005, 0.0), Line(None, "a", 0.0, -0.005)];
    SumOfTwo(lines, DebitSide);
    SumOfTwo(lines, CreditSide);
    assert Round(0.5) == 1 && Round(-0.5) == -1;
  }

  // ---------------------------------------------------------------------
  // The lines in the report
  // ---------------------------------------------------------------------

  function CountLines(entries: seq<JournalEntry>): nat {
    if entries == [] then 0 else CountLines(entries[..|entries| - 1]) + |entries[|entries| - 1].lines|
  }

  lemma CountSnoc(entries: seq<JournalEntry>, e: JournalEntry)
    ensures CountLines(entries + [e]) == CountLines(entries) + |e.lines|
    ensures entries + [] == entries
  {
    assert (entries + [e])[..|entries|] == entries;
  }

  predicate GetsInIfGood(accounts: map<string, string>, lines: seq<Line>, dryRun: bool, io: EntryIo) {
    Judge(accounts, lines) == Good ==> dryRun || Written(io)
  }

  predicate AllGoodGetIn(accounts: map<string, string>, entries: seq<JournalEntry>, dryRun: bool, io: seq<EntryIo>)
    requires |io| == |entries|
  {
    forall i :: 0 <= i < |entries| ==> GetsInIfGood(accounts, entries[i].lines, dryRun, io[i])
  }

  lemma AllGoodSnoc(accounts: map<string, string>, entries: seq<JournalEntry>, dryRun: bool, io: seq<EntryIo>)
    requires |io| == |entries| && entries != []
    ensures var n := |entries| - 1;
            AllGoodGetIn(accounts, entries, dryRun, io) <==>
              AllGoodGetIn(accounts, entries[..n], dryRun, io[..n]) && GetsInIfGood(accounts, entries[n].lines, dryRun, io[n])
  {
    var n := |entries| - 1;
    assert forall i :: 0 <= i < n ==> entries[..n][i] == entries[i] && io[..n][i] == io[i];
  }

  lemma OneClaims(s: Import, accounts: map<string, string>, e: JournalEntry, number: nat, dryRun: bool, io: EntryIo,
                  kept: seq<JournalEntry>, good: seq<JournalEntry>)
    requires s.totalLines == CountLines(good) >= CountLines(kept)
    ensures var s' := One(s, accounts, e.lines, number, dryRun, io);
            var kept' := kept + if Imports(accounts, e.lines, dryRun, io) then [e] else [];
            var good' := good + if Imports(accounts, e.lines, true, io) then [e] else [];
            && s'.totalLines == CountLines(good') >= CountLines(kept')
            && (s'.totalLines == CountLines(kept') <==>
                  s.totalLines == CountLines(kept) && GetsInIfGood(accounts, e.lines, dryRun, io))
  {
    CountSnoc(kept, e);
    CountSnoc(good, e);
  }

  /** The report claims the lines of all good entries, whatever becomes of the writes; they are the lines
      of the imported entries exactly when every good entry is written. */
  lemma {:induction false} LinesAreClaimed(accounts: map<string, string>, entries: seq<JournalEntry>, dryRun: bool, io: seq<EntryIo>)
    requires |io| == |entries|
    ensures All(accounts, entries, dryRun, io).totalLines == CountLines(Kept(accounts, entries, true, io))
    ensures CountLines(Kept(accounts, entries, dryRun, io)) <= All(accounts, entries, dryRun, io).totalLines
    ensures All(accounts, entries, dryRun, io).totalLines == CountLines(Kept(accounts, entries, dryRun, io)) <==>
            AllGoodGetIn(accounts, entries, dryRun, io)
  {
    if entries != [] {
      var n := |entries| - 1;
      LinesAreClaimed(accounts, entries[..n], dryRun, io[..n]);
      AllGoodSnoc(accounts, entries, dryRun, io);
      OneClaims(All(accounts, entries[..n], dryRun, io[..n]), accounts, entries[n], n + 1, dryRun, io[n],
                Kept(accounts, entries[..n], dryRun, io[..n]), Kept(accounts, entries[..n], true, io[..n]));
    }
  }

  lemma OfOne(accounts: map<string, string>, e: JournalEntry, dryRun: bool, io: EntryIo)
    ensures All(accounts, [e], dryRun, [io]) == One(NOTHING, accounts, e.lines, 1, dryRun, io)
    ensures Kept(accounts, [e], dryRun, [io]) == if Imports(accounts, e.lines, dryRun, io) then [e] else []
  {
    assert [e][..0] == [] && [io][..0] == [];
  }

  /** A good entry whose lines cannot be written: its header stays, and its lines are claimed. */
  lemma LeftBehind(accounts: map<string, string>, e: JournalEntry, io: EntryIo)
    requires LeavesHeader(accounts, e.lines, io)
    ensures var s := All(accounts, [e], false, [io]);
            && s.imported == 0 && s.errors == 1 && |s.headers| == 1 && (Complete(s.headers) == [] <==> !Posted(io))
            && s.totalLines == |e.lines| >= 2 && Kept(accounts, [e], false, [io]) == []
  {
    OfOne(accounts, e, false, io);
    OneAddsHeader(NOTHING, accounts, e.lines, 1, io);
    CompleteSnoc([], HeaderFor(accounts, e.lines, 1, io));
  }

  /** There is an entry that leaves its header behind without lines, or with them. */
  lemma SomeEntryIsLeftBehind()
    ensures LeavesHeader(map["a" := "1"], [Line(None, "a", 1.0, 0.0), Line(None, "a", 0.0, 1.0)], EntryIo(HeaderStored(true), LinesFailed, true))
    ensures LosesAnswer(map["a" := "1"], [Line(None, "a", 1.0, 0.0), Line(None, "a", 0.0, 1.0)], EntryIo(HeaderStored(true), LinesUnanswered, true))
  {
    var lines := [Line(None, "a", 1.0, 0.0), Line(None, "a", 0.0, 1.0)];
    SumOfTwo(lines, DebitSide);
    SumOfTwo(lines, CreditSide);
  }

  // ---------------------------------------------------------------------
  // The ledger
  // ---------------------------------------------------------------------

  function PostingAmount(p: Posting, side: Side): real { if side.DebitSide? then p.debit else p.credit }

  function SumPostings(ps: seq<Posting>, side: Side): real {
    if ps == [] then 0.0 else PostingAmount(ps[0], side) + SumPostings(ps[1..], side)
  }

  lemma {:induction false} PostingsConcat(a: seq<Posting>, b: seq<Posting>, side: Side)
    ensures SumPostings(a + b, side) == SumPostings(a, side) + SumPostings(b, side)
  {
    if a == [] {
      assert a + b == b;
    } else {
      assert (a + b)[1..] == a[1..] + b;
      PostingsConcat(a[1..], b, side);
    }
  }

  predicate SameAmounts(ps: seq<Posting>, lines: seq<Line>) {
    |ps| == |lines| && forall i :: 0 <= i < |lines| ==> ps[i].debit == lines[i].debit && ps[i].credit == lines[i].credit
  }

  lemma {:induction false} PostingsSum(ps: seq<Posting>, lines: seq<Line>, side: Side)
    requires SameAmounts(ps, lines)
    ensures SumPostings(ps, side) == SumLines(lines, side)
  {
    if lines != [] {
      PostingsSum(ps[1..], lines[1..], side);
    }
  }

  /** The entries that reach the ledger are those that would get in if a failed ledger write were an error. */
  function LedgerIo(io: EntryIo): EntryIo { if io.ledgerOk then io else io.(lines := LinesFailed) }

  function Ledgered(io: seq<EntryIo>): (r: seq<EntryIo>)
    ensures |r| == |io|
  {
    EachIo(LedgerIo, io)
  }

  /** The postings of entries one after the other. */
  function AllPostings(accounts: map<string, string>, entries: seq<JournalEntry>): seq<Posting>
    requires forall k :: 0 <= k < |entries| ==> Mapped(accounts, entries[k].lines)
  {
    if entries == [] then []
    else AllPostings(accounts, entries[..|entries| - 1]) + Postings(accounts, entries[|entries| - 1].lines)
  }

  /** The ledger holds exactly the postings of the imported entries, in order, except those whose ledger write failed. */
  lemma {:induction false} LedgerHoldsImports(accounts: map<string, string>, entries: seq<JournalEntry>, io: seq<EntryIo>)
    requires |io| == |entries|
    ensures var kept := Kept(accounts, entries, false, Ledgered(io));
            && (forall k :: 0 <= k < |kept| ==> Mapped(accounts, kept[k].lines))
            && All(accounts, entries, false, io).ledger == AllPostings(accounts, kept)
  {
    if entries != [] {
      var n := |entries| - 1;
      EachSnoc(LedgerIo, io);
      LedgerHoldsImports(accounts, entries[..n], io[..n]);
      var kept := Kept(accounts, entries[..n], false, Ledgered(io[..n]));
      if Imports(accounts, entries[n].lines, false, LedgerIo(io[n])) {
        assert (kept + [entries[n]])[..|kept|] == kept;
      } else {
        assert kept + [] == kept;
      }
    }
  }

  lemma {:induction false} SumOfPostings(accounts: map<string, string>, entries: seq<JournalEntry>, side: Side)
    requires forall k :: 0 <= k < |entries| ==> Mapped(accounts, entries[k].lines)
    ensures SumPostings(AllPostings(accounts, entries), side) == SumEntries(entries, side)
  {
    if entries != [] {
      var front, e := entries[..|entries| - 1], entries[|entries| - 1];
      SumOfPostings(accounts, front, side);
      PostingsConcat(AllPostings(accounts, front), Postings(accounts, e.lines), side);
      PostingsSum(Postings(accounts, e.lines), e.lines, side);
      SumSnoc(front, e, side);
      assert entries == front + [e];
    }
  }

  lemma LedgerSums(accounts: map<string, string>, entries: seq<JournalEntry>, io: seq<EntryIo>, side: Side)
    requires |io| == |entries|
    ensures SumPostings(All(accounts, entries, false, io).ledger, side)
         == SumEntries(Kept(accounts, entries, false, Ledgered(io)), side)
  {
    LedgerHoldsImports(accounts, entries, io);
    SumOfPostings(accounts, Kept(accounts, entries, false, Ledgered(io)), side);
  }

  /** Whatever writes fail, and although a failed ledger write is passed over, the ledger is out of
      balance by at most a cent for each imported entry. */
  lemma LedgerBalances(accounts: map<string, string>, entries: seq<JournalEntry>, io: seq<EntryIo>)
    requires |io| == |entries|
    ensures var s := All(accounts, entries, false, io);
            WithinCents(SumPostings(s.ledger, DebitSide), SumPostings(s.ledger, CreditSide), s.imported)
  {
    LedgerSums(accounts, entries, io, DebitSide);
    LedgerSums(accounts, entries, io, CreditSide);
    ImportedBalance(accounts, entries, false, Ledgered(io));
    EveryEntryIsCounted(accounts, entries, false, io);
    FewerLedgered(accounts, entries, io);
    var kept := Kept(accounts, entries, false, Ledgered(io));
    MoreCents(SumEntries(kept, DebitSide), SumEntries(kept, CreditSide), |kept|, |Kept(accounts, entries, false, io)|);
  }

  lemma {:induction false} FewerLedgered(accounts: map<string, string>, entries: seq<JournalEntry>, io: seq<EntryIo>)
    requires |io| == |entries|
    ensures |Kept(accounts, entries, false, Ledgered(io))| <= |Kept(accounts, entries, false, io)|
  {
    if entries != [] {
      var n := |entries| - 1;
      EachSnoc(LedgerIo, io);
      FewerLedgered(accounts, entries[..n], io[..n]);
    }
  }

  lemma {:induction false} AllKept(accounts: map<string, string>, entries: seq<JournalEntry>, dryRun: bool, io: seq<EntryIo>)
    requires |io| == |entries|
    ensures |Kept(accounts, entries, dryRun, io)| <= |entries|
    ensures |Kept(accounts, entries, dryRun, io)| == |entries| ==> Kept(accounts, entries, dryRun, io) == entries
  {
    if entries != [] {
      AllKept(accounts, entries[..|entries| - 1], dryRun, io[..|entries| - 1]);
    }
  }

  /** A real run that reports no error, and whose ledger writes work, carries the sheet's whole columns into the ledger. */
  lemma CleanImportCarriesTheSheet(
      accounts: map<string, string>, sheet: Sheet, rows: seq<Row>, io: seq<EntryIo>, side: Side)
    requires |io| == |Entries(Views(rows, Reader(sheet)))|
    requires All(accounts, Entries(Views(rows, Reader(sheet))), false, io).errors == 0
    requires forall i :: 0 <= i < |io| ==> io[i].ledgerOk
    ensures SumPostings(All(accounts, Entries(Views(rows, Reader(sheet))), false, io).ledger, side)
         == JournalTotals.Column(sheet, RowsFromDate(sheet, rows), side)
  {
    CleanLedgerSums(accounts, Entries(Views(rows, Reader(sheet))), io, side);
    MoneyConserved(sheet, rows, side);
  }

  lemma CleanLedgerSums(accounts: map<string, string>, entries: seq<JournalEntry>, io: seq<EntryIo>, side: Side)
    requires |io| == |entries| && All(accounts, entries, false, io).errors == 0 && forall i :: 0 <= i < |io| ==> io[i].ledgerOk
    ensures SumPostings(All(accounts, entries, false, io).ledger, side) == SumEntries(entries, side)
  {
    EachSame(LedgerIo, io);
    LedgerSums(accounts, entries, io, side);
    EveryEntryIsCounted(accounts, entries, false, io);
    AllKept(accounts, entries, false, io);
  }

  // ---------------------------------------------------------------------
  // Dry runs
  // ---------------------------------------------------------------------

  predicate AllWritten(io: seq<EntryIo>) { forall i :: 0 <= i < |io| ==> Written(io[i]) }

  predicate SameFigures(a: Import, b: Import) {
    a.imported == b.imported && a.errors == b.errors && a.totalLines == b.totalLines && a.unmapped == b.unmapped
  }

  /** A dry run reports what a real run reports whose writes all work, as long as both have ids for the same accounts. */
  lemma {:induction false} DryImportFollowsReal(
      dry: map<string, string>, real_: map<string, string>, entries: seq<JournalEntry>, io: seq<EntryIo>)
    requires |io| == |entries| && AllWritten(io) && dry.Keys == real_.Keys
    ensures SameFigures(All(dry, entries, true, io), All(real_, entries, false, io))
  {
    if entries != [] {
      var n := |entries| - 1;
      DryImportFollowsReal(dry, real_, entries[..n], io[..n]);
      assert Judge(dry, entries[n].lines) == Judge(real_, entries[n].lines);
      assert Missing(dry, entries[n].lines) == Missing(real_, entries[n].lines);
    }
  }

  /** A dry run writes nothing. */
  lemma {:induction false} DryImportWritesNothing(accounts: map<string, string>, entries: seq<JournalEntry>, io: seq<EntryIo>)
    requires |io| == |entries|
    ensures All(accounts, entries, true, io).headers == [] && All(accounts, entries, true, io).ledger == []
  {
    if entries != [] {
      DryImportWritesNothing(accounts, entries[..|entries| - 1], io[..|entries| - 1]);
    }
  }
}
