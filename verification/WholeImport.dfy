/** A whole import: the accounts first, then the journal under the ids the accounts were given. */
module WholeImport {
  import opened Prelude
  import opened JournalParse
  import AccountSetup
  import JournalImport

  /** A set-up that failed ends the import before the journal; the accounts it made by then stay. */
  datatype Outcome = Outcome(setup: AccountSetup.Setup, journal: Option<JournalImport.Import>)

  method ImportBooks(defs: seq<AccountSetup.AccountDef>, table: map<string, string>, parse: string -> real, rows: seq<Row>,
                     dryRun: bool, accountIo: seq<AccountSetup.DefIo>, entryIo: seq<JournalImport.EntryIo>) returns (r: Outcome)
    requires |accountIo| == |defs|
    requires |entryIo| == |Entries(Views(Body(rows), Reader(SheetOf(parse, rows))))|
    ensures r == Run(defs, table, Entries(Views(Body(rows), Reader(SheetOf(parse, rows)))), dryRun, accountIo, entryIo)
  {
    var entries := ParseJournal(parse, rows);
    var setup := AccountSetup.SetupAccounts(defs, table, dryRun, accountIo);
    if !setup.ok {
      return Outcome(setup, None);
    }
    var journal := JournalImport.ImportJournal(setup.accounts, entries, dryRun, entryIo);
    return Outcome(setup, Some(journal));
  }

  function Run(defs: seq<AccountSetup.AccountDef>, table: map<string, string>, entries: seq<JournalEntry>,
               dryRun: bool, accountIo: seq<AccountSetup.DefIo>, entryIo: seq<JournalImport.EntryIo>): Outcome
    requires |accountIo| == |defs| && |entryIo| == |entries|
  {
    var setup := AccountSetup.All(defs, table, dryRun, accountIo);
    Outcome(setup, if setup.ok then Some(JournalImport.All(setup.accounts, entries, dryRun, entryIo)) else None)
  }

  /** A real import whose writes work puts a header with lines into the books for every entry it reports as imported, under the
      ids of the accounts that were set up, and reports as unmapped exactly the accounts that no definition covers. */
  lemma ImportReachesBooks(defs: seq<AccountSetup.AccountDef>, table: map<string, string>, entries: seq<JournalEntry>,
                           accountIo: seq<AccountSetup.DefIo>, entryIo: seq<JournalImport.EntryIo>)
    requires |accountIo| == |defs| && |entryIo| == |entries| && AccountSetup.NoCollision(defs)
    requires AccountSetup.Works(accountIo) && JournalImport.AllWritten(entryIo)
    ensures var books := Run(defs, table, entries, false, accountIo, entryIo);
            && books.setup.ok && books.journal.Some?
            && JournalImport.StandFor(books.setup.accounts, JournalImport.Complete(books.journal.value.headers),
                                      JournalImport.Kept(books.setup.accounts, entries, false, entryIo))
            && |books.journal.value.headers| == books.journal.value.imported
            && books.journal.value.unmapped == JournalImport.AccountsOf(entries) - AccountSetup.NamesOf(defs, table)
  {
    AccountSetup.DryFollowsReal(defs, table, accountIo);
    AccountSetup.DryReportIs(defs, table, accountIo);
    var accounts := AccountSetup.All(defs, table, false, accountIo).accounts;
    JournalImport.UnmappedIsExact(accounts, entries, false, entryIo);
    JournalImport.CompleteIsImportedIff(accounts, entries, entryIo);
    JournalImport.NoHeaderLeftIff(accounts, entries, entryIo);
  }

  predicate SameReport(a: Outcome, b: Outcome) {
    && AccountSetup.SameReport(a.setup, b.setup)
    && a.journal.Some? && b.journal.Some? && JournalImport.SameFigures(a.journal.value, b.journal.value)
  }

  /** With the gateway's own account table a dry run is a rehearsal: from any starting accounts and for
      any journal it reports what a real run reports whose writes all work, and it changes no table. */
  lemma DryRunIsRehearsal(table: map<string, string>, entries: seq<JournalEntry>,
                          accountIo: seq<AccountSetup.DefIo>, entryIo: seq<JournalImport.EntryIo>)
    requires |accountIo| == |AccountSetup.QB_ACCOUNT_MAP| && |entryIo| == |entries|
    requires AccountSetup.Works(accountIo) && JournalImport.AllWritten(entryIo)
    ensures var dry := Run(AccountSetup.QB_ACCOUNT_MAP, table, entries, true, accountIo, entryIo);
            var real_ := Run(AccountSetup.QB_ACCOUNT_MAP, table, entries, false, accountIo, entryIo);
            && SameReport(dry, real_)
            && dry.setup.table == table && dry.journal.value.headers == [] && dry.journal.value.ledger == []
  {
    var defs := AccountSetup.QB_ACCOUNT_MAP;
    AccountSetup.OwnTableHasNoCollision();
    AccountSetup.DryFollowsReal(defs, table, accountIo);
    var dry, real_ := AccountSetup.All(defs, table, true, accountIo), AccountSetup.All(defs, table, false, accountIo);
    JournalImport.DryImportFollowsReal(dry.accounts, real_.accounts, entries, entryIo);
    JournalImport.DryImportWritesNothing(dry.accounts, entries, entryIo);
  }
}
