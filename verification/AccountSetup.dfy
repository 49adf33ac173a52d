/** Making sure that every QuickBooks account has an account in the books. */
module AccountSetup {
  import opened Prelude

  datatype AccountDef = AccountDef(qbName: string, code: string, existing: bool)

  /** What the data plane does for one definition: whether the look-up is answered, and what becomes of an insert;
      the answer to one that is carried out may be lost, or come without the id. */
  datatype InsertReply = InsertFailed | InsertUnanswered(id: string) | Inserted(id: string, returned: bool)
  datatype DefIo = DefIo(lookupOk: bool, insert: InsertReply)

  /** The accounts table by code, the ids found for QuickBooks names, the report, and whether all has gone well so far. */
  datatype Setup = Setup(
    table: map<string, string>, accounts: map<string, string>, created: nat, reused: nat, warnings: nat, ok: bool)

  /** The first look-up or insert that fails ends it; what is in the table by then stays there. An insert whose
      answer is lost has failed, to the gateway, and is in the table all the same. */
  function One(s: Setup, def: AccountDef, dryRun: bool, io: DefIo): Setup {
    if !s.ok then s
    else if !io.lookupOk then s.(ok := false)
    else if def.code in s.table then
      s.(accounts := s.accounts[def.qbName := s.table[def.code]], reused := s.reused + 1)
    else if def.existing then s.(warnings := s.warnings + 1)
    else if dryRun then
      s.(accounts := s.accounts[def.qbName := "dry-run-" + def.code], created := s.created + 1)
    else if io.insert.InsertFailed? then s.(ok := false)
    else
      var s1 := s.(table := s.table[def.code := io.insert.id]);
      if io.insert.InsertUnanswered? then s1.(ok := false)
      else if io.insert.returned then
        s1.(accounts := s1.accounts[def.qbName := io.insert.id], created := s1.created + 1)
      else s1
  }

  function All(defs: seq<AccountDef>, table: map<string, string>, dryRun: bool, io: seq<DefIo>): Setup
    requires |io| == |defs|
  {
    if defs == [] then Setup(table, map[], 0, 0, 0, true)
    else
      var n := |defs| - 1;
      One(All(defs[..n], table, dryRun, io[..n]), defs[n], dryRun, io[n])
  }

  method SetupAccounts(defs: seq<AccountDef>, table: map<string, string>, dryRun: bool, io: seq<DefIo>) returns (s: Setup)
    requires |io| == |defs|
    ensures s == All(defs, table, dryRun, io)
  {
    s := Setup(table, map[], 0, 0, 0, true);
    for k := 0 to |defs|
      invariant s == All(defs[..k], table, dryRun, io[..k]) && s.ok
    {
      AllSnoc(defs, table, dryRun, io, k);
      var def := defs[k];
      if !io[k].lookupOk {
        s := s.(ok := false);
        AllStops(defs, table, dryRun, io, k + 1);
        return;
      }
      if def.existing {
        if def.code in s.table {
          s := s.(accounts := s.accounts[def.qbName := s.table[def.code]], reused := s.reused + 1);
        } else {
          s := s.(warnings := s.warnings + 1);
        }
        continue;
      }
      if def.code in s.table {
        s := s.(accounts := s.accounts[def.qbName := s.table[def.code]], reused := s.reused + 1);
        continue;
      }
      if dryRun {
        s := s.(accounts := s.accounts[def.qbName := "dry-run-" + def.code], created := s.created + 1);
        continue;
      }
      if io[k].insert.InsertFailed? {
        s := s.(ok := false);
        AllStops(defs, table, dryRun, io, k + 1);
        return;
      }
      s := s.(table := s.table[def.code := io[k].insert.id]);
      if io[k].insert.InsertUnanswered? {
        s := s.(ok := false);
        AllStops(defs, table, dryRun, io, k + 1);
        return;
      }
      if io[k].insert.returned {
        s := s.(accounts := s.accounts[def.qbName := io[k].insert.id], created := s.created + 1);
      }
    }
    assert defs[..|defs|] == defs && io[..|defs|] == io;
  }

  lemma AllSnoc(defs: seq<AccountDef>, table: map<string, string>, dryRun: bool, io: seq<DefIo>, k: nat)
    requires |io| == |defs| && k < |defs|
    ensures All(defs[..k + 1], table, dryRun, io[..k + 1]) == One(All(defs[..k], table, dryRun, io[..k]), defs[k], dryRun, io[k])
  {
    assert defs[..k + 1][..k] == defs[..k] && io[..k + 1][..k] == io[..k];
  }

  /** After a failure nothing more happens. */
  lemma {:induction false} AllStops(defs: seq<AccountDef>, table: map<string, string>, dryRun: bool, io: seq<DefIo>, k: nat)
    requires |io| == |defs| && k <= |defs| && !All(defs[..k], table, dryRun, io[..k]).ok
    ensures All(defs, table, dryRun, io) == All(defs[..k], table, dryRun, io[..k])
    decreases |defs| - k
  {
    if k < |defs| {
      AllSnoc(defs, table, dryRun, io, k);
      AllStops(defs, table, dryRun, io, k + 1);
    } else {
      assert defs[..k] == defs && io[..k] == io;
    }
  }

  // ---------------------------------------------------------------------
  // What stays in the table
  // ---------------------------------------------------------------------

  predicate IsMade(def: AccountDef, io: DefIo, code: string, id: string) {
    !def.existing && def.code == code && !io.insert.InsertFailed? && io.insert.id == id
  }

  ghost predicate OldOrMade(defs: seq<AccountDef>, table: map<string, string>, io: seq<DefIo>, code: string, id: string)
    requires |io| == |defs|
  {
    (code in table && table[code] == id) || exists i :: 0 <= i < |defs| && IsMade(defs[i], io[i], code, id)
  }

  ghost predicate Grown(defs: seq<AccountDef>, table: map<string, string>, io: seq<DefIo>, after: map<string, string>)
    requires |io| == |defs|
  {
    && (forall c :: c in table ==> c in after && after[c] == table[c])
    && (forall c :: c in after ==> OldOrMade(defs, table, io, c, after[c]))
  }

  lemma OldOrMadeStays(defs: seq<AccountDef>, table: map<string, string>, io: seq<DefIo>, code: string, id: string)
    requires |io| == |defs| && defs != [] && OldOrMade(defs[..|defs| - 1], table, io[..|defs| - 1], code, id)
    ensures OldOrMade(defs, table, io, code, id)
  {
    var n := |defs| - 1;
    if !(code in table && table[code] == id) {
      var i :| 0 <= i < n && IsMade(defs[..n][i], io[..n][i], code, id);
      assert IsMade(defs[i], io[i], code, id);
    }
  }

  /** Whether it ends well or not: accounts that were there are as they were, and every other account in the table
      is one that a definition created, under the id the data plane gave it. */
  lemma {:induction false} AccountsStay(defs: seq<AccountDef>, table: map<string, string>, dryRun: bool, io: seq<DefIo>)
    requires |io| == |defs|
    ensures Grown(defs, table, io, All(defs, table, dryRun, io).table)
  {
    if defs != [] {
      var n := |defs| - 1;
      AccountsStay(defs[..n], table, dryRun, io[..n]);
      var before, after := All(defs[..n], table, dryRun, io[..n]).table, All(defs, table, dryRun, io).table;
      forall c | c in after ensures OldOrMade(defs, table, io, c, after[c]) {
        if c in before && before[c] == after[c] {
          OldOrMadeStays(defs, table, io, c, after[c]);
        } else {
          assert IsMade(defs[n], io[n], c, after[c]);
        }
      }
    }
  }

  // ---------------------------------------------------------------------
  // What the journal is given
  // ---------------------------------------------------------------------

  /** The id a QuickBooks name stands for: that of the account with its definition's code, or in a dry run a placeholder
      for the account that would be created. */
  predicate IsIdFor(def: AccountDef, table: map<string, string>, dryRun: bool, name: string, id: string) {
    && def.qbName == name
    && (if def.code in table then table[def.code] == id else dryRun && id == "dry-run-" + def.code)
  }

  ghost predicate HasId(defs: seq<AccountDef>, table: map<string, string>, dryRun: bool, name: string, id: string) {
    exists i :: 0 <= i < |defs| && IsIdFor(defs[i], table, dryRun, name, id)
  }

  ghost predicate AllHaveIds(defs: seq<AccountDef>, s: Setup, dryRun: bool) {
    forall name :: name in s.accounts ==> HasId(defs, s.table, dryRun, name, s.accounts[name])
  }

  lemma HasIdStays(defs: seq<AccountDef>, table: map<string, string>, table': map<string, string>, dryRun: bool, name: string, id: string)
    requires defs != [] && HasId(defs[..|defs| - 1], table, dryRun, name, id)
    requires if dryRun then table' == table else forall c :: c in table ==> c in table' && table'[c] == table[c]
    ensures HasId(defs, table', dryRun, name, id)
  {
    var i :| 0 <= i < |defs[..|defs| - 1]| && IsIdFor(defs[..|defs| - 1][i], table, dryRun, name, id);
    assert IsIdFor(defs[i], table', dryRun, name, id);
  }

  /** Every name the journal can use stands for the account of one of its definitions, in the table as it is at the end. */
  lemma {:induction false} IdsAreRight(defs: seq<AccountDef>, table: map<string, string>, dryRun: bool, io: seq<DefIo>)
    requires |io| == |defs|
    ensures AllHaveIds(defs, All(defs, table, dryRun, io), dryRun)
  {
    if defs != [] {
      var n := |defs| - 1;
      IdsAreRight(defs[..n], table, dryRun, io[..n]);
      var before, after := All(defs[..n], table, dryRun, io[..n]), All(defs, table, dryRun, io);
      OneKeeps(before, defs[n], dryRun, io[n]);
      forall name | name in after.accounts ensures HasId(defs, after.table, dryRun, name, after.accounts[name]) {
        if name in before.accounts && before.accounts[name] == after.accounts[name] {
          assert HasId(defs[..n], before.table, dryRun, name, before.accounts[name]);
          HasIdStays(defs, before.table, after.table, dryRun, name, after.accounts[name]);
        } else {
          assert IsIdFor(defs[n], after.table, dryRun, name, after.accounts[name]);
        }
      }
    }
  }

  lemma OneKeeps(s: Setup, def: AccountDef, dryRun: bool, io: DefIo)
    ensures var s' := One(s, def, dryRun, io);
            && (dryRun ==> s'.table == s.table)
            && (forall c :: c in s.table ==> c in s'.table && s'.table[c] == s.table[c])
            && (forall name :: name in s'.accounts ==>
                  (name in s.accounts && s.accounts[name] == s'.accounts[name]) || IsIdFor(def, s'.table, dryRun, name, s'.accounts[name]))
  {
  }

  predicate Known(def: AccountDef, table: map<string, string>) { def.code in table }
  predicate ToCreate(def: AccountDef, table: map<string, string>) { def.code !in table && !def.existing }
  predicate ToWarn(def: AccountDef, table: map<string, string>) { def.code !in table && def.existing }

  function CountDefs(defs: seq<AccountDef>, table: map<string, string>, p: (AccountDef, map<string, string>) -> bool): nat {
    if defs == [] then 0 else CountDefs(defs[..|defs| - 1], table, p) + Bit(p(defs[|defs| - 1], table))
  }

  /** A dry run whose look-ups work reports as reused the definitions whose code is in the table, as created the others that
      may be created, as warnings the rest, and finds ids for the names of the first two kinds. */
  lemma {:induction false} DryReportIs(defs: seq<AccountDef>, table: map<string, string>, io: seq<DefIo>)
    requires |io| == |defs| && forall i :: 0 <= i < |io| ==> io[i].lookupOk
    ensures var s := All(defs, table, true, io);
            && s.ok && s.table == table
            && s.reused == CountDefs(defs, table, Known) && s.created == CountDefs(defs, table, ToCreate)
            && s.warnings == CountDefs(defs, table, ToWarn)
            && s.accounts.Keys == NamesOf(defs, table)
  {
    if defs != [] {
      DryReportIs(defs[..|defs| - 1], table, io[..|defs| - 1]);
      NamesSnoc(defs, table);
    } else {
      assert NamesOf(defs, table) == {};
    }
  }

  function NamesOf(defs: seq<AccountDef>, table: map<string, string>): set<string> {
    set i | 0 <= i < |defs| && !ToWarn(defs[i], table) :: defs[i].qbName
  }

  lemma NamesSnoc(defs: seq<AccountDef>, table: map<string, string>)
    requires defs != []
    ensures var n := |defs| - 1;
            NamesOf(defs, table) == NamesOf(defs[..n], table) + if ToWarn(defs[n], table) then {} else {defs[n].qbName}
  {
    var n := |defs| - 1;
    forall name | name in NamesOf(defs[..n], table) ensures name in NamesOf(defs, table) {
      var i :| 0 <= i < n && !ToWarn(defs[..n][i], table) && defs[..n][i].qbName == name;
      assert defs[i].qbName == name;
    }
    forall name | name in NamesOf(defs, table)
      ensures name in NamesOf(defs[..n], table) + if ToWarn(defs[n], table) then {} else {defs[n].qbName}
    {
      var i :| 0 <= i < |defs| && !ToWarn(defs[i], table) && defs[i].qbName == name;
      if i < n {
        assert defs[..n][i] == defs[i];
      }
    }
  }

  // ---------------------------------------------------------------------
  // Dry runs
  // ---------------------------------------------------------------------

  predicate Works(io: seq<DefIo>) {
    forall i :: 0 <= i < |io| ==> io[i].lookupOk && io[i].insert.Inserted? && io[i].insert.returned
  }

  /** Nothing a definition creates is looked for by a later one. */
  predicate NoCollision(defs: seq<AccountDef>) {
    forall i, j :: 0 <= i < j < |defs| && !defs[i].existing ==> defs[i].code != defs[j].code
  }

  predicate SameReport(a: Setup, b: Setup) {
    a.created == b.created && a.reused == b.reused && a.warnings == b.warnings && a.accounts.Keys == b.accounts.Keys
  }

  /** What dry and real runs have in common after the same definitions. */
  ghost predicate InStep(defs: seq<AccountDef>, table: map<string, string>, dry: Setup, real_: Setup) {
    && SameReport(dry, real_) && dry.table == table
    && table.Keys <= real_.table.Keys
    && forall c :: c in real_.table && c !in table ==> exists i :: 0 <= i < |defs| && !defs[i].existing && defs[i].code == c
  }

  lemma {:induction false} DryFollowsReal(defs: seq<AccountDef>, table: map<string, string>, io: seq<DefIo>)
    requires |io| == |defs| && Works(io) && NoCollision(defs)
    ensures All(defs, table, true, io).ok && All(defs, table, false, io).ok
    ensures InStep(defs, table, All(defs, table, true, io), All(defs, table, false, io))
  {
    if defs != [] {
      var n := |defs| - 1;
      DryFollowsReal(defs[..n], table, io[..n]);
      var dry, real_ := All(defs[..n], table, true, io[..n]), All(defs[..n], table, false, io[..n]);
      assert forall i :: 0 <= i < n && !defs[..n][i].existing ==> defs[..n][i].code != defs[n].code;
      OneInStep(defs, table, dry, real_, io[n]);
    }
  }

  lemma OneInStep(defs: seq<AccountDef>, table: map<string, string>, dry: Setup, real_: Setup, io: DefIo)
    requires defs != [] && InStep(defs[..|defs| - 1], table, dry, real_)
    requires dry.ok && real_.ok && io.lookupOk && io.insert.Inserted? && io.insert.returned
    requires defs[|defs| - 1].code in real_.table ==> defs[|defs| - 1].code in table
    ensures var def := defs[|defs| - 1];
            && One(dry, def, true, io).ok && One(real_, def, false, io).ok
            && InStep(defs, table, One(dry, def, true, io), One(real_, def, false, io))
  {
    var n := |defs| - 1;
    var real' := One(real_, defs[n], false, io);
    forall c | c in real'.table && c !in table
      ensures exists i :: 0 <= i < |defs| && !defs[i].existing && defs[i].code == c
    {
      if c in real_.table {
        var i :| 0 <= i < |defs[..n]| && !defs[..n][i].existing && defs[..n][i].code == c;
        assert defs[i].code == c && !defs[i].existing;
      } else {
        assert defs[n].code == c && !defs[n].existing;
      }
    }
  }

  /** A dry run creates nothing. */
  lemma {:induction false} DryRunLeavesTable(defs: seq<AccountDef>, table: map<string, string>, io: seq<DefIo>)
    requires |io| == |defs|
    ensures All(defs, table, true, io).table == table
  {
    if defs != [] {
      DryRunLeavesTable(defs[..|defs| - 1], table, io[..|defs| - 1]);
    }
  }

  /** From an empty table a dry run reuses nothing, and a real run keeps what it made. */
  lemma {:induction false} FromNothing(defs: seq<AccountDef>, io: seq<DefIo>)
    requires |io| == |defs| && Works(io)
    ensures All(defs, map[], true, io).ok && All(defs, map[], true, io).reused == 0
    ensures All(defs, map[], true, io).table == map[]
    ensures All(defs, map[], false, io).ok
    ensures forall i :: 0 <= i < |defs| && !defs[i].existing ==> defs[i].code in All(defs, map[], false, io).table
  {
    if defs != [] {
      FromNothing(defs[..|defs| - 1], io[..|defs| - 1]);
    }
  }

  lemma {:induction false} CollisionReuses(defs: seq<AccountDef>, io: seq<DefIo>, i: nat, j: nat)
    requires |io| == |defs| && Works(io)
    requires i < j < |defs| && !defs[i].existing && defs[i].code == defs[j].code
    ensures All(defs, map[], false, io).ok && All(defs, map[], false, io).reused > 0
  {
    var n := |defs| - 1;
    FromNothing(defs[..n], io[..n]);
    assert defs[..n][i] == defs[i];
    if j < n {
      CollisionReuses(defs[..n], io[..n], i, j);
    }
  }

  ghost predicate Faithful(defs: seq<AccountDef>, io: seq<DefIo>)
    requires |io| == |defs|
  {
    forall table: map<string, string> ::
      && All(defs, table, true, io).ok && All(defs, table, false, io).ok
      && SameReport(All(defs, table, true, io), All(defs, table, false, io))
  }

  /** When every write works, dry and real runs report the same from every starting table exactly
      when no definition looks for the code of an account an earlier one creates. */
  lemma DryRunIsFaithfulIff(defs: seq<AccountDef>, io: seq<DefIo>)
    requires |io| == |defs| && Works(io)
    ensures Faithful(defs, io) <==> NoCollision(defs)
  {
    if NoCollision(defs) {
      forall table: map<string, string>
        ensures All(defs, table, true, io).ok && All(defs, table, false, io).ok
        ensures SameReport(All(defs, table, true, io), All(defs, table, false, io))
      {
        DryFollowsReal(defs, table, io);
      }
    } else {
      var i, j :| 0 <= i < j < |defs| && !defs[i].existing && defs[i].code == defs[j].code;
      FromNothing(defs, io);
      CollisionReuses(defs, io, i, j);
      assert !SameReport(All(defs, map[], true, io), All(defs, map[], false, io));
    }
  }

  // ---------------------------------------------------------------------
  // The gateway's own table
  // ---------------------------------------------------------------------

  const QB_ACCOUNT_MAP: seq<AccountDef> :=
    [AccountDef("RBC CAD 7336", "1011", false),
     AccountDef("RBC USD", "1012", false),
     AccountDef("Venn - 2756", "1013", false),
     AccountDef("Venn - 5516", "1014", false),
     AccountDef("Venn:0265 SaaS", "2101", false),
     AccountDef("Venn:4594 Physical", "2102", false),
     AccountDef("Accounts Receivable (A/R)", "1100", true),
     AccountDef("Accounts Receivable (A/R) - USD", "1101", false),
     AccountDef("Accounts Payable (A/P)", "2000", true),
     AccountDef("Direct Deposit Payable", "2401", false),
     AccountDef("GST/HST Payable", "2200", true),
     AccountDef("Payroll Liabilities:Federal Taxes", "2402", false),
     AccountDef("Payroll Liabilities:Vacation Pay", "2403", false),
     AccountDef("Opening Balance Equity", "3001", false),
     AccountDef("GHA Sales", "4001", false),
     AccountDef("Sales", "4000", true),
     AccountDef("Advertising/Promotional", "6800", true),
     AccountDef("Consulting Fees", "5101", false),
     AccountDef("Legal and professional fees", "6700", true),
     AccountDef("Meals and entertainment", "6901", false),
     AccountDef("Office Expenses", "6400", true),
     AccountDef("Payroll Expenses:Taxes", "6200", true),
     AccountDef("Payroll Expenses:Wages", "6000", true),
     AccountDef("IRAP Contribution", "4501", false),
     AccountDef("Exchange Gain or Loss", "7501", false)]

  function Number(code: string): int
    requires |code| == 4
  {
    1000 * (code[0] as int - 48) + 100 * (code[1] as int - 48) + 10 * (code[2] as int - 48) + (code[3] as int - 48)
  }

  /** Where the table has an account number. */
  function Place(number: int): nat {
    if number < 2101 then
      if number < 1100 then (number - 1011) % 4 else if number == 1100 then 6 else if number == 1101 then 7 else 8
    else if number < 2400 then
      if number == 2101 then 4 else if number == 2102 then 5 else 10
    else if number < 4000 then
      if number == 2401 then 9 else if number < 3000 then number - 2391 else 13
    else if number < 6000 then
      if number == 4000 then 15 else if number == 4001 then 14 else if number == 4501 then 23 else 17
    else if number < 6700 then
      if number == 6000 then 22 else if number == 6200 then 21 else 20
    else if number == 6700 then 18 else if number == 6800 then 16 else if number == 6901 then 19 else 24
  }

  lemma TableInPlace(i: nat)
    requires i < |QB_ACCOUNT_MAP|
    ensures |QB_ACCOUNT_MAP[i].code| == 4 && Place(Number(QB_ACCOUNT_MAP[i].code)) == i
  {
  }

  /** The accounts it expects to be there already, by number. */
  lemma OwnTableExpects(i: nat)
    requires i < |QB_ACCOUNT_MAP|
    ensures |QB_ACCOUNT_MAP[i].code| == 4
    ensures QB_ACCOUNT_MAP[i].existing <==> Number(QB_ACCOUNT_MAP[i].code) in {1100, 2000, 2200, 4000, 6000, 6200, 6400, 6700, 6800}
  {
    TableInPlace(i);
  }

  lemma OwnTableHasNoCollision()
    ensures NoCollision(QB_ACCOUNT_MAP)
  {
    forall i, j | 0 <= i < j < |QB_ACCOUNT_MAP|
      ensures QB_ACCOUNT_MAP[i].code != QB_ACCOUNT_MAP[j].code
    {
      TableInPlace(i);
      TableInPlace(j);
    }
  }
}
