# The gateway's hard parts, modelled and proved

The gateway sits between users, tools and a hosted data plane. This project models the
parts of it that are more than plumbing, and proves what they promise for every input,
every run or every reachable state.

**Tool runtime.** Tool calls run concurrently through three semaphores: the queue, the
global limit and a limit per tool. `ToolConfig` is the configuration and the screening of a
call, `ToolRuntime` the step relation over any number of calls, `ToolRuntimeProofs` the
conservation of permits, `ToolRuntimeProgress` termination, deadlock and starvation,
`ToolRuntimeAudit` the audit traces, and `ToolRouter` the shared object itself, whose every
method is one section of `execute` between two points at which other calls can run.
A call that times out or is cancelled while waiting gives its global permit back before its
rejection is written and its queue permit when it returns; after a run the permits go back
in the order global, tool, queue, before the last audit event; and the caller may drop the
future in any phase. All of these are separate steps, in any interleaving.

**Rate limiter.** `RateLimit` and `RateLimitRuns`: token buckets refilled when looked at.

**Dates.** `CivilDate` sets the era arithmetic against the Gregorian calendar counted day by
day; `Timestamp` prints and reads RFC 3339 timestamps.

**Dashboard.** `Dashboard` groups audit events by session; `AuditDashboard` follows them
from the tool runtime's steps through the log to the numbers on the page.

**QuickBooks import.** `JournalParse` reads a journal, `JournalCells` says what its cells mean and
`JournalTotals` what it adds up to, `AccountSetup` finds or makes its accounts, `JournalImport`
posts it, and `WholeImport` puts these together.

**Notes.** `ShareTable`, `NoteAccess` and `NoteShares`: who may see, edit and share a note.

**Sessions.** `Cookies` and `SessionCache`: the validation of sessions against an upstream
through a cache that also serves while the upstream is down, with calls interleaved.

**Fingerprint and ledger.** `Fingerprint` is the audit log's FNV-1a fingerprint,
`InvoiceLedger` the payments on an invoice. `Prelude` holds what all of them share.

Where the source changes state step by step the model is a class or a loop, proved equal to
a function of the old state; the laws are then lemmas about that function over whole runs. What a small
function answers is also said of its inputs themselves, so that no law rests on the function it is about.

## Where the code and what is said of it differ

- One tool can starve the others. `docs/TOOL_EXECUTION.md:38-46` says the two semaphores
  prevent it, but a call waiting for its tool keeps its global permit. `StarvationIff`: it
  can happen exactly when the queue is longer than the global limit, and
  `FromRbacPolicy` shows that every policy makes it so.
- A cancelled call does not always fail, as `docs/TOOL_EXECUTION.md:59-64` says. `CancelledTraceIff`: it fails
  exactly when it was cancelled while its tool ran, and is rejected exactly when it was cancelled while it
  waited; `CancelledWaitingIsRejected` gives the run.
- A tool limit of 0 does not disable a tool (`gateway/src/tool_router.rs:264-268`). `ToolRunsIff`: a tool can run exactly
  when it is supported and allowed and queue and global limit are at least 1, whatever its own limit is.
- A global limit of 0, which a policy may state, admits calls that can only time out:
  `NeverStuckIff`, `NoGlobalNoStart`.
- The dashboard counts a start as a call of its own, so every dispatched call counts twice
  (`DispatchedCallsCountTwice`; the total is right exactly when every call was refused, `TotalIsCallsIff`, and
  `OneCallCountsTwice` gives a run in which it is not), and its alarm for three risks at once can never ring
  (`AlarmNeverRings`).
- Timestamps order as strings for all times before a given second exactly when that second is not past
  the start of the year 10000: `OrderedUpToIff`, with `OrderBreaksAfter9999` for what comes after.
- Stored totals of a balanced entry can be two cents apart, for exactly one pair of totals:
  `StoredTotalsSpread`, `SomeTotalsRoundApart`.
- The import counts an entry's lines before it writes them, and a header whose lines could not
  be written stays. `LinesAreClaimed` and `NoHeaderLeftIff` say exactly when the figures and the header
  table agree with what was imported, and `CompleteIsImportedIff` when the headers with lines do, which they do not
  once the answer to stored lines is lost; `LeftBehind` and `SomeEntryIsLeftBehind` show entries for which they do not.
- An owner whose name or address is stored in another spelling can open a note that is missing
  from the list: `SpellingHidesNotes`, `ListIsCompleteIff`.
- Changing a share keeps its age, so the change can be without effect for a person who also has
  a newer share under the other name: `UpsertTakesEffectIff`, `AddressUpsertTakesEffectIff`; and taking
  one share back does not shut such a person out: `RemovalRevokesIff`, `AddressRemovalRevokesIff`.
  `OlderShareIsIdle` and `SomebodyHasTwoShares` give the runs.
- The handler goes on after a refused payment, answers a refused invoice update with success and stops when it hears
  nothing, so invoice and payments can part: exactly when one of a request's two writes is stored and
  the other is not (`LedgerAgreesIff`). Such a payment can be made again in full: `LostUpdatePaysTwice`.
- A stale session is less than 600 seconds old when it is looked up, and is handed out only when the upstream request
  has failed, which may be as late as the HTTP client's time-out (`gateway/src/auth/session.rs:174-177`).
  `AgeBoundIff`: 600 seconds and the time-out is exactly the bound on its age then; `StaleBoundIff`: 600 seconds
  alone is one only if requests take no time.
- A session that the upstream refuses stays in the cache and is let in again while the upstream is out of order, exactly
  as long as if it had not been refused: `RefusalIsForgotten`, `RefusedAndServed`.

## Model

| member | source | states |
|---|---|---|
| `ToolConfig.FromRbacPolicy` | gateway/src/tool_router.rs:197-232 | the runtime has exactly the allow-list's tools with their bounds; 32 calls by default; the queue is four times the global limit but at least 8, hence always longer than it |
| `ToolConfig.Permits` | gateway/src/tool_router.rs:258-269 | a tool's semaphore has the tool's limit, or the default one, and one permit where that is 0 |
| `ToolConfig.ScreenIff` | gateway/src/tool_router.rs:279-455 | each reason of the screening is given if and only if the configuration's and the request's own fields give it, and a call passes if and only if none does |
| `ToolRuntimeProofs.StepFrame` | gateway/src/tool_router.rs:376-601 | a section of one call leaves every other call as it was |
| `ToolRuntimeProofs.QueueBalance` | gateway/src/tool_router.rs:457-556 | each section moves a queue permit exactly when its call gains or loses one |
| `ToolRuntimeProofs.GlobalBalance` | gateway/src/tool_router.rs:478-556 | the same for the global permit, including the one held while waiting for the tool |
| `ToolRuntimeProofs.ToolBalance` | gateway/src/tool_router.rs:478-556 | the same for every tool's permits |
| `ToolRuntimeProofs.StepBalance` | gateway/src/tool_router.rs:457-556 | free permits of any semaphore plus what the moving call holds stay the same in every step |
| `ToolRuntimeProofs.StepKeepsConserved` | gateway/src/tool_router.rs:457-556 | every step keeps: free permits plus holders equal the size, for all three kinds of semaphore |
| `ToolRuntimeProofs.StepKeepsWellTyped` | gateway/src/tool_router.rs:279-330 | only calls to supported tools ever wait or run, so their semaphore exists |
| `ToolRuntimeProofs.PermitsConserved` | gateway/src/tool_router.rs:253-277 | in every reachable state of every interleaving free permits plus holders equal the configured size, for the queue, the global limit and every tool; so the limits always hold |
| `ToolRuntimeProofs.LiveToolIsKnown` | gateway/src/tool_router.rs:304-308 | the look-up of a waiting call's semaphore cannot fail |
| `ToolRuntimeProofs.AllPermitsReturn` | gateway/src/tool_router.rs:376-601 | once all calls have left, by whatever exits, all semaphores are full again |
| `ToolRuntimeProgress.StepLowersRank` | gateway/src/tool_router.rs:376-601 | every section brings its call closer to its end |
| `ToolRuntimeProgress.CallsAreBounded` | gateway/src/tool_router.rs:376-601 | in every interleaving one call takes at most ten steps |
| `ToolRuntimeProgress.SomeoneCanMove` | gateway/src/tool_router.rs:478-492 | with a global permit in the configuration, a state with a live call always has a step that is no time-out, cancellation or abandonment |
| `ToolRuntimeProgress.StepLowersWork` | gateway/src/tool_router.rs:376-601 | every step but an arrival lowers the work left over all calls |
| `ToolRuntimeProgress.Drains` | gateway/src/tool_router.rs:478-601 | from every reachable state all calls in flight can be brought to their end without a time-out, cancellation or abandonment, in a bounded number of steps |
| `ToolRuntimeProgress.NoGlobalNoStart` | gateway/src/tool_router.rs:478-492 | with a global limit of 0 no call ever gets past the global semaphore |
| `ToolRuntimeProgress.NeverStuckIff` | gateway/src/tool_router.rs:478-556 | freedom from deadlock in all reachable states holds if and only if the global limit is at least 1 |
| `ToolRuntimeProgress.LiveIsResolved` | gateway/src/tool_router.rs:279-330 | only calls to supported tools that are enabled, or not named and allowed by default, ever wait or run |
| `ToolRuntimeProgress.FirstCallSucceeds` | gateway/src/tool_router.rs:457-601 | a run in which a call passes all sections and succeeds |
| `ToolRuntimeProgress.ToolRunsIff` | gateway/src/tool_router.rs:253-330 | some run brings a call to the tool to run it, if and only if the tool is supported and enabled, or not named and allowed by default, and queue and global limit are at least 1; the tool's own limit, 0 included, has no part in it |
| `ToolRuntimeProgress.RefusedIff` | gateway/src/tool_router.rs:380-455 | over any legal run a submitted call ends refused for a reason of the screening if and only if the configuration and the request give that reason |
| `ToolRuntimeProgress.QueueFullIff` | gateway/src/tool_router.rs:456-476 | a call that passes the screening is turned away at once if and only if as many calls are admitted as the queue holds |
| `ToolRuntimeProgress.Hog` | gateway/src/tool_router.rs:478-492 | calls to one tool can hold any number of global permits up to the limits: as many as the tool has permits run, the others wait for the tool |
| `ToolRuntimeProgress.StarvationIff` | gateway/src/tool_router.rs:478-492 | an idle tool's call can be kept waiting by calls to another tool holding all global permits, in a state in which only the end of a tool's run can help, if and only if the queue is longer than the global limit |
| `ToolRuntimeProgress.ShortQueueFeeds` | gateway/src/tool_router.rs:457-492 | with a queue no longer than the global limit it happens in no reachable state |
| `ToolRuntimeAudit.OwnTrace` | gateway/src/tool_router.rs:380-601 | the event a section announces, if any, is the one its call's trace needs next |
| `ToolRuntimeAudit.TracesFit` | gateway/src/tool_router.rs:380-601 | over any run a returned call's trace is exactly one of [rejected], [start, success], [start, failure], [start, egress_blocked, failure], as its result says, and any other call's is the part that fits its phase |
| `ToolRuntimeAudit.ResultMatchesTrace` | gateway/src/tool_router.rs:560-601 | success is returned if and only if the trace ends in success; a call is refused if and only if it never announced a start; egress_blocked if and only if the error was classified so |
| `ToolRuntimeAudit.OutcomeTrace` | gateway/src/tool_router.rs:560-601 | the trace a returned call left, for each way its tool can end and each egress error by name |
| `ToolRuntimeAudit.PhasesTellEnds` | gateway/src/tool_router.rs:494-552 | over every legal run a call's phase tells whether and how it gave up waiting and how its tool ended |
| `ToolRuntimeAudit.CancelledTraceIff` | gateway/src/tool_router.rs:494-585 | a returned call's trace is [start, failure: cancelled] if and only if it was cancelled while its tool ran, and [rejected: cancelled] if and only if it was cancelled while waiting |
| `ToolRuntimeAudit.CancelledWaitingIsRejected` | gateway/src/tool_router.rs:494-507 | a run in which an admitted call is cancelled while waiting and never fails |
| `ToolRuntimeAudit.StartHoldsAllPermits` | gateway/src/tool_router.rs:534-536 | a start is announced only while all three permits are held |
| `ToolRuntimeAudit.LogCountsCalls` | gateway/src/tool_router.rs:1181-1288 | starts, successes, failures and rejections in the log of any run are as many as the calls they stand for |
| `ToolRouter.Router.constructor` | gateway/src/tool_router.rs:253-277 | one semaphore per supported tool, with its configured size but at least 1; all full |
| `ToolRouter.Router.SubmitCall` | gateway/src/tool_router.rs:376-476 | screening in its order, then a place in the queue or a rejection: the machine's Submit step |
| `ToolRouter.Router.AcquireGlobal` | gateway/src/tool_router.rs:480-488 | the machine's TakeGlobal step, with nothing else changed |
| `ToolRouter.Router.AcquireTool` | gateway/src/tool_router.rs:480-492 | granted if and only if the tool has a free permit; the machine's TakeTool step or none |
| `ToolRouter.Router.AnnounceStart` | gateway/src/tool_router.rs:534-536 | the machine's Begin step: the start is written while all permits are held |
| `ToolRouter.Router.StopWaiting` | gateway/src/tool_router.rs:494-531 | the machine's GiveUp step: a global permit already taken goes back, the queue permit stays |
| `ToolRouter.Router.RefuseAndReturn` | gateway/src/tool_router.rs:494-531 | the machine's ReturnRefusal step: rejection written, queue permit back |
| `ToolRouter.Router.ToolEnded` | gateway/src/tool_router.rs:538-552 | the machine's Settle step: the outcome is fixed with all permits still held |
| `ToolRouter.Router.DropGlobalPermit` | gateway/src/tool_router.rs:554-555 | the machine's DropGlobal step |
| `ToolRouter.Router.DropToolPermit` | gateway/src/tool_router.rs:554-555 | the machine's DropTool step, on the semaphore of the call's own tool |
| `ToolRouter.Router.DropQueuePermit` | gateway/src/tool_router.rs:556 | the machine's DropQueue step |
| `ToolRouter.Router.ReportOutcome` | gateway/src/tool_router.rs:560-601 | the machine's Flag or Report step: the last events, written with no permit held |
| `ToolRouter.Router.DropFuture` | gateway/src/tool_router.rs:376-601 | the machine's Abandon step: in any phase exactly what the call holds goes back |
| `RateLimit.RateLimiter.Check` | gateway/src/middleware/rate_limit.rs:43-63 | refill, cap and one token taken if there is one, for the one key; answer and new buckets as functions of the old ones |
| `RateLimit.BucketsWithinBounds` | gateway/src/middleware/rate_limit.rs:47-62 | after any run no bucket is below empty or above its size |
| `RateLimit.PaidStep` | gateway/src/middleware/rate_limit.rs:47-62 | what is granted in a window plus what is left never exceeds a bucketful plus the inflow |
| `RateLimit.AlwaysPaid` | gateway/src/middleware/rate_limit.rs:43-63 | the same over every run, with any attempts on other keys |
| `RateLimit.Envelope` | gateway/src/middleware/rate_limit.rs:43-63 | in every window of every run a key is granted at most burst + rps * length |
| `RateLimit.EnvelopeIff` | gateway/src/middleware/rate_limit.rs:33-63 | that bound holds of all runs, keys and windows if and only if the rate is not negative; with a negative one a single granted attempt exceeds it, or, where the bucket has no size, the bound itself is negative |
| `RateLimitRuns.RefillTwice` | gateway/src/middleware/rate_limit.rs:53-55 | refilling in two goes with the cap between is refilling in one |
| `RateLimitRuns.DeniedChangesNothing` | gateway/src/middleware/rate_limit.rs:57-62 | a denied check changes no level any later check will find |
| `RateLimitRuns.DeniedAreFree` | gateway/src/middleware/rate_limit.rs:47-62 | leaving any denied attempts out of any run changes no other answer |
| `RateLimitRuns.KeysAreIsolated` | gateway/src/middleware/rate_limit.rs:47-50 | a key's attempts are answered, and its bucket ends, as if no other key had been tried |
| `RateLimitRuns.EagerTopUpInStep` | gateway/src/middleware/rate_limit.rs:53-55 | topping up at any instant keeps an eager limiter level with the lazy one |
| `RateLimitRuns.EagerTakeInStep` | gateway/src/middleware/rate_limit.rs:57-62 | an attempt is answered alike by both and keeps them level |
| `RateLimitRuns.LazyIsEager` | gateway/src/middleware/rate_limit.rs:43-63 | over every run, topped up at whatever instants, an eagerly refilled limiter has the levels of the lazy one and gives the same answers |
| `RateLimitRuns.EnvelopeAttained` | gateway/src/middleware/rate_limit.rs:43-63 | the envelope is exact: for every number of attempts from a bucketful on there is a run, in order of time, that is granted just that many |
| `CivilDate.EraFloors` | gateway/src/audit/event.rs:127-129 | truncating division with the correction for negative days rounds down, so the day of the era is in range |
| `CivilDate.YearOfEraIsRight` | gateway/src/audit/event.rs:130-132 | the division formula finds the year of the era that the day lies in, for all 146097 days |
| `CivilDate.MonthsCount` | gateway/src/audit/event.rs:133-136 | the month formulas give valid dates and step through a year from March day by day |
| `CivilDate.CountsDays` | gateway/src/audit/event.rs:126-138 | for every day number the result is a date of the Gregorian calendar, and for the next number it is the next day |
| `CivilDate.EpochIsRight` | gateway/src/audit/event.rs:124-138 | day 0 is 1 January 1970 |
| `CivilDate.RoundTrips` | gateway/src/audit/event.rs:126-138 | day numbers and dates correspond one to one with days counted year by year and month by month |
| `CivilDate.OrderIsKept` | gateway/src/audit/event.rs:126-138 | a smaller day number if and only if an earlier date |
| `CivilDate.NoUnderflow` | gateway/src/audit/event.rs:127-135 | no unsigned subtraction goes below zero and no signed value out of range |
| `Timestamp.LengthIs24` | gateway/src/audit/event.rs:121 | 24 characters if and only if the year is at most 9999 |
| `Timestamp.StringOrderIsTimeOrder` | gateway/src/audit/event.rs:108-121 | up to the year 9999, string order if and only if time order |
| `Timestamp.OrderedUpToIff` | gateway/src/audit/event.rs:108-121 | string order is time order for all times before second n if and only if n is at most the start of the year 10000 |
| `Timestamp.OrderBreaksAfter9999` | gateway/src/audit/event.rs:119-121 | every time on the first day of 10000 sorts before every time on the last day of 9999 |
| `Timestamp.StampRoundTrip` | gateway/src/audit/event.rs:100-122 | what is printed is a date-time of section 5.6 of RFC 3339, and its fields read back give the millisecond |
| `Dashboard.CollectLogs` | gateway/src/lib.rs:7623-7717 | the logs are exactly the tool events, in order |
| `Dashboard.CountLog` | gateway/src/lib.rs:7741-7754 | one log joins its session's counters, earliest time and alarm |
| `Dashboard.GroupBySession` | gateway/src/lib.rs:7727-7755 | sessions are exactly those that occur; each is summarised by exactly its own logs, start time the least; calls, errors and blocked sum to those of all logs |
| `Dashboard.Report` | gateway/src/lib.rs:7757-7770 | totals, and each session's counts, are direct counts over the lines of the file; low risk if and only if all succeeded; no session ever shows the alarm |
| `Dashboard.AlarmNeverRings` | gateway/src/lib.rs:7636-7715 | no log is marked as reading private data and none is external, so none carries all three risks |
| `AuditDashboard.LinesCountEvents` | gateway/src/lib.rs:7636-7656 | whatever other events stand between them in the file, errors and blocked on the dashboard count failures and rejections in the log, and calls count starts as well |
| `AuditDashboard.DashboardCountsCalls` | gateway/src/lib.rs:7727-7762 | over every run of the tool runtime, errors are the started calls that failed and blocked the calls refused |
| `AuditDashboard.DispatchedCallsCountTwice` | gateway/src/lib.rs:7741-7760 | once all calls are back, the total is the number of calls plus the number of dispatched ones |
| `AuditDashboard.TotalIsCallsIff` | gateway/src/lib.rs:7741-7760 | so it is the number of calls if and only if every call was refused |
| `AuditDashboard.OneCallCountsTwice` | gateway/src/lib.rs:7741-7760 | a run with one call that the dashboard shows as two |
| `AuditDashboard.StartTimeIsEarliest` | gateway/src/lib.rs:7748-7758 | the start time picked by comparing strings is that of the session's earliest log |
| `Dashboard.LogIs` | gateway/src/lib.rs:7636-7716 | a log has its line's session and time; error and blocked by the type of event, write operation by the words in the tool's name |
| `Dashboard.SessionCountsLines` | gateway/src/lib.rs:7623-7755 | a session's calls, errors and blocked are counts over the lines of the file |
| `Dashboard.SessionStarts` | gateway/src/lib.rs:7748-7750 | it starts at the time of one of its tool events, than which none is earlier |
| `JournalParse.FirstFrom` | gateway/src/quickbooks_import.rs:1093-1116 | the first header among the first twenty rows, or 4 if there is none |
| `JournalParse.FirstHeader` | gateway/src/quickbooks_import.rs:1093-1116 | the loop finds that row |
| `JournalParse.LastOfIsLast` | gateway/src/quickbooks_import.rs:1436-1463 | a column is the last cell whose label heads it, or none if no cell does |
| `JournalParse.MapColumns` | gateway/src/quickbooks_import.rs:1436-1463 | the loop finds all eight columns so |
| `JournalParse.TookKeeps` | gateway/src/quickbooks_import.rs:1243-1295 | taking a row into the open entry keeps what the whole sheet stands for |
| `JournalParse.ParseBody` | gateway/src/quickbooks_import.rs:1243-1303 | one pass finds the declarative split: an entry per date row with the lines up to the next, none without lines, nothing before the first date row |
| `JournalParse.ParseJournal` | gateway/src/quickbooks_import.rs:1236-1304 | the same from the raw sheet, with header row and columns found in it |
| `JournalCells.ColumnIs` | gateway/src/quickbooks_import.rs:1436-1463 | a cell heads a column if and only if it says one of the column's words, in any case, and none of the columns' before it |
| `JournalCells.HeaderIff` | gateway/src/quickbooks_import.rs:1093-1116 | a row is a header if and only if its cells say phone or email, or a date, an amount and what it is for |
| `JournalCells.AmountIs` | gateway/src/quickbooks_import.rs:1532-1547 | blank is zero; a number means itself, also after a dollar sign or with a comma in it, and its negative in brackets |
| `JournalCells.SlashDate` | gateway/src/quickbooks_import.rs:1549-1580 | month, day and year between slashes are a date and are written year first; two digits of a year are of this century |
| `JournalCells.DashDate` | gateway/src/quickbooks_import.rs:1549-1580 | a date with dashes is taken as it is, up to the day |
| `JournalCells.DateLikeOnlyIf` | gateway/src/quickbooks_import.rs:1549-1562 | nothing else is a date |
| `JournalCells.UsualPlaces` | gateway/src/quickbooks_import.rs:1465-1475 | where no header was understood the eight cells follow from the first cell on, or from the second if the first is blank |
| `JournalCells.FoundPlaces` | gateway/src/quickbooks_import.rs:1465-1475 | where headers were understood each cell is the one below its header |
| `JournalCells.ViewIs` | gateway/src/quickbooks_import.rs:1243-1295 | what a row contributes, said of its eight cells: nothing, the head of an entry, a line, with every field |
| `JournalTotals.LinesConserved` | gateway/src/quickbooks_import.rs:1259-1301 | the entries' lines end to end are exactly the lines of the rows from the first date row on |
| `JournalTotals.EntriesAreReal` | gateway/src/quickbooks_import.rs:1259-1283 | every entry has lines and is what a date row begins, its head and the lines up to the next date row; different entries begin at different rows, in order |
| `JournalTotals.DateRowsBegin` | gateway/src/quickbooks_import.rs:1244-1259 | a row begins an entry if and only if its date cell looks like a date |
| `JournalTotals.ViewCarries` | gateway/src/quickbooks_import.rs:1477-1513 | a row that is passed over carries no money |
| `JournalTotals.MoneyConserved` | gateway/src/quickbooks_import.rs:1236-1304 | total debit and credit of the entries are the column sums over all account-bearing rows from the first date row on |
| `JournalTotals.JournalWithTotals` | gateway/src/quickbooks_import.rs:901-932 | the totals set against the trial balance are those column sums |
| `JournalTotals.TotalsByLabel` | gateway/src/quickbooks_import.rs:901-932 | total debit is the sum of the cells below the last debit label, total credit of those below the last credit label, over the rows with an account, from the first row with a date on |
| `AccountSetup.SetupAccounts` | gateway/src/quickbooks_import.rs:459-523 | goes through the definitions as a fold says, up to the first failed look-up or insert, with the table as it is then, an insert whose answer was lost included |
| `AccountSetup.AllStops` | gateway/src/quickbooks_import.rs:469-512 | after a failed look-up or insert nothing more happens: the table is what the definitions before it left |
| `AccountSetup.AccountsStay` | gateway/src/quickbooks_import.rs:459-523 | whether it fails or not, accounts in the table stay as they were and every new one is one a definition created |
| `AccountSetup.IdsAreRight` | gateway/src/quickbooks_import.rs:467-519 | every name is mapped to the id of the account with its definition's code, or in a dry run to that code's placeholder |
| `AccountSetup.DryReportIs` | gateway/src/quickbooks_import.rs:467-492 | reused, created and warnings count the definitions found, to be created and missing; ids are found for the names of the first two |
| `AccountSetup.DryFollowsReal` | gateway/src/quickbooks_import.rs:459-523 | without collisions a dry run and a real run whose writes work report the same and map the same names |
| `AccountSetup.DryRunLeavesTable` | gateway/src/quickbooks_import.rs:487-491 | a dry run creates no account |
| `AccountSetup.DryRunIsFaithfulIff` | gateway/src/quickbooks_import.rs:459-523 | dry and real runs report the same from every starting table if and only if no definition looks for a code that an earlier one creates |
| `AccountSetup.OwnTableExpects` | gateway/src/quickbooks_import.rs:1792-2018 | which of the gateway's own definitions expect an account that exists, by number |
| `AccountSetup.OwnTableHasNoCollision` | gateway/src/quickbooks_import.rs:1792-2018 | the gateway's own table has no such pair |
| `JournalImport.JudgeIs` | gateway/src/quickbooks_import.rs:759-777 | each verdict if and only if its own condition holds of the lines and the map; good if and only if all mapped, two lines at least and within a cent |
| `JournalImport.MapLines` | gateway/src/quickbooks_import.rs:735-757 | postings are the lines under their account ids in order; the unmapped accounts are exactly the missing ones |
| `JournalImport.PostingIs` | gateway/src/quickbooks_import.rs:749-756 | a line is posted under its own account's id, with its memo, amounts and place |
| `JournalImport.RoundIsNearest` | gateway/src/quickbooks_import.rs:1681-1683 | rounded to whole cents, at most half a cent away, halves away from zero |
| `JournalImport.StoredTotalsSpread` | gateway/src/quickbooks_import.rs:1681-1683 | totals within a cent are stored within two, and more than one cent apart if and only if they are half a cent and minus half a cent |
| `JournalImport.SomeTotalsRoundApart` | gateway/src/quickbooks_import.rs:1681-1683 | a good entry with such totals |
| `JournalImport.PostEntry` | gateway/src/quickbooks_import.rs:785-893 | what is in header table, lines and ledger after each pattern of failed writes and lost answers |
| `JournalImport.TakeEntry` | gateway/src/quickbooks_import.rs:735-893 | unmapped, too few lines, unbalanced, dry run or written, in that order |
| `JournalImport.ImportJournal` | gateway/src/quickbooks_import.rs:725-899 | the report and the tables after all entries |
| `JournalImport.EveryEntryIsCounted` | gateway/src/quickbooks_import.rs:759-895 | imported plus errors is the number of entries, whatever writes fail |
| `JournalImport.UnmappedIsExact` | gateway/src/quickbooks_import.rs:740-747 | the unmapped accounts are exactly those some line names and the map lacks |
| `JournalImport.ImportedBalance` | gateway/src/quickbooks_import.rs:759-783 | every imported entry is mapped, has two lines and balances to the cent; together they are off by at most a cent each |
| `JournalImport.HeadersStandForImports` | gateway/src/quickbooks_import.rs:799-857 | the headers with lines are exactly the entries whose lines were stored, in order, postings, rounded sums and all; there is one header for each imported entry and one for each good entry whose header was stored and that was reported as an error |
| `JournalImport.CompleteIsImportedIff` | gateway/src/quickbooks_import.rs:843-858 | the headers with lines are the imported entries if and only if no answer to stored lines is lost |
| `JournalImport.NoHeaderLeftIff` | gateway/src/quickbooks_import.rs:810-857 | the header table has one header for each imported entry and no other, if and only if there is no such entry |
| `JournalImport.LeftBehind` | gateway/src/quickbooks_import.rs:779-857 | for any such entry: nothing imported, a header, without lines unless they were stored and only the answer lost, and its lines claimed |
| `JournalImport.SomeEntryIsLeftBehind` | gateway/src/quickbooks_import.rs:842-857 | there is one of either kind |
| `JournalImport.HeadersAreWellTotalled` | gateway/src/quickbooks_import.rs:765-811 | after any run every stored header, left-overs included, carries the rounded totals of one good entry, at most a cent apart but for the one pair of totals that rounds two apart; no entry has two |
| `JournalImport.LinesAreClaimed` | gateway/src/quickbooks_import.rs:779-783 | the reported lines are those of all good entries, and those of the imported ones if and only if every good entry is written or the run is dry |
| `JournalImport.LedgerHoldsImports` | gateway/src/quickbooks_import.rs:859-890 | the ledger holds exactly the postings of the imported entries whose ledger write worked, in order |
| `JournalImport.LedgerBalances` | gateway/src/quickbooks_import.rs:725-899 | whatever writes fail, the ledger is off balance by at most a cent for each imported entry |
| `JournalImport.CleanImportCarriesTheSheet` | gateway/src/quickbooks_import.rs:725-899 | a real run without errors and with working ledger writes carries the sheet's column sums into the ledger |
| `JournalImport.DryImportFollowsReal` | gateway/src/quickbooks_import.rs:779-783 | a dry run gives the figures of a real run whose writes work |
| `JournalImport.DryImportWritesNothing` | gateway/src/quickbooks_import.rs:779-783 | a dry run stores no header and no ledger row |
| `WholeImport.ImportBooks` | gateway/src/quickbooks_import.rs:367-389 | accounts first, then the journal under their ids; a failed account set-up ends the import and leaves the accounts made by then |
| `WholeImport.ImportReachesBooks` | gateway/src/quickbooks_import.rs:367-389 | a real import whose writes work has a header with lines for every imported entry, under the ids set up, and reports as unmapped exactly the accounts no definition covers |
| `WholeImport.DryRunIsRehearsal` | gateway/src/quickbooks_import.rs:367-389 | with the gateway's own table, from any accounts and for any journal, a dry run reports what a real run with working writes reports, and changes nothing |
| `ShareTable.NewerIs` | gateway/src/daisy.rs:662 | a time is newer than none, and of two the one that sorts later |
| `ShareTable.SortIsSorted` | gateway/src/daisy.rs:662 | sorting keeps all rows and puts the newest first |
| `ShareTable.SortIsStable` | gateway/src/daisy.rs:662 | rows of one age keep their order |
| `ShareTable.SortThenSelect` | gateway/src/daisy.rs:662-672 | selecting a note's rows from the sorted ones is sorting the note's rows |
| `ShareTable.OneAnswer` | gateway/src/daisy.rs:607-740 | with one row per note and target, the single-row query and the query for all rows agree on every note, in whatever order they are answered |
| `NoteAccess.ScopesAreNormal` | gateway/src/daisy.rs:314-335 | an actor's id is trimmed and the address normalised, from whichever header it comes |
| `NoteAccess.ScopeIs` | gateway/src/daisy.rs:314-335 | the principal's own address, and only if blank the forwarded one, and only if forwarded for the actor's own id |
| `NoteAccess.RoleIs` | gateway/src/daisy.rs:196-210 | a permission means a role if and only if it is that word, but for case and space around it |
| `NoteAccess.OwnsIff` | gateway/src/daisy.rs:337-346 | an actor owns a note if and only if the ids, or the addresses, agree but for space and, in addresses, case |
| `NoteAccess.ResolveNoteAccess` | gateway/src/daisy.rs:742-819 | the role for one note does not depend on how the data plane answers |
| `NoteAccess.CollectRoles` | gateway/src/daisy.rs:663-674 | for every note the first meaningful row counts, and no note is added or lost |
| `NoteAccess.BatchIsDirect` | gateway/src/daisy.rs:626-792 | the batch computation finds for every note the role that the single-note one finds |
| `NoteAccess.FetchSharedPermissions` | gateway/src/daisy.rs:626-675 | the map of roles holds exactly the single-note shared roles |
| `NoteAccess.FirstById` | gateway/src/daisy.rs:597-604 | every note once, as it is in the table |
| `NoteAccess.ListNotes` | gateway/src/daisy.rs:1011-1079 | every listed note has the role that resolving it alone gives; listed if and only if it resolves, may be shown and is owned to the letter or shared |
| `NoteAccess.OwnsExactly` | gateway/src/daisy.rs:337-346 | where owner fields are stored normalised, owning and owning to the letter are one |
| `NoteAccess.ListIsCompleteIff` | gateway/src/daisy.rs:1058-1079 | with archived notes included the list is exactly the notes that resolve, if and only if every owned note is owned to the letter or also shared |
| `NoteAccess.NormalListIsComplete` | gateway/src/daisy.rs:1058-1079 | so it is whenever owner fields are stored normalised |
| `NoteAccess.SpellingHidesNotes` | gateway/src/daisy.rs:550-605 | a note that its owner can open and that is not in the owner's list, archived notes included |
| `NoteShares.Shares.UpsertInDataPlane` | gateway/src/daisy.rs:868-956 | update the rows of the note and target, or else insert one; reply and table for each pattern of failures |
| `NoteShares.Shares.UpsertNoteShare` | gateway/src/daisy.rs:1185-1306 | the checks in their order, each with its own answer, and the table afterwards |
| `NoteShares.Shares.RemoveNoteShare` | gateway/src/daisy.rs:1308-1388 | the same for taking a share back |
| `NoteShares.TargetIs` | gateway/src/daisy.rs:212-237 | the user id, trimmed, whenever it is not blank; the address, normalised, if and only if only that is not blank; none if and only if both are |
| `NoteShares.GrantedIff` | gateway/src/daisy.rs:1201-1283 | a request is granted if and only if it is well-formed, comes from an owner and gives the owner nothing; and what is granted is what the payload says |
| `NoteShares.RefusalIff` | gateway/src/daisy.rs:1185-1283 | every refusal is given if and only if its own reason holds of the request |
| `NoteShares.RequestChangesItsTarget` | gateway/src/daisy.rs:868-999 | a granted request that lands sets or clears the share of exactly the person the payload names, to what it says; success is answered only then, with the row now in the table |
| `NoteShares.GrantedToOwner` | gateway/src/daisy.rs:1253-1283 | a request is granted only to an owner, with a normal target that is not the owner and a permission of viewer or editor |
| `NoteShares.OwnersResolve` | gateway/src/daisy.rs:801-819 | an actor resolves as owner if and only if the note's own fields say so, whatever the share table holds |
| `NoteShares.StepKeepsClean` | gateway/src/daisy.rs:868-999 | every request keeps: one row per note and target, exactly one of user and address, viewer or editor, never the owner |
| `NoteShares.RunKeepsClean` | gateway/src/daisy.rs:1185-1388 | the same over every run of requests and failures |
| `NoteShares.StrangersChangeNothing` | gateway/src/daisy.rs:1257-1264 | a request by anyone but an owner leaves the table as it was and is never answered with success |
| `NoteShares.SharersAreFixed` | gateway/src/daisy.rs:801-819 | no run changes who may share a note |
| `NoteShares.StepIsMapUpdate` | gateway/src/daisy.rs:868-999 | the table is a map from note and target to permission: a granted request that lands sets or clears one entry and leaves all other rows alone |
| `NoteShares.RoleOfTwo` | gateway/src/daisy.rs:782-791 | of two shares the newer counts, and the user's if neither is newer |
| `NoteShares.UpsertTakesEffectIff` | gateway/src/daisy.rs:868-918 | a share given to a user takes effect if and only if no share for the address says otherwise that is newer than the one it changes, or than the new one |
| `NoteShares.AddressUpsertTakesEffectIff` | gateway/src/daisy.rs:868-918 | a share given to an address takes effect if and only if the one it changes, or the new one, is newer than the user's share, or agrees with it |
| `NoteShares.RemovalRevokesIff` | gateway/src/daisy.rs:958-999 | taking a user's share back shuts the user out if and only if the address has none |
| `NoteShares.AddressRemovalRevokesIff` | gateway/src/daisy.rs:958-999 | taking an address's share back shuts the person out if and only if the user has none |
| `NoteShares.OwnersAreGranted` | gateway/src/daisy.rs:1253-1283 | an owner's well-formed request is granted |
| `NoteShares.OlderShareIsIdle` | gateway/src/daisy.rs:868-999 | for anybody with an older and a newer share under two names, in the run from an empty table that gives them: changing the older one has no effect and removing it leaves access, though both are granted and carried out |
| `NoteShares.SomebodyHasTwoShares` | gateway/src/daisy.rs:868-999 | one such person, with the user's share the older and with the address's |
| `NoteShares.ListAfterRun` | gateway/src/daisy.rs:1011-1079 | after any run of requests every listed note has the role that resolving it alone gives, and with archived notes included and owners stored normalised the list is exactly the notes that resolve |
| `NoteShares.ListAgreesAfterAnyRun` | gateway/src/daisy.rs:626-792 | after any run of requests batch and single look-up agree on every note |
| `Prelude.SplitIsJoined` | gateway/src/auth/session.rs:307 | splitting a header loses nothing |
| `Prelude.PiecesAreFree` | gateway/src/auth/session.rs:307 | no piece holds a separator |
| `Prelude.SplitOnce` | gateway/src/auth/session.rs:309-311 | the pair around the first equals sign, if there is one |
| `Cookies.ExtractIff` | gateway/src/middleware/rate_limit.rs:172-181 | the session is the value in the first piece of the header that is a session cookie, and none if and only if no piece is |
| `Cookies.RouteBucketIs` | gateway/src/middleware/rate_limit.rs:192-202 | a path is in a group if and only if it has the group's prefix |
| `Cookies.KeysTellPrincipals` | gateway/src/middleware/rate_limit.rs:158-202 | two requests share a bucket if and only if their paths have the same group's prefix and the sessions their headers say have one fingerprint, or neither says one and the addresses agree |
| `Cookies.ForwardedCookies` | gateway/src/auth/session.rs:305-320 | exactly the pieces that give a session cookie, of the configured name or the usual one, are forwarded, in order and without the space around name and value; the token is the first one's value |
| `SessionCache.BetterAuthClient.CacheInsert` | gateway/src/auth/session.rs:245-271 | a cache of more than 10000 is emptied first; afterwards at most 10001 entries |
| `SessionCache.BetterAuthClient.Begin` | gateway/src/auth/session.rs:292-351 | cache hit below 20 seconds, fallback below 600, under the credential's key |
| `SessionCache.BetterAuthClient.Finish` | gateway/src/auth/session.rs:353-407 | the fallback is used only for a failed request or a 5xx answer; a success and nothing else is stored |
| `SessionCache.KeysNeverCoincide` | gateway/src/auth/session.rs:326-340 | a key made from a cookie is never one made from a bearer token |
| `SessionCache.CacheIsLatest` | gateway/src/auth/session.rs:229-271 | what the cache holds for a key is the latest success stored for it, of the key's kind |
| `SessionCache.InsertKeepsCache` | gateway/src/auth/session.rs:262-270 | storing a success keeps that |
| `SessionCache.LookKeeps` | gateway/src/auth/session.rs:328-348 | what a look hands out or keeps as fallback is that success, within its age limits |
| `SessionCache.AnswerKeeps` | gateway/src/auth/session.rs:353-407 | an upstream answer, whenever it comes, keeps all of it |
| `SessionCache.Provenance` | gateway/src/auth/session.rs:282-407 | in every interleaving, whatever is served from the cache is the latest success stored for the key at the look-up, of the right kind, younger than 20 seconds, or younger than 600 while this call's request failed; never more than 10001 entries |
| `SessionCache.KeyIs` | gateway/src/auth/session.rs:322-340 | a bearer token is looked up under itself, a cookie header under the value of its first session cookie, and one without is not |
| `SessionCache.ResultIs` | gateway/src/auth/session.rs:353-406 | what a call gets for each kind of answer |
| `SessionCache.FallbackIff` | gateway/src/auth/session.rs:353-395 | the fallback is returned if and only if there is one and the request failed or was answered with 5xx |
| `SessionCache.ResultsAreAccountedFor` | gateway/src/auth/session.rs:282-407 | in every interleaving a principal a call returns was given to that very call by the upstream or served from the cache, and whatever is served is returned |
| `SessionCache.AgeWhenServed` | gateway/src/auth/session.rs:328-384 | in every run whose requests end within the client's time-out, what is handed out from the cache is then younger than 600 seconds and the time-out |
| `SessionCache.AgeBoundIff` | gateway/src/auth/session.rs:328-384 | a bound on that age holds of all such runs if and only if it is at least 600 seconds and the time-out |
| `SessionCache.StaleBoundIff` | gateway/src/auth/session.rs:174-177 | so 600 seconds is one if and only if the time-out is zero |
| `SessionCache.CacheRemembers` | gateway/src/auth/session.rs:245-271 | over every run the cache holds, for each key of the successes since it was last emptied, the latest of them, and nothing else; a success empties it only when those name more than 10000 keys |
| `SessionCache.NothingForgottenIff` | gateway/src/auth/session.rs:262-269 | nothing is forgotten if and only if the successes before the last one name at most 10000 keys |
| `SessionCache.LetInAtOnceIff` | gateway/src/auth/session.rs:322-335 | a call is let in without asking if and only if its key's latest success since the last emptying is not 20 seconds old; without a session it is refused; otherwise it asks |
| `SessionCache.OutageLetsInIff` | gateway/src/auth/session.rs:328-384 | a call made during an outage is let in if and only if its key's latest success since the last emptying is young enough |
| `SessionCache.OnlySuccessChangesCache` | gateway/src/auth/session.rs:369-405 | no step but a success changes the cache, so no refusal takes a session out of it |
| `SessionCache.RefusalIsForgotten` | gateway/src/auth/session.rs:328-405 | a call made while the upstream is out of order is let in if and only if its key was cached at the last success and is young enough still, whatever was refused since |
| `SessionCache.RefusedAndServed` | gateway/src/auth/session.rs:361-384 | a run in which a session is refused and later let in |
| `SessionCache.PrincipalIsNormal` | gateway/src/auth/session.rs:186-227 | id trimmed, the session's or, if blank, the user's; address trimmed and lower-case, if and only if not blank; session, organisation, role and method as given |
| `Fingerprint.Fnv1a128` | gateway/src/audit/redact.rs:70-80 | the loop computes the fold of xor and wrapping multiplication |
| `Fingerprint.KnownFingerprints` | gateway/src/audit/redact.rs:70-80 | the fingerprints of no bytes and of the letter a are the published ones |
| `Fingerprint.XorBitAt` | gateway/src/audit/redact.rs:76 | a bit of the exclusive or is set if and only if the bits differ |
| `Fingerprint.MulRoundTrip` | gateway/src/audit/redact.rs:71-77 | multiplying by the prime modulo 2^128 can be undone |
| `Fingerprint.FoldRoundTrip` | gateway/src/audit/redact.rs:73-80 | folding in any bytes maps words one to one onto words |
| `Fingerprint.SuffixCancels` | gateway/src/audit/redact.rs:73-80 | with a common ending, equal fingerprints if and only if equal without it |
| `Fingerprint.OneByteTells` | gateway/src/audit/redact.rs:73-80 | inputs of one length that differ in one byte have different fingerprints |
| `Fingerprint.PrintedReads` | gateway/src/audit/redact.rs:30-33 | the printed halves read back to the fingerprint |
| `Fingerprint.PrintedTells` | gateway/src/audit/redact.rs:30-33 | printed alike if and only if the fingerprints are equal; 38 characters |
| `InvoiceLedger.Invoice.CreatePayment` | gateway/src/lib.rs:3878-4047 | the checks in their order, then payment and invoice as each write's fate says |
| `InvoiceLedger.ReplyIff` | gateway/src/lib.rs:3884-4047 | every answer is given if and only if its own reason holds of request and invoice; success also where a write was refused |
| `InvoiceLedger.HandleKeepsBalance` | gateway/src/lib.rs:3930-4031 | paid plus due stays the total and due never negative; the clamp never acts; paid if and only if at most 0.001 is due |
| `InvoiceLedger.LedgerConserved` | gateway/src/lib.rs:3930-4047 | over every run and every pattern of failed writes and lost answers, recorded payments and amount paid differ by exactly the writes that were lost |
| `InvoiceLedger.StoredWritesConserve` | gateway/src/lib.rs:3987-4031 | with all writes stored the amount paid is the sum of the recorded payments and never more than the total |
| `InvoiceLedger.LedgerAgreesIff` | gateway/src/lib.rs:3997-4047 | after every request of a run the amount paid is the sum of the recorded payments, if and only if no request that passes the checks has one of its writes stored and the other not |
| `InvoiceLedger.LostUpdatePaysTwice` | gateway/src/lib.rs:4032-4047 | an invoice whose first update is lost, or whose first payment is stored and not answered, takes its full total twice |

## Left out

- HTTP, JSON, Redis, Supabase, BetterAuth and file access: the data plane is a table with the fate of each write as an input, the upstream an oracle, the audit file a sequence of parsed lines.
- Clocks are inputs: times are reals, and runs of the rate limiter are in order of time.
- Floating point: tokens, times and money are reals, so rounding errors, infinities and NaN are not modelled.
- The argument validation of the individual tools and their dispatch: validity and outcome of a call are inputs.
- The order in which a semaphore serves its waiters: any waiter may be next, so fairness is neither assumed nor shown.
- Timeouts as durations: giving up and timing out are possible at any time.
- Reading numbers from text: `parse` in the journal is any function that yields zero for what is no number; a blank or missing cell is zero by the model.
- The encoding of text: strings are sequences of characters, so lengths and positions in dates count characters where the source counts bytes.
- The customers, suppliers and bank accounts of an import, the purge, the other sheets' parsers and the reading of workbooks.
- The descriptions, references and entry numbers of posted entries beyond their running number, and the texts of warnings.
- Ledger rows of inserted lines that come back from the data plane without an id or account: lines are taken to come back as they were posted.
- Concurrent requests on one invoice or one share table: these handlers read and then write without a lock, and their runs are serial here.
- The order in which notes and dashboard sessions are listed, and a note's contents.
- Note ids with commas or brackets, which would change the meaning of the list query.
- The audit lines before the dashboard's scan window: the lines given are those inside it.
- The role checks of the policy engine, egress rules, CSRF, header hardening, JWT, metrics and lock poisoning, which would add only single-branch members.
- The time between the look-up in the session cache and the sending of the request: requests are taken to go out at the look-up.
