/** The dashboard's view of the audit log: tool events grouped by session. */
module Dashboard {
  import opened Prelude

  /** One parsed line of the audit file. */
  datatype Line = Line(eventType: string, session: string, timestamp: string, toolName: string)

  datatype Outcome = Success | Blocked | Error

  datatype Log = Log(
    session: string, timestamp: string, outcome: Outcome,
    readPrivate: bool, writeOperation: bool, external: bool)

  datatype Metrics = Metrics(startTime: string, toolCalls: nat, errors: nat, blocked: nat, lethalTrifecta: bool)

  datatype Risk = Low | Medium | High

  // ---------------------------------------------------------------------
  // From lines to logs
  // ---------------------------------------------------------------------

  predicate IsToolEvent(line: Line) { StartsWith(line.eventType, "tool.invoke_") }

  function OutcomeOf(eventType: string): Outcome {
    if eventType == "tool.invoke_success" then Success
    else if eventType == "tool.invoke_rejected" || eventType == "gateway.egress_blocked" then Blocked
    else if eventType == "tool.invoke_failure" then Error
    else Success
  }

  function LogOf(line: Line): Log {
    var t := line.toolName;
    Log(line.session, line.timestamp, OutcomeOf(line.eventType), false,
        Contains(t, "create") || Contains(t, "update") || Contains(t, "delete") || Contains(t, "write") || Contains(t, "patch"),
        StartsWith(line.eventType, "gateway.egress"))
  }

  function LogsOf(lines: seq<Line>): seq<Log> {
    if lines == [] then []
    else
      var front, last := LogsOf(lines[..|lines| - 1]), lines[|lines| - 1];
      if IsToolEvent(last) then front + [LogOf(last)] else front
  }

  // ---------------------------------------------------------------------
  // Direct counts
  // ---------------------------------------------------------------------

  function CallsIn(logs: seq<Log>, session: string): nat {
    if logs == [] then 0
    else CallsIn(logs[..|logs| - 1], session) + Bit(logs[|logs| - 1].session == session)
  }

  function OutcomesIn(logs: seq<Log>, session: string, o: Outcome): nat {
    if logs == [] then 0
    else OutcomesIn(logs[..|logs| - 1], session, o) + Bit(logs[|logs| - 1].session == session && logs[|logs| - 1].outcome == o)
  }

  function Outcomes(logs: seq<Log>, o: Outcome): nat {
    if logs == [] then 0 else Outcomes(logs[..|logs| - 1], o) + Bit(logs[|logs| - 1].outcome == o)
  }

  predicate Trifecta(log: Log) { log.readPrivate && log.writeOperation && log.external }

  /** `m` is what the logs say about one session. */
  ghost predicate Summarises(logs: seq<Log>, session: string, m: Metrics) {
    && m.toolCalls == CallsIn(logs, session)
    && m.errors == OutcomesIn(logs, session, Error)
    && m.blocked == OutcomesIn(logs, session, Blocked)
    && m.errors + m.blocked <= m.toolCalls
    && (exists i :: 0 <= i < |logs| && logs[i].session == session && logs[i].timestamp == m.startTime)
    && (forall i :: 0 <= i < |logs| && logs[i].session == session ==> !Before(logs[i].timestamp, m.startTime))
    && (m.lethalTrifecta <==> exists i :: 0 <= i < |logs| && logs[i].session == session && Trifecta(logs[i]))
  }

  ghost predicate Grouped(logs: seq<Log>, sessions: map<string, Metrics>) {
    && (forall s :: s in sessions <==> exists i :: 0 <= i < |logs| && logs[i].session == s)
    && (forall s :: s in sessions ==> Summarises(logs, s, sessions[s]))
  }

  // ---------------------------------------------------------------------
  // Grouping
  // ---------------------------------------------------------------------

  function Join(m: Metrics, log: Log): Metrics {
    Metrics(
      if Before(log.timestamp, m.startTime) then log.timestamp else m.startTime,
      m.toolCalls + 1,
      if log.outcome.Error? then m.errors + 1 else m.errors,
      if log.outcome.Blocked? then m.blocked + 1 else m.blocked,
      m.lethalTrifecta || Trifecta(log))
  }

  lemma NeverBeforeItself(s: string)
    ensures !Before(s, s)
  {
    if Before(s, s) {
      BeforeAsymmetric(s, s);
    }
  }

  lemma EarliestJoins(logs: seq<Log>, log: Log, m: Metrics)
    requires forall i :: 0 <= i < |logs| && logs[i].session == log.session ==> !Before(logs[i].timestamp, m.startTime)
    ensures var start := Join(m, log).startTime;
            forall i :: 0 <= i < |logs + [log]| && (logs + [log])[i].session == log.session
              ==> !Before((logs + [log])[i].timestamp, start)
  {
    var start := Join(m, log).startTime;
    forall i | 0 <= i < |logs + [log]| && (logs + [log])[i].session == log.session
      ensures !Before((logs + [log])[i].timestamp, start)
    {
      var t := (logs + [log])[i].timestamp;
      if i == |logs| {
        NeverBeforeItself(t);
      } else if Before(t, start) && start != m.startTime {
        assert t == logs[i].timestamp;
        BeforeTransitive(t, start, m.startTime);
      }
    }
  }

  lemma CountsSnoc(logs: seq<Log>, log: Log, session: string)
    ensures CallsIn(logs + [log], session) == CallsIn(logs, session) + Bit(log.session == session)
    ensures forall o :: OutcomesIn(logs + [log], session, o) == OutcomesIn(logs, session, o) + Bit(log.session == session && log.outcome == o)
    ensures forall o :: Outcomes(logs + [log], o) == Outcomes(logs, o) + Bit(log.outcome == o)
  {
    assert (logs + [log])[..|logs|] == logs;
  }

  lemma OthersStaySummarised(logs: seq<Log>, log: Log, session: string, m: Metrics)
    requires session != log.session && Summarises(logs, session, m)
    ensures Summarises(logs + [log], session, m)
  {
    CountsSnoc(logs, log, session);
    var all := logs + [log];
    var k :| 0 <= k < |logs| && logs[k].session == session && logs[k].timestamp == m.startTime;
    assert all[k].session == session && all[k].timestamp == m.startTime;
    assert forall i :: 0 <= i < |logs| ==> all[i] == logs[i];
  }

  lemma SessionJoins(logs: seq<Log>, log: Log, m: Metrics)
    requires Summarises(logs, log.session, m)
    ensures Summarises(logs + [log], log.session, Join(m, log))
  {
    CountsSnoc(logs, log, log.session);
    EarliestJoins(logs, log, m);
    var all := logs + [log];
    var k :| 0 <= k < |logs| && logs[k].session == log.session && logs[k].timestamp == m.startTime;
    assert all[k] == logs[k] && all[|logs|] == log;
    assert forall i :: 0 <= i < |logs| ==> all[i] == logs[i];
  }

  lemma {:induction false} NoCalls(logs: seq<Log>, session: string)
    requires forall i :: 0 <= i < |logs| ==> logs[i].session != session
    ensures CallsIn(logs, session) == 0 && forall o :: OutcomesIn(logs, session, o) == 0
  {
    if logs != [] {
      NoCalls(logs[..|logs| - 1], session);
    }
  }

  lemma SessionOpens(logs: seq<Log>, log: Log)
    requires forall i :: 0 <= i < |logs| ==> logs[i].session != log.session
    ensures Summarises(logs + [log], log.session, Join(Metrics(log.timestamp, 0, 0, 0, false), log))
  {
    NoCalls(logs, log.session);
    CountsSnoc(logs, log, log.session);
    var m := Metrics(log.timestamp, 0, 0, 0, false);
    NeverBeforeItself(log.timestamp);
    EarliestJoins(logs, log, m);
    var all := logs + [log];
    assert all[|logs|] == log;
    assert forall i :: 0 <= i < |logs| ==> all[i] == logs[i];
  }

  function ToolCalls(m: Metrics): nat { m.toolCalls }
  function Errors(m: Metrics): nat { m.errors }
  function BlockedCalls(m: Metrics): nat { m.blocked }

  /** Summed over sessions, the counters are those of the whole log. */
  ghost predicate Tallied(logs: seq<Log>, sessions: map<string, Metrics>) {
    && Grouped(logs, sessions)
    && Sum(sessions, ToolCalls) == |logs|
    && Sum(sessions, Errors) == Outcomes(logs, Error)
    && Sum(sessions, BlockedCalls) == Outcomes(logs, Blocked)
  }

  /** What a log adds to the entry of its session. */
  method CountLog(entry: Metrics, log: Log) returns (joined: Metrics)
    ensures joined == Join(entry, log)
  {
    joined := entry.(toolCalls := entry.toolCalls + 1);
    if log.outcome == Error {
      joined := joined.(errors := joined.errors + 1);
    }
    if log.outcome == Blocked {
      joined := joined.(blocked := joined.blocked + 1);
    }
    if Before(log.timestamp, joined.startTime) {
      joined := joined.(startTime := log.timestamp);
    }
    if log.readPrivate && log.writeOperation && log.external {
      joined := joined.(lethalTrifecta := true);
    }
  }

  function EntryFor(sessions: map<string, Metrics>, log: Log): Metrics {
    if log.session in sessions then sessions[log.session] else Metrics(log.timestamp, 0, 0, 0, false)
  }

  function GroupOf(logs: seq<Log>): map<string, Metrics> {
    if logs == [] then map[]
    else
      var before, log := GroupOf(logs[..|logs| - 1]), logs[|logs| - 1];
      before[log.session := Join(EntryFor(before, log), log)]
  }

  /** Groups the logs by session. Every session is summarised by its own logs, and
      nothing is lost or counted twice. */
  method GroupBySession(logs: seq<Log>) returns (sessions: map<string, Metrics>)
    ensures Tallied(logs, sessions)
  {
    sessions := map[];
    for i := 0 to |logs|
      invariant sessions == GroupOf(logs[..i])
    {
      assert logs[..i + 1][..i] == logs[..i];
      var log := logs[i];
      var joined := CountLog(EntryFor(sessions, log), log);
      sessions := sessions[log.session := joined];
    }
    assert logs[..|logs|] == logs;
    GroupIsTallied(logs);
  }

  lemma GroupIsTallied(logs: seq<Log>)
    ensures Tallied(logs, GroupOf(logs))
  {
    GroupIsGrouped(logs);
    GroupSums(logs);
  }

  lemma {:induction false} GroupIsGrouped(logs: seq<Log>)
    ensures Grouped(logs, GroupOf(logs))
  {
    if logs != [] {
      GroupIsGrouped(logs[..|logs| - 1]);
      GroupGrows(logs, logs[..|logs| - 1], logs[|logs| - 1], GroupOf(logs[..|logs| - 1]));
    }
  }

  lemma GroupGrows(logs: seq<Log>, front: seq<Log>, log: Log, sessions: map<string, Metrics>)
    requires logs == front + [log] && Grouped(front, sessions)
    ensures Grouped(logs, sessions[log.session := Join(EntryFor(sessions, log), log)])
  {
    GroupedStep(front, log, sessions, EntryFor(sessions, log));
  }

  lemma {:induction false} GroupSums(logs: seq<Log>)
    ensures Sum(GroupOf(logs), ToolCalls) == |logs|
    ensures Sum(GroupOf(logs), Errors) == Outcomes(logs, Error)
    ensures Sum(GroupOf(logs), BlockedCalls) == Outcomes(logs, Blocked)
  {
    if logs != [] {
      var sessions, log := GroupOf(logs[..|logs| - 1]), logs[|logs| - 1];
      GroupSums(logs[..|logs| - 1]);
      var joined := Join(EntryFor(sessions, log), log);
      SumUpdate(sessions, ToolCalls, log.session, joined);
      SumUpdate(sessions, Errors, log.session, joined);
      SumUpdate(sessions, BlockedCalls, log.session, joined);
    }
  }

  lemma GroupedStep(logs: seq<Log>, log: Log, sessions: map<string, Metrics>, entry: Metrics)
    requires Grouped(logs, sessions)
    requires entry == if log.session in sessions then sessions[log.session] else Metrics(log.timestamp, 0, 0, 0, false)
    ensures Grouped(logs + [log], sessions[log.session := Join(entry, log)])
  {
    var all, sessions' := logs + [log], sessions[log.session := Join(entry, log)];
    if log.session in sessions {
      SessionJoins(logs, log, entry);
    } else {
      SessionOpens(logs, log);
    }
    forall s | s in sessions' ensures Summarises(all, s, sessions'[s]) {
      if s != log.session {
        OthersStaySummarised(logs, log, s, sessions[s]);
      }
    }
    forall s
      ensures s in sessions' <==> exists i :: 0 <= i < |all| && all[i].session == s
    {
      if s in sessions {
        var k :| 0 <= k < |logs| && logs[k].session == s;
        assert all[k].session == s;
      }
      assert all[|logs|].session == log.session;
      assert forall i :: 0 <= i < |logs| ==> all[i] == logs[i];
    }
  }

  // ---------------------------------------------------------------------
  // The report
  // ---------------------------------------------------------------------

  method CollectLogs(lines: seq<Line>) returns (logs: seq<Log>)
    ensures logs == LogsOf(lines)
    ensures |logs| <= |lines|
  {
    logs := [];
    for i := 0 to |lines|
      invariant logs == LogsOf(lines[..i]) && |logs| <= i
    {
      assert lines[..i + 1][..i] == lines[..i];
      if IsToolEvent(lines[i]) {
        logs := logs + [LogOf(lines[i])];
      }
    }
    assert lines[..|lines|] == lines;
  }

  /** No session ever shows the three risks together: no log is ever marked as reading private data, and, since
      tool events and egress events are disjoint, none is external either. */
  lemma {:induction false} AlarmNeverRings(lines: seq<Line>)
    ensures forall i :: 0 <= i < |LogsOf(lines)| ==>
              !LogsOf(lines)[i].external && !LogsOf(lines)[i].readPrivate && !Trifecta(LogsOf(lines)[i])
  {
    if lines != [] {
      AlarmNeverRings(lines[..|lines| - 1]);
      var last := lines[|lines| - 1];
      if IsToolEvent(last) {
        assert last.eventType[0] == 't';
      }
    }
  }

  /** Adds up a counter over all sessions. */
  method Total(sessions: map<string, Metrics>, counter: Metrics -> nat) returns (total: nat)
    ensures total == Sum(sessions, counter)
  {
    total := 0;
    var rest := sessions;
    while rest != map[]
      invariant total + Sum(rest, counter) == Sum(sessions, counter)
      decreases |rest|
    {
      var s :| s in rest;
      SumTakeOut(rest, counter, s);
      total := total + counter(rest[s]);
      rest := rest - {s};
    }
  }

  /** A log is its line's: session and time as they are, an error or a blocked call by the type of the event, and a write
      operation by the words of one in the tool's name. */
  lemma LogIs(line: Line)
    requires IsToolEvent(line)
    ensures LogOf(line).session == line.session && LogOf(line).timestamp == line.timestamp
    ensures LogOf(line).outcome == Error <==> line.eventType == "tool.invoke_failure"
    ensures LogOf(line).outcome == Blocked <==> line.eventType == "tool.invoke_rejected"
    ensures LogOf(line).writeOperation <==>
            exists word :: word in {"create", "update", "delete", "write", "patch"} && Contains(line.toolName, word)
  {
    assert "gateway.egress_blocked"[0] == 'g' && line.eventType[0] == 't';
    assert "tool.invoke_success"[12] == 's' && "tool.invoke_failure"[12] == 'f' && "tool.invoke_rejected"[12] == 'r';
  }

  function LinesOfSession(lines: seq<Line>, session: string): nat {
    if lines == [] then 0
    else
      var last := lines[|lines| - 1];
      LinesOfSession(lines[..|lines| - 1], session) + Bit(StartsWith(last.eventType, "tool.invoke_") && last.session == session)
  }

  function LinesOfType(lines: seq<Line>, session: string, eventType: string): nat {
    if lines == [] then 0
    else
      var last := lines[|lines| - 1];
      LinesOfType(lines[..|lines| - 1], session, eventType) + Bit(last.eventType == eventType && last.session == session)
  }

  lemma TypesAreTools()
    ensures StartsWith("tool.invoke_failure", "tool.invoke_") && StartsWith("tool.invoke_rejected", "tool.invoke_")
  {
    assert "tool.invoke_failure"[..12] == "tool.invoke_" && "tool.invoke_rejected"[..12] == "tool.invoke_";
  }

  /** What a session's logs count is what its lines do. */
  lemma {:induction false} SessionCountsLines(lines: seq<Line>, session: string)
    ensures CallsIn(LogsOf(lines), session) == LinesOfSession(lines, session)
    ensures OutcomesIn(LogsOf(lines), session, Error) == LinesOfType(lines, session, "tool.invoke_failure")
    ensures OutcomesIn(LogsOf(lines), session, Blocked) == LinesOfType(lines, session, "tool.invoke_rejected")
  {
    if lines != [] {
      var n := |lines| - 1;
      SessionCountsLines(lines[..n], session);
      TypesAreTools();
      if IsToolEvent(lines[n]) {
        LogIs(lines[n]);
        CountsSnoc(LogsOf(lines[..n]), LogOf(lines[n]), session);
      }
    }
  }

  /** `at` are the places of the lines that the logs were made from: all the tool events, in order. */
  ghost predicate MadeFrom(logs: seq<Log>, lines: seq<Line>, at: seq<nat>) {
    && |at| == |logs|
    && (forall k :: 0 <= k < |at| ==> at[k] < |lines| && IsToolEvent(lines[at[k]]) && logs[k] == LogOf(lines[at[k]]))
    && (forall j, k :: 0 <= j < k < |at| ==> at[j] < at[k])
    && (forall i: nat :: i < |lines| && IsToolEvent(lines[i]) ==> i in at)
  }

  /** The logs are the tool events' lines, one by one and in order. */
  lemma {:induction false} LogsAreLines(lines: seq<Line>) returns (at: seq<nat>)
    ensures MadeFrom(LogsOf(lines), lines, at)
  {
    if lines == [] {
      at := [];
    } else {
      var n := |lines| - 1;
      at := LogsAreLines(lines[..n]);
      if IsToolEvent(lines[n]) {
        OneMoreLine(LogsOf(lines[..n]), lines, at);
        at := at + [n];
      } else {
        NoMoreLine(LogsOf(lines[..n]), lines, at);
      }
    }
  }

  lemma OneMoreLine(logs: seq<Log>, lines: seq<Line>, at: seq<nat>)
    requires lines != [] && MadeFrom(logs, lines[..|lines| - 1], at) && IsToolEvent(lines[|lines| - 1])
    ensures MadeFrom(logs + [LogOf(lines[|lines| - 1])], lines, at + [|lines| - 1])
  {
    forall i: nat | i < |lines| && IsToolEvent(lines[i]) ensures i in at + [|lines| - 1] {
      if i < |lines| - 1 {
        assert lines[..|lines| - 1][i] == lines[i];
      }
    }
  }

  lemma NoMoreLine(logs: seq<Log>, lines: seq<Line>, at: seq<nat>)
    requires lines != [] && MadeFrom(logs, lines[..|lines| - 1], at) && !IsToolEvent(lines[|lines| - 1])
    ensures MadeFrom(logs, lines, at)
  {
    forall i: nat | i < |lines| && IsToolEvent(lines[i]) ensures i in at {
      assert lines[..|lines| - 1][i] == lines[i];
    }
  }

  /** A session starts at the time of one of its tool events than which none of them is earlier. */
  lemma {:induction false} SessionStarts(lines: seq<Line>, session: string, m: Metrics)
    requires Summarises(LogsOf(lines), session, m)
    ensures exists i :: 0 <= i < |lines| && IsToolEvent(lines[i]) && lines[i].session == session && lines[i].timestamp == m.startTime
    ensures forall i :: 0 <= i < |lines| && IsToolEvent(lines[i]) && lines[i].session == session ==> !Before(lines[i].timestamp, m.startTime)
  {
    var logs := LogsOf(lines);
    var at := LogsAreLines(lines);
    var k :| 0 <= k < |logs| && logs[k].session == session && logs[k].timestamp == m.startTime;
    LogIs(lines[at[k]]);
    forall i: nat | i < |lines| && IsToolEvent(lines[i]) && lines[i].session == session ensures !Before(lines[i].timestamp, m.startTime) {
      var j :| 0 <= j < |at| && at[j] == i;
      LogIs(lines[i]);
      assert logs[j] == LogOf(lines[i]);
    }
  }

  /** The totals and the risk level are those of the tool events in the file. */
  method Report(lines: seq<Line>) returns (sessions: map<string, Metrics>, calls: nat, errors: nat, blocked: nat, risk: Risk)
    ensures Grouped(LogsOf(lines), sessions)
    ensures calls == |LogsOf(lines)| && errors == Outcomes(LogsOf(lines), Error) && blocked == Outcomes(LogsOf(lines), Blocked)
    ensures risk.Low? <==> forall i :: 0 <= i < |LogsOf(lines)| ==> LogsOf(lines)[i].outcome == Success
    ensures risk.High? <==> blocked > 10 || errors > 15
    ensures forall s :: s in sessions ==> !sessions[s].lethalTrifecta
    ensures forall s :: s in sessions ==> CountsLines(lines, s, sessions[s])
  {
    var logs := CollectLogs(lines);
    sessions := GroupBySession(logs);
    calls := |logs|;
    errors := Total(sessions, Errors);
    blocked := Total(sessions, BlockedCalls);
    risk := if blocked > 10 || errors > 15 then High else if blocked > 0 || errors > 0 then Medium else Low;
    NoneMeansNone(logs);
    AlarmNeverRings(lines);
    forall s | s in sessions ensures CountsLines(lines, s, sessions[s]) {
      SessionCountsLines(lines, s);
    }
  }

  /** What is shown of a session, said of the lines of the file. */
  predicate CountsLines(lines: seq<Line>, session: string, m: Metrics) {
    && m.toolCalls == LinesOfSession(lines, session)
    && m.errors == LinesOfType(lines, session, "tool.invoke_failure")
    && m.blocked == LinesOfType(lines, session, "tool.invoke_rejected")
  }

  lemma {:induction false} NoneMeansNone(logs: seq<Log>)
    ensures Outcomes(logs, Error) == 0 && Outcomes(logs, Blocked) == 0 <==> forall i :: 0 <= i < |logs| ==> logs[i].outcome == Success
  {
    if logs != [] {
      var front := logs[..|logs| - 1];
      NoneMeansNone(front);
      assert (forall i :: 0 <= i < |logs| ==> logs[i].outcome == Success)
        <==> (forall i :: 0 <= i < |front| ==> front[i].outcome == Success) && logs[|logs| - 1].outcome == Success by {
        assert forall i :: 0 <= i < |front| ==> front[i] == logs[i];
      }
    }
  }
}
