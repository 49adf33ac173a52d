/** The dashboard reading what the tool runtime wrote. */
module AuditDashboard {
  import opened Prelude
  import Cfg = ToolConfig
  import Run = ToolRuntime
  import Audit = ToolRuntimeAudit
  import Progress = ToolRuntimeProgress
  import opened Dashboard
  import opened Timestamp

  function TypeName(t: Audit.EventType): string {
    match t
    case StartType => "tool.invoke_start"
    case SuccessType => "tool.invoke_success"
    case FailureType => "tool.invoke_failure"
    case RejectedType => "tool.invoke_rejected"
    case EgressBlockedType => "gateway.egress_blocked"
  }

  /** The lines of an audit file into which the log was written, whatever sessions, times and tools they name. Between
      them may be any lines of other components, such as sign-ins or hits of the rate limit; none is a tool event. */
  predicate Written(lines: seq<Line>, log: seq<Run.LogEntry>) {
    if lines == [] then log == []
    else
      var n, last := |lines| - 1, lines[|lines| - 1];
      || (!IsToolEvent(last) && Written(lines[..n], log))
      || (log != [] && last.eventType == TypeName(Audit.TypeOf(log[|log| - 1].event)) && Written(lines[..n], log[..|log| - 1]))
  }

  lemma TypeNames(t: Audit.EventType)
    ensures StartsWith(TypeName(t), "tool.invoke_") <==> !t.EgressBlockedType?
    ensures OutcomeOf(TypeName(t)) ==
      match t
      case StartType | SuccessType => Success
      case FailureType => Error
      case RejectedType | EgressBlockedType => Blocked
  {
    assert TypeName(Audit.EgressBlockedType)[0] == 'g';
    assert TypeName(Audit.StartType)[..12] == "tool.invoke_" && TypeName(Audit.SuccessType)[..12] == "tool.invoke_";
    assert TypeName(Audit.FailureType)[..12] == "tool.invoke_" && TypeName(Audit.RejectedType)[..12] == "tool.invoke_";
    assert TypeName(Audit.StartType)[12..] == "start" && TypeName(Audit.SuccessType)[12..] == "success";
    assert TypeName(Audit.FailureType)[12..] == "failure" && TypeName(Audit.RejectedType)[12..] == "rejected";
    assert |TypeName(Audit.StartType)| == 17;
  }

  lemma {:induction false} LinesCountEvents(lines: seq<Line>, log: seq<Run.LogEntry>)
    requires Written(lines, log)
    ensures Outcomes(LogsOf(lines), Error) == Audit.Tally(log, Audit.FailureType)
    ensures Outcomes(LogsOf(lines), Blocked) == Audit.Tally(log, Audit.RejectedType)
    ensures |LogsOf(lines)| == Audit.Tally(log, Audit.StartType) + Audit.Tally(log, Audit.SuccessType)
                               + Audit.Tally(log, Audit.FailureType) + Audit.Tally(log, Audit.RejectedType)
  {
    if lines != [] {
      var n := |lines| - 1;
      if !IsToolEvent(lines[n]) && Written(lines[..n], log) {
        LinesCountEvents(lines[..n], log);
      } else {
        var m := |log| - 1;
        LinesCountEvents(lines[..n], log[..m]);
        TypeNames(Audit.TypeOf(log[m].event));
        if IsToolEvent(lines[n]) {
          CountsSnoc(LogsOf(lines[..n]), LogOf(lines[n]), "");
        }
      }
    }
  }

  /** For any run of the runtime, the dashboard's errors are the calls that started and failed and its
      blocked calls are the calls refused before they started. */
  lemma DashboardCountsCalls(sys: Cfg.System, run: seq<Run.Step>, lines: seq<Line>)
    requires sys.audited && Written(lines, Run.Final(sys, run).log)
    ensures var s := Run.Final(sys, run);
            && Outcomes(LogsOf(lines), Error) == |Audit.AnnouncedCalls(s, Audit.FailureType)|
            && Outcomes(LogsOf(lines), Blocked) == |Audit.AnnouncedCalls(s, Audit.RejectedType)|
            && |LogsOf(lines)| == |Audit.AnnouncedCalls(s, Audit.StartType)| + |Audit.AnnouncedCalls(s, Audit.SuccessType)|
                                  + |Audit.AnnouncedCalls(s, Audit.FailureType)| + |Audit.AnnouncedCalls(s, Audit.RejectedType)|
  {
    LinesCountEvents(lines, Run.Final(sys, run).log);
    Audit.LogCountsCalls(sys, run, Audit.StartType);
    Audit.LogCountsCalls(sys, run, Audit.SuccessType);
    Audit.LogCountsCalls(sys, run, Audit.FailureType);
    Audit.LogCountsCalls(sys, run, Audit.RejectedType);
  }

  ghost predicate AllDone(s: Run.State) { forall c :: c in s.calls ==> s.calls[c].phase.Done? }

  lemma DoneSplits(phase: Run.Phase)
    requires phase.Done?
    ensures Audit.Announced(phase, Audit.StartType) <==>
              (Audit.Announced(phase, Audit.SuccessType) || Audit.Announced(phase, Audit.FailureType))
    ensures !(Audit.Announced(phase, Audit.SuccessType) && Audit.Announced(phase, Audit.FailureType))
    ensures Audit.Announced(phase, Audit.StartType) <==> !Audit.Announced(phase, Audit.RejectedType)
  {
  }

  lemma SizeOfSplit<T>(whole: set<T>, a: set<T>, b: set<T>)
    requires forall x :: x in whole <==> x in a || x in b
    requires forall x :: !(x in a && x in b)
    ensures |whole| == |a| + |b|
  {
    assert whole == a + b && a !! b;
  }

  lemma ReturnedCalls(s: Run.State)
    requires AllDone(s)
    ensures |Audit.AnnouncedCalls(s, Audit.StartType)|
            == |Audit.AnnouncedCalls(s, Audit.SuccessType)| + |Audit.AnnouncedCalls(s, Audit.FailureType)|
    ensures |s.calls| == |Audit.AnnouncedCalls(s, Audit.StartType)| + |Audit.AnnouncedCalls(s, Audit.RejectedType)|
  {
    var started, ok := Audit.AnnouncedCalls(s, Audit.StartType), Audit.AnnouncedCalls(s, Audit.SuccessType);
    var failed, refused := Audit.AnnouncedCalls(s, Audit.FailureType), Audit.AnnouncedCalls(s, Audit.RejectedType);
    forall c
      ensures c in started <==> c in ok || c in failed
      ensures !(c in ok && c in failed)
      ensures c in s.calls.Keys <==> c in started || c in refused
      ensures !(c in started && c in refused)
    {
      if c in s.calls {
        DoneSplits(s.calls[c].phase);
      }
    }
    SizeOfSplit(started, ok, failed);
    SizeOfSplit(s.calls.Keys, started, refused);
  }

  /** Starts are counted as calls of their own: once all calls have returned, the dashboard shows
      each call that was dispatched twice and each refused one once. */
  lemma DispatchedCallsCountTwice(sys: Cfg.System, run: seq<Run.Step>, lines: seq<Line>)
    requires sys.audited && Written(lines, Run.Final(sys, run).log) && AllDone(Run.Final(sys, run))
    ensures var s := Run.Final(sys, run);
            |LogsOf(lines)| == |s.calls| + |Audit.AnnouncedCalls(s, Audit.StartType)|
  {
    DashboardCountsCalls(sys, run, lines);
    ReturnedCalls(Run.Final(sys, run));
  }

  /** So its total is the number of calls exactly when every call was refused. */
  lemma TotalIsCallsIff(sys: Cfg.System, run: seq<Run.Step>, lines: seq<Line>)
    requires sys.audited && Written(lines, Run.Final(sys, run).log) && AllDone(Run.Final(sys, run))
    ensures var s := Run.Final(sys, run);
            |LogsOf(lines)| == |s.calls| <==> forall c :: c in s.calls ==> s.calls[c].phase.verdict.Refused?
  {
    var s := Run.Final(sys, run);
    DispatchedCallsCountTwice(sys, run, lines);
    var started := Audit.AnnouncedCalls(s, Audit.StartType);
    assert |started| == 0 <==> started == {};
    forall c | c in s.calls ensures c in started <==> !s.calls[c].phase.verdict.Refused? {
    }
  }

  /** The lines one file has for a log. */
  function LinesFor(log: seq<Run.LogEntry>): (lines: seq<Line>)
    ensures |lines| == |log|
  {
    seq(|log|, i requires 0 <= i < |log| => Line(TypeName(Audit.TypeOf(log[i].event)), "", "", ""))
  }

  lemma {:induction false} LinesAreWritten(log: seq<Run.LogEntry>)
    ensures Written(LinesFor(log), log)
  {
    if log != [] {
      var n := |log| - 1;
      LinesAreWritten(log[..n]);
      assert LinesFor(log)[..n] == LinesFor(log[..n]);
    }
  }

  /** One call, dispatched and successful, that the dashboard shows as two. */
  lemma OneCallCountsTwice(sys: Cfg.System, req: Cfg.Request) returns (run: seq<Run.Step>, lines: seq<Line>)
    requires sys.audited && Cfg.Screen(sys, req).None? && sys.cfg.maxQueue >= 1 && sys.cfg.maxConcurrentGlobal >= 1
    ensures Run.Legal(sys, run) && Written(lines, Run.Final(sys, run).log) && AllDone(Run.Final(sys, run))
    ensures |Run.Final(sys, run).calls| == 1 && |LogsOf(lines)| == 2
  {
    run := Progress.FirstCallSucceeds(sys, req);
    var s := Run.Final(sys, run);
    lines := LinesFor(s.log);
    LinesAreWritten(s.log);
    DispatchedCallsCountTwice(sys, run, lines);
    assert Audit.AnnouncedCalls(s, Audit.StartType) == {0};
  }

  // ---------------------------------------------------------------------
  // Session start times
  // ---------------------------------------------------------------------

  datatype Time = Time(secs: nat, millis: nat)

  function Millis(t: Time): nat { 1000 * t.secs + t.millis }

  /** Log `i` was written at `times[i]`. */
  predicate StampedAt(logs: seq<Log>, times: seq<Time>) {
    && |times| == |logs|
    && forall i :: 0 <= i < |logs| ==>
         times[i].secs < YEAR_10000 && times[i].millis < 1000 && logs[i].timestamp == Rfc3339(times[i].secs, times[i].millis)
  }

  /** The start time the dashboard picks by comparing strings is that of a log of the session than
      which no log of the session is older. */
  lemma StartTimeIsEarliest(logs: seq<Log>, times: seq<Time>, session: string, m: Metrics) returns (k: nat)
    requires StampedAt(logs, times) && Summarises(logs, session, m)
    ensures k < |logs| && logs[k].session == session && logs[k].timestamp == m.startTime
    ensures forall i :: 0 <= i < |logs| && logs[i].session == session ==> Millis(times[k]) <= Millis(times[i])
  {
    k :| 0 <= k < |logs| && logs[k].session == session && logs[k].timestamp == m.startTime;
    forall i | 0 <= i < |logs| && logs[i].session == session
      ensures Millis(times[k]) <= Millis(times[i])
    {
      StringOrderIsTimeOrder(times[i].secs, times[i].millis, times[k].secs, times[k].millis);
      assert !Before(logs[i].timestamp, m.startTime);
    }
  }
}
