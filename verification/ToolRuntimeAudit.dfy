/** What the audit log says about the calls that wrote it. */
module ToolRuntimeAudit {
  import opened Prelude
  import opened ToolConfig
  import opened ToolRuntime
  import opened ToolRuntimeProofs

  // ---------------------------------------------------------------------
  // The trace of one call
  // ---------------------------------------------------------------------

  /** The traces a returned call may leave. */
  predicate TraceOfVerdict(v: Verdict, trace: seq<Event>) {
    match v
    case Refused(reason) => trace == [Rejected(reason)]
    case Completed(o) =>
      if o.Ok? then trace == [Start, Success]
      else if IsBlocked(o) then trace == [Start, EgressBlocked, Failure(EgressBlockedKind)]
      else trace == [Start, Failure(KindOf(o))]
  }

  predicate TraceFits(phase: Phase, trace: seq<Event>) {
    match phase
    case WaitGlobal | WaitTool | Granted | Refusing(_) => trace == []
    case Running | Unwinding(_) | HalfUnwound(_) | Draining(_) | Finishing(_) => trace == [Start]
    case Flagged(o) => IsBlocked(o) && trace == [Start, EgressBlocked]
    case Done(v) => TraceOfVerdict(v, trace)
    case Abandoned(started) =>
      if started then trace == [Start] || trace == [Start, EgressBlocked] else trace == []
  }

  predicate TraceInState(sys: System, s: State, c: CallId) {
    var trace := TraceOf(s.log, c);
    if sys.audited && c in s.calls then TraceFits(s.calls[c].phase, trace) else trace == []
  }

  lemma TraceSnoc(log: seq<LogEntry>, e: LogEntry, c: CallId)
    ensures TraceOf(log + [e], c) == TraceOf(log, c) + if e.call == c then [e.event] else []
  {
    assert (log + [e])[..|log|] == log;
  }

  function Told(e: Option<Event>): seq<Event> { if e.Some? then [e.value] else [] }

  lemma OwnTrace(sys: System, s: State, step: Step, trace: seq<Event>)
    requires Enabled(sys, s, step)
    requires if step.Submit? then trace == [] else TraceFits(s.calls[step.c].phase, trace)
    ensures TraceFits(PhaseAfter(sys, s, step), trace + Told(EventOf(sys, s, step)))
  {
  }

  lemma StepKeepsTrace(sys: System, s: State, step: Step, c: CallId)
    requires Enabled(sys, s, step) && TraceInState(sys, s, c)
    ensures TraceInState(sys, Apply(sys, s, step), c)
  {
    var e := EventOf(sys, s, step);
    if e.Some? {
      TraceSnoc(s.log, LogEntry(step.c, e.value), c);
    }
    if step.c == c && sys.audited {
      OwnTrace(sys, s, step, TraceOf(s.log, c));
    }
  }

  /** Over any run, what a call left in the log fits the phase it is in; for a call that
      returned this is one of [rejected], [start, success], [start, failure] and
      [start, egress_blocked, failure], as its result says. */
  lemma {:induction false} TracesFit(sys: System, run: seq<Step>, c: CallId)
    ensures TraceInState(sys, Final(sys, run), c)
  {
    if run != [] {
      var front := run[..|run| - 1];
      TracesFit(sys, front, c);
      if Enabled(sys, Final(sys, front), run[|run| - 1]) {
        StepKeepsTrace(sys, Final(sys, front), run[|run| - 1], c);
      }
    }
  }

  /** The caller sees success exactly when the log's last word on the call is success, and a
      call refused before dispatch never announced a start. */
  lemma ResultMatchesTrace(sys: System, run: seq<Step>, c: CallId)
    requires sys.audited
    requires c in Final(sys, run).calls && Final(sys, run).calls[c].phase.Done?
    ensures var trace := TraceOf(Final(sys, run).log, c);
            var v := Final(sys, run).calls[c].phase.verdict;
            && 1 <= |trace| <= 3
            && (v == Completed(Ok) <==> trace[|trace| - 1] == Success)
            && (v.Refused? <==> trace[0].Rejected?)
            && (v.Refused? <==> Start !in trace)
            && (EgressBlocked in trace <==> v.Completed? && IsBlocked(v.outcome))
  {
    TracesFit(sys, run, c);
    VerdictMatchesTrace(Final(sys, run).calls[c].phase.verdict, TraceOf(Final(sys, run).log, c));
  }

  lemma VerdictMatchesTrace(v: Verdict, trace: seq<Event>)
    requires TraceOfVerdict(v, trace)
    ensures 1 <= |trace| <= 3
    ensures v == Completed(Ok) <==> trace[|trace| - 1] == Success
    ensures v.Refused? <==> trace[0].Rejected?
    ensures v.Refused? <==> Start !in trace
    ensures EgressBlocked in trace <==> v.Completed? && IsBlocked(v.outcome)
  {
    if v.Completed? {
      assert trace[0] == Start;
      if IsBlocked(v.outcome) {
        assert trace[1] == EgressBlocked;
      }
    }
  }

  /** A start is announced only by a call that holds all three permits. */
  lemma StartHoldsAllPermits(sys: System, s: State, step: Step)
    requires Enabled(sys, s, step) && EventOf(sys, s, step) == Some(Start)
    ensures step.c in s.calls
    ensures forall p | p in {QueuePermit, GlobalPermit, ToolPermit(s.calls[step.c].tool)} ::
              HoldsIn(s, step.c, p) && HoldsIn(Apply(sys, s, step), step.c, p)
  {
  }

  // ---------------------------------------------------------------------
  // Failed calls
  // ---------------------------------------------------------------------

  /** The trace of a call whose tool ended so, said of the error itself. */
  function TraceOfOutcome(o: Outcome): seq<Event> {
    match o
    case Ok => [Start, Success]
    case Timeout => [Start, Failure(TimeoutKind)]
    case Cancelled => [Start, Failure(CancelledKind)]
    case EgressErr(HostNotAllowed) => [Start, EgressBlocked, Failure(EgressBlockedKind)]
    case EgressErr(PrivateIpBlocked) => [Start, EgressBlocked, Failure(EgressBlockedKind)]
    case EgressErr(RequestBodyTooLarge) => [Start, Failure(ValidationError)]
    case EgressErr(InvalidUrl) => [Start, Failure(ValidationError)]
    case EgressErr(Http(true)) => [Start, Failure(TimeoutKind)]
    case EgressErr(Http(false)) => [Start, Failure(RuntimeError)]
    case EgressErr(DnsResolutionFailed) => [Start, Failure(RuntimeError)]
    case EgressErr(ResponseTooLarge) => [Start, Failure(RuntimeError)]
    case EgressErr(Io) => [Start, Failure(RuntimeError)]
  }

  /** Over any legal run a returned call whose tool ended with `o` left exactly this trace. */
  lemma OutcomeTrace(sys: System, run: seq<Step>, c: CallId, o: Outcome)
    requires sys.audited && Legal(sys, run) && Settle(c, o) in run
    requires c in Final(sys, run).calls && Final(sys, run).calls[c].phase.Done?
    ensures TraceOf(Final(sys, run).log, c) == TraceOfOutcome(o)
  {
    TracesFit(sys, run, c);
    PhasesTellEnds(sys, run, c);
    CompletedTrace(o, TraceOf(Final(sys, run).log, c));
  }

  lemma CompletedTrace(o: Outcome, trace: seq<Event>)
    requires TraceOfVerdict(Completed(o), trace)
    ensures trace == TraceOfOutcome(o)
  {
  }

  // ---------------------------------------------------------------------
  // Cancelled calls
  // ---------------------------------------------------------------------

  /** Why a call that has not been abandoned gave up waiting, if it did. */
  function GaveUp(phase: Phase): Option<Reason> {
    match phase
    case Refusing(reason) => WhileWaiting(reason)
    case Done(Refused(reason)) => WhileWaiting(reason)
    case _ => None
  }

  function WhileWaiting(reason: Reason): Option<Reason> {
    if reason.QueueTimeout? || reason.CancelledWaiting? then Some(reason) else None
  }

  /** How its tool ended, if it did. */
  function Settled(phase: Phase): Option<Outcome> {
    match phase
    case Unwinding(o) => Some(o)
    case HalfUnwound(o) => Some(o)
    case Draining(o) => Some(o)
    case Finishing(o) => Some(o)
    case Flagged(o) => Some(o)
    case Done(Completed(o)) => Some(o)
    case _ => None
  }

  /** A call gives up waiting and ends only by the steps of those names. */
  lemma OwnEnd(sys: System, s: State, step: Step)
    requires Enabled(sys, s, step) && !step.Abandon?
    ensures var was, phase := if step.Submit? then WaitGlobal else s.calls[step.c].phase, PhaseAfter(sys, s, step);
            && GaveUp(phase) == (if step.GiveUp? then Some(step.reason) else GaveUp(was))
            && Settled(phase) == (if step.Settle? then Some(step.outcome) else Settled(was))
            && (step.GiveUp? ==> GaveUp(was).None?) && (step.Settle? ==> Settled(was).None?)
  {
    if step.Submit? {
      ScreeningIsNoWaiting(sys, step.req);
    }
  }

  lemma ScreeningIsNoWaiting(sys: System, req: Request)
    ensures Screen(sys, req).Some? ==> !Screen(sys, req).value.QueueTimeout? && !Screen(sys, req).value.CancelledWaiting?
  {
  }

  ghost predicate EndsMatch(s: State, run: seq<Step>, c: CallId) {
    if c !in s.calls then forall step :: step in run ==> step.c != c
    else s.calls[c].phase.Abandoned? || EndMatches(s.calls[c].phase, run, c)
  }

  ghost predicate EndMatches(phase: Phase, run: seq<Step>, c: CallId) {
    && (forall reason :: GiveUp(c, reason) in run <==> GaveUp(phase) == Some(reason))
    && (forall o :: Settle(c, o) in run <==> Settled(phase) == Some(o))
  }

  lemma StepKeepsEnds(sys: System, s: State, run: seq<Step>, step: Step, c: CallId)
    requires Enabled(sys, s, step) && EndsMatch(s, run, c)
    ensures EndsMatch(Apply(sys, s, step), run + [step], c)
  {
    if step.c != c {
      StepFrame(sys, s, step);
    } else if !step.Abandon? {
      OwnEnd(sys, s, step);
    }
  }

  /** Over any legal run the phase of a call tells whether and how it gave up or ended. */
  lemma {:induction false} PhasesTellEnds(sys: System, run: seq<Step>, c: CallId)
    requires Legal(sys, run)
    ensures EndsMatch(Final(sys, run), run, c)
  {
    if run != [] {
      var front, step := run[..|run| - 1], run[|run| - 1];
      PhasesTellEnds(sys, front, c);
      StepKeepsEnds(sys, Final(sys, front), front, step, c);
      assert run == front + [step];
    }
  }

  /** A cancelled call is reported as failed exactly when it was cancelled while its tool ran, and as rejected
      exactly when it was cancelled while it waited for permits. */
  lemma CancelledTraceIff(sys: System, run: seq<Step>, c: CallId)
    requires sys.audited && Legal(sys, run)
    requires c in Final(sys, run).calls && Final(sys, run).calls[c].phase.Done?
    ensures var trace := TraceOf(Final(sys, run).log, c);
            && (trace == [Start, Failure(CancelledKind)] <==> Settle(c, Cancelled) in run)
            && (trace == [Rejected(CancelledWaiting)] <==> GiveUp(c, CancelledWaiting) in run)
  {
    TracesFit(sys, run, c);
    PhasesTellEnds(sys, run, c);
    TraceTellsCancel(Final(sys, run).calls[c].phase.verdict, TraceOf(Final(sys, run).log, c));
  }

  lemma TraceTellsCancel(v: Verdict, trace: seq<Event>)
    requires TraceOfVerdict(v, trace)
    ensures trace == [Start, Failure(CancelledKind)] <==> v == Completed(Cancelled)
    ensures trace == [Rejected(CancelledWaiting)] <==> v == Refused(CancelledWaiting)
  {
    if v.Completed? {
      assert trace[0] == Start;
    }
  }

  /** Every call that is admitted can be cancelled while it waits, and then never fails. */
  lemma CancelledWaitingIsRejected(sys: System, req: Request)
    requires sys.audited && Screen(sys, req).None? && sys.cfg.maxQueue >= 1
    ensures var run := [Submit(0, req), GiveUp(0, CancelledWaiting), ReturnRefusal(0)];
            && Legal(sys, run) && 0 in Final(sys, run).calls
            && Final(sys, run).calls[0].phase == Done(Refused(CancelledWaiting))
            && TraceOf(Final(sys, run).log, 0) == [Rejected(CancelledWaiting)]
  {
    FinalSnoc(sys, [], Submit(0, req));
    FinalSnoc(sys, [] + [Submit(0, req)], GiveUp(0, CancelledWaiting));
    FinalSnoc(sys, [] + [Submit(0, req)] + [GiveUp(0, CancelledWaiting)], ReturnRefusal(0));
    var run := [Submit(0, req), GiveUp(0, CancelledWaiting), ReturnRefusal(0)];
    assert run == [] + [Submit(0, req)] + [GiveUp(0, CancelledWaiting)] + [ReturnRefusal(0)];
    TracesFit(sys, run, 0);
  }

  // ---------------------------------------------------------------------
  // The log as a whole
  // ---------------------------------------------------------------------

  datatype EventType = StartType | SuccessType | FailureType | RejectedType | EgressBlockedType

  function TypeOf(e: Event): EventType {
    match e
    case Start => StartType
    case Success => SuccessType
    case Failure(_) => FailureType
    case Rejected(_) => RejectedType
    case EgressBlocked => EgressBlockedType
  }

  function Tally(log: seq<LogEntry>, t: EventType): nat {
    if log == [] then 0
    else Tally(log[..|log| - 1], t) + Bit(TypeOf(log[|log| - 1].event) == t)
  }

  /** The calls an event of type `t` stands for. */
  predicate Announced(phase: Phase, t: EventType) {
    match t
    case StartType => Started(phase)
    case SuccessType => phase == Done(Completed(Ok))
    case FailureType => phase.Done? && phase.verdict.Completed? && phase.verdict != Completed(Ok)
    case RejectedType => phase.Done? && phase.verdict.Refused?
    case EgressBlockedType => false
  }

  function AnnouncedCalls(s: State, t: EventType): set<CallId> {
    set c | c in s.calls && Announced(s.calls[c].phase, t)
  }

  lemma TallySnoc(log: seq<LogEntry>, e: LogEntry, t: EventType)
    ensures Tally(log + [e], t) == Tally(log, t) + Bit(TypeOf(e.event) == t)
  {
    assert (log + [e])[..|log|] == log;
  }

  lemma OwnTally(sys: System, s: State, step: Step, t: EventType)
    requires Enabled(sys, s, step) && !t.EgressBlockedType?
    ensures var was := !step.Submit? && Announced(s.calls[step.c].phase, t);
            var e := EventOf(sys, s, step);
            Bit(Announced(PhaseAfter(sys, s, step), t)) == Bit(was) + Bit(e.Some? && TypeOf(e.value) == t)
  {
  }

  lemma StepTally(sys: System, s: State, step: Step, t: EventType)
    requires sys.audited && Enabled(sys, s, step) && !t.EgressBlockedType?
    ensures var s' := Apply(sys, s, step);
            Tally(s'.log, t) + Bit(step.c in AnnouncedCalls(s, t)) == Tally(s.log, t) + Bit(step.c in AnnouncedCalls(s', t))
  {
    var e := EventOf(sys, s, step);
    if e.Some? {
      TallySnoc(s.log, LogEntry(step.c, e.value), t);
    }
    OwnTally(sys, s, step, t);
  }

  /** Each start, success, failure and rejection in the log stands for one call, and each such call has its event. */
  lemma {:induction false} LogCountsCalls(sys: System, run: seq<Step>, t: EventType)
    requires sys.audited && !t.EgressBlockedType?
    ensures Tally(Final(sys, run).log, t) == |AnnouncedCalls(Final(sys, run), t)|
  {
    if run == [] {
      assert AnnouncedCalls(Init(sys), t) == {};
    } else {
      var front := run[..|run| - 1];
      var step := run[|run| - 1];
      var s := Final(sys, front);
      LogCountsCalls(sys, front, t);
      if Enabled(sys, s, step) {
        StepFrame(sys, s, step);
        StepTally(sys, s, step, t);
        SizeAfter(AnnouncedCalls(s, t), AnnouncedCalls(Apply(sys, s, step), t), step.c);
      }
    }
  }
}
