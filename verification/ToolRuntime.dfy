/** Tool calls running concurrently through the queue, the global and the
    per-tool semaphore, as a machine whose steps are the sections of one call
    between which other calls may run. */
module ToolRuntime {
  import opened Prelude
  import opened ToolConfig

  type CallId = nat

  datatype EgressError =
    | HostNotAllowed | PrivateIpBlocked | DnsResolutionFailed | InvalidUrl
    | RequestBodyTooLarge | ResponseTooLarge | Http(isTimeout: bool) | Io

  datatype Outcome = Ok | Timeout | Cancelled | EgressErr(error: EgressError)

  datatype FailureKind = EgressBlockedKind | ValidationError | TimeoutKind | CancelledKind | RuntimeError

  datatype Event = Start | Success | Failure(kind: FailureKind) | Rejected(reason: Reason) | EgressBlocked

  datatype LogEntry = LogEntry(call: CallId, event: Event)

  function ClassifyEgressError(e: EgressError): FailureKind {
    match e
    case HostNotAllowed | PrivateIpBlocked => EgressBlockedKind
    case RequestBodyTooLarge | InvalidUrl => ValidationError
    case Http(isTimeout) => if isTimeout then TimeoutKind else RuntimeError
    case DnsResolutionFailed | ResponseTooLarge | Io => RuntimeError
  }

  function KindOf(o: Outcome): FailureKind
    requires !o.Ok?
  {
    match o
    case Timeout => TimeoutKind
    case Cancelled => CancelledKind
    case EgressErr(e) => ClassifyEgressError(e)
  }

  predicate IsBlocked(o: Outcome) {
    o.EgressErr? && ClassifyEgressError(o.error) == EgressBlockedKind
  }

  /** How a call that returned came out; `success` in the result is `Completed(Ok)`. */
  datatype Verdict = Refused(reason: Reason) | Completed(outcome: Outcome)

  datatype Phase =
    | WaitGlobal                       // admitted
    | WaitTool                         // holds the global permit too
    | Granted                          // holds all three, nothing announced yet
    | Running                          // start announced, tool future being polled
    | Unwinding(outcome: Outcome)      // tool future over, all three still held
    | HalfUnwound(outcome: Outcome)    // global permit dropped
    | Draining(outcome: Outcome)       // tool permit dropped
    | Finishing(outcome: Outcome)      // queue permit dropped
    | Flagged(outcome: Outcome)        // egress_blocked announced, failure not yet
    | Refusing(reason: Reason)         // gave up waiting, still holds the queue permit
    | Done(verdict: Verdict)
    | Abandoned(started: bool)         // the caller dropped the future

  datatype Call = Call(tool: string, phase: Phase)

  datatype State = State(
    queue: nat,                  // free permits
    global: nat,
    perTool: map<string, nat>,
    calls: map<CallId, Call>,
    log: seq<LogEntry>)

  // ---------------------------------------------------------------------
  // Permits
  // ---------------------------------------------------------------------

  datatype Permit = QueuePermit | GlobalPermit | ToolPermit(tool: string)

  predicate Holds(call: Call, p: Permit) {
    match p
    case QueuePermit =>
      call.phase.WaitGlobal? || call.phase.WaitTool? || call.phase.Granted? || call.phase.Running?
      || call.phase.Unwinding? || call.phase.HalfUnwound? || call.phase.Draining? || call.phase.Refusing?
    case GlobalPermit =>
      call.phase.WaitTool? || call.phase.Granted? || call.phase.Running? || call.phase.Unwinding?
    case ToolPermit(t) =>
      t == call.tool
      && (call.phase.Granted? || call.phase.Running? || call.phase.Unwinding? || call.phase.HalfUnwound?)
  }

  function Free(s: State, p: Permit): nat {
    match p
    case QueuePermit => s.queue
    case GlobalPermit => s.global
    case ToolPermit(t) => if t in s.perTool then s.perTool[t] else 0
  }

  function Capacity(sys: System, p: Permit): nat {
    match p
    case QueuePermit => sys.cfg.maxQueue
    case GlobalPermit => sys.cfg.maxConcurrentGlobal
    case ToolPermit(t) => if t in sys.supported then Permits(sys.cfg, t) else 0
  }

  function Holders(s: State, p: Permit): set<CallId> {
    set c | c in s.calls && Holds(s.calls[c], p)
  }

  // ---------------------------------------------------------------------
  // Steps
  // ---------------------------------------------------------------------

  datatype Step =
    | Submit(c: CallId, req: Request)
    | TakeGlobal(c: CallId)
    | TakeTool(c: CallId)
    | Begin(c: CallId)
    | GiveUp(c: CallId, reason: Reason)
    | ReturnRefusal(c: CallId)
    | Settle(c: CallId, outcome: Outcome)
    | DropGlobal(c: CallId)
    | DropTool(c: CallId)
    | DropQueue(c: CallId)
    | Flag(c: CallId)
    | Report(c: CallId)
    | Abandon(c: CallId)

  function Init(sys: System): State {
    State(sys.cfg.maxQueue, sys.cfg.maxConcurrentGlobal,
          map t | t in sys.supported :: Permits(sys.cfg, t), map[], [])
  }

  predicate Live(call: Call) { !call.phase.Done? && !call.phase.Abandoned? }

  predicate Started(phase: Phase) {
    match phase
    case Running | Unwinding(_) | HalfUnwound(_) | Draining(_) | Finishing(_) | Flagged(_) => true
    case Done(v) => v.Completed?
    case Abandoned(started) => started
    case _ => false
  }

  /** When a step may be taken. A waiter may take a permit whenever one is free;
      giving up and being abandoned are possible at any time. */
  predicate Enabled(sys: System, s: State, step: Step) {
    match step
    case Submit(c, _) => c !in s.calls
    case _ =>
      && step.c in s.calls
      && var call := s.calls[step.c];
         match step
         case TakeGlobal(_) => call.phase.WaitGlobal? && s.global > 0
         case TakeTool(_) => call.phase.WaitTool? && Free(s, ToolPermit(call.tool)) > 0
         case Begin(_) => call.phase.Granted?
         case GiveUp(_, reason) =>
           (call.phase.WaitGlobal? || call.phase.WaitTool?) && (reason.QueueTimeout? || reason.CancelledWaiting?)
         case ReturnRefusal(_) => call.phase.Refusing?
         case Settle(_, _) => call.phase.Running?
         case DropGlobal(_) => call.phase.Unwinding?
         case DropTool(_) => call.phase.HalfUnwound?
         case DropQueue(_) => call.phase.Draining?
         case Flag(_) => call.phase.Finishing? && IsBlocked(call.phase.outcome)
         case Report(_) =>
           (call.phase.Finishing? && !IsBlocked(call.phase.outcome)) || call.phase.Flagged?
         case Abandon(_) => Live(call)
         case Submit(_, _) => false
  }

  /** What a call that passed the screening, or failed it, is after submission. */
  function Admission(sys: System, s: State, req: Request): Phase {
    var screened := Screen(sys, req);
    if screened.Some? then Done(Refused(screened.value))
    else if s.queue == 0 then Done(Refused(QueueFull))
    else WaitGlobal
  }

  function PhaseAfter(sys: System, s: State, step: Step): Phase
    requires Enabled(sys, s, step)
  {
    match step
    case Submit(_, req) => Admission(sys, s, req)
    case TakeGlobal(_) => WaitTool
    case TakeTool(_) => Granted
    case Begin(_) => Running
    case GiveUp(_, reason) => Refusing(reason)
    case ReturnRefusal(c) => Done(Refused(s.calls[c].phase.reason))
    case Settle(_, outcome) => Unwinding(outcome)
    case DropGlobal(c) => HalfUnwound(s.calls[c].phase.outcome)
    case DropTool(c) => Draining(s.calls[c].phase.outcome)
    case DropQueue(c) => Finishing(s.calls[c].phase.outcome)
    case Flag(c) => Flagged(s.calls[c].phase.outcome)
    case Report(c) => Done(Completed(s.calls[c].phase.outcome))
    case Abandon(c) => Abandoned(Started(s.calls[c].phase))
  }

  /** The audit event a step announces. */
  function EventOf(sys: System, s: State, step: Step): Option<Event>
    requires Enabled(sys, s, step)
  {
    match step
    case Submit(_, req) =>
      var admission := Admission(sys, s, req);
      if admission.Done? then Some(Rejected(admission.verdict.reason)) else None
    case Begin(_) => Some(Start)
    case ReturnRefusal(c) => Some(Rejected(s.calls[c].phase.reason))
    case Flag(_) => Some(EgressBlocked)
    case Report(c) =>
      var o := s.calls[c].phase.outcome;
      Some(if o.Ok? then Success else Failure(KindOf(o)))
    case _ => None
  }

  function QueueAfter(sys: System, s: State, step: Step): nat
    requires Enabled(sys, s, step)
  {
    match step
    case Submit(_, req) => if Admission(sys, s, req).WaitGlobal? then s.queue - 1 else s.queue
    case ReturnRefusal(_) | DropQueue(_) => s.queue + 1
    case Abandon(c) => if Holds(s.calls[c], QueuePermit) then s.queue + 1 else s.queue
    case _ => s.queue
  }

  function GlobalAfter(sys: System, s: State, step: Step): nat
    requires Enabled(sys, s, step)
  {
    match step
    case TakeGlobal(_) => s.global - 1
    case GiveUp(c, _) => if s.calls[c].phase.WaitTool? then s.global + 1 else s.global
    case DropGlobal(_) => s.global + 1
    case Abandon(c) => if Holds(s.calls[c], GlobalPermit) then s.global + 1 else s.global
    case _ => s.global
  }

  function GiveBack(perTool: map<string, nat>, tool: string): map<string, nat> {
    if tool in perTool then perTool[tool := perTool[tool] + 1] else perTool
  }

  function PerToolAfter(sys: System, s: State, step: Step): map<string, nat>
    requires Enabled(sys, s, step)
  {
    match step
    case TakeTool(c) => s.perTool[s.calls[c].tool := s.perTool[s.calls[c].tool] - 1]
    case DropTool(c) => GiveBack(s.perTool, s.calls[c].tool)
    case Abandon(c) =>
      if Holds(s.calls[c], ToolPermit(s.calls[c].tool)) then GiveBack(s.perTool, s.calls[c].tool) else s.perTool
    case _ => s.perTool
  }

  function Record(sys: System, log: seq<LogEntry>, c: CallId, e: Option<Event>): seq<LogEntry> {
    if sys.audited && e.Some? then log + [LogEntry(c, e.value)] else log
  }

  function Apply(sys: System, s: State, step: Step): State
    requires Enabled(sys, s, step)
  {
    State(
      QueueAfter(sys, s, step),
      GlobalAfter(sys, s, step),
      PerToolAfter(sys, s, step),
      s.calls[step.c := Call(if step.Submit? then step.req.tool else s.calls[step.c].tool, PhaseAfter(sys, s, step))],
      Record(sys, s.log, step.c, EventOf(sys, s, step)))
  }

  // ---------------------------------------------------------------------
  // Runs
  // ---------------------------------------------------------------------

  /** The state after a run; a step that is not enabled changes nothing. */
  function Final(sys: System, run: seq<Step>): State {
    if run == [] then Init(sys)
    else
      var s := Final(sys, run[..|run| - 1]);
      var step := run[|run| - 1];
      if Enabled(sys, s, step) then Apply(sys, s, step) else s
  }

  /** A run each step of which was enabled when it was taken. */
  predicate Legal(sys: System, run: seq<Step>) {
    run == []
    || (Legal(sys, run[..|run| - 1]) && Enabled(sys, Final(sys, run[..|run| - 1]), run[|run| - 1]))
  }

  lemma FinalSnoc(sys: System, run: seq<Step>, step: Step)
    ensures Enabled(sys, Final(sys, run), step) ==> Final(sys, run + [step]) == Apply(sys, Final(sys, run), step)
    ensures Legal(sys, run) && Enabled(sys, Final(sys, run), step) ==> Legal(sys, run + [step])
  {
    assert (run + [step])[..|run|] == run;
  }

  /** The events one call left in the audit log, in order. */
  function TraceOf(log: seq<LogEntry>, c: CallId): seq<Event> {
    if log == [] then []
    else
      var last := log[|log| - 1];
      TraceOf(log[..|log| - 1], c) + if last.call == c then [last.event] else []
  }
}
