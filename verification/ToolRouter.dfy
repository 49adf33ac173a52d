/** The shared object the tool calls run through. Each method is one section of a
    call, with no point inside at which another call can intervene. */
module ToolRouter {
  import opened Prelude
  import opened ToolConfig
  import opened ToolRuntime
  import opened ToolRuntimeProofs

  function LastWord(c: CallId, phase: Phase): Step {
    if phase.Finishing? && IsBlocked(phase.outcome) then Flag(c) else Report(c)
  }

  class Router {
    const sys: System
    var queue: nat
    var global: nat
    var perTool: map<string, nat>
    var calls: map<CallId, Call>
    var log: seq<LogEntry>
    ghost var history: seq<Step>  // the sections that ran, in order

    ghost function View(): State
      reads this
    {
      State(queue, global, perTool, calls, log)
    }

    ghost predicate Valid()
      reads this
    {
      Legal(sys, history) && View() == Final(sys, history)
    }

    constructor (cfg: RuntimeConfig, toolNames: seq<string>, audited: bool)
      ensures Valid()
      ensures sys == System(cfg, (set t | t in toolNames), audited)
      ensures View() == Init(sys)
    {
      sys := System(cfg, (set t | t in toolNames), audited);
      queue := cfg.maxQueue;
      global := cfg.maxConcurrentGlobal;
      calls := map[];
      log := [];
      history := [];
      new;
      var semaphores: map<string, nat> := map[];
      for i := 0 to |toolNames|
        invariant semaphores.Keys == set t | t in toolNames[..i]
        invariant forall t :: t in semaphores ==> semaphores[t] == Permits(cfg, t)
      {
        var tool := toolNames[i];
        semaphores := semaphores[tool := Max(1, Limit(cfg, tool))];
        assert toolNames[..i + 1] == toolNames[..i] + [tool];
      }
      assert toolNames[..|toolNames|] == toolNames;
      perTool := semaphores;
      assert perTool == Init(sys).perTool;
    }

    /** Adds a step to the history, whose effect the fields already show. */
    ghost method Ran(step: Step)
      requires Legal(sys, history) && Enabled(sys, Final(sys, history), step)
      requires View() == Apply(sys, Final(sys, history), step)
      modifies this`history
      ensures Valid() && history == old(history) + [step]
    {
      FinalSnoc(sys, history, step);
      history := history + [step];
    }

    method Emit(c: CallId, e: Event)
      modifies this`log
      ensures log == Record(sys, old(log), c, Some(e))
    {
      if sys.audited {
        log := log + [LogEntry(c, e)];
      }
    }

    /** Allow-list, arguments and credentials are looked at first; only then is
        a place in the queue asked for, without waiting. */
    method SubmitCall(c: CallId, req: Request)
      requires Valid() && c !in calls
      modifies this
      ensures Valid() && history == old(history) + [Submit(c, req)]
      ensures View() == Apply(sys, old(View()), Submit(c, req))
    {
      var screened := Screen(sys, req);
      if screened.Some? {
        calls := calls[c := Call(req.tool, Done(Refused(screened.value)))];
        Emit(c, Rejected(screened.value));
      } else if queue == 0 {
        calls := calls[c := Call(req.tool, Done(Refused(QueueFull)))];
        Emit(c, Rejected(QueueFull));
      } else {
        queue := queue - 1;
        calls := calls[c := Call(req.tool, WaitGlobal)];
      }
      Ran(Submit(c, req));
    }

    method AcquireGlobal(c: CallId)
      requires Valid() && c in calls && calls[c].phase.WaitGlobal? && global > 0
      modifies this
      ensures Valid() && history == old(history) + [TakeGlobal(c)]
      ensures View() == Apply(sys, old(View()), TakeGlobal(c))
    {
      global := global - 1;
      calls := calls[c := calls[c].(phase := WaitTool)];
      Ran(TakeGlobal(c));
    }

    /** The semaphore of a waiting call's tool always exists. */
    method AcquireTool(c: CallId) returns (granted: bool)
      requires Valid() && c in calls && calls[c].phase.WaitTool?
      modifies this
      ensures Valid() && history == old(history) + if granted then [TakeTool(c)] else []
      ensures granted == (old(Free(View(), ToolPermit(calls[c].tool))) > 0)
      ensures View() == if granted then Apply(sys, old(View()), TakeTool(c)) else old(View())
    {
      var tool := calls[c].tool;
      LiveToolIsKnown(sys, history, c);
      granted := perTool[tool] > 0;
      if granted {
        perTool := perTool[tool := perTool[tool] - 1];
        calls := calls[c := calls[c].(phase := Granted)];
        Ran(TakeTool(c));
      }
    }

    method AnnounceStart(c: CallId)
      requires Valid() && c in calls && calls[c].phase.Granted?
      modifies this
      ensures Valid() && history == old(history) + [Begin(c)]
      ensures View() == Apply(sys, old(View()), Begin(c))
    {
      calls := calls[c := calls[c].(phase := Running)];
      Emit(c, Start);
      Ran(Begin(c));
    }

    /** The wait is over without both permits; a global permit already taken goes back at once. */
    method StopWaiting(c: CallId, cancelled: bool)
      requires Valid() && c in calls && (calls[c].phase.WaitGlobal? || calls[c].phase.WaitTool?)
      modifies this
      ensures Valid()
      ensures history == old(history) + [GiveUp(c, if cancelled then CancelledWaiting else QueueTimeout)]
      ensures View() == Apply(sys, old(View()), GiveUp(c, if cancelled then CancelledWaiting else QueueTimeout))
    {
      var reason := if cancelled then CancelledWaiting else QueueTimeout;
      if calls[c].phase.WaitTool? {
        global := global + 1;
      }
      calls := calls[c := calls[c].(phase := Refusing(reason))];
      Ran(GiveUp(c, reason));
    }

    method RefuseAndReturn(c: CallId)
      requires Valid() && c in calls && calls[c].phase.Refusing?
      modifies this
      ensures Valid() && history == old(history) + [ReturnRefusal(c)]
      ensures View() == Apply(sys, old(View()), ReturnRefusal(c))
    {
      var reason := calls[c].phase.reason;
      Emit(c, Rejected(reason));
      calls := calls[c := calls[c].(phase := Done(Refused(reason)))];
      queue := queue + 1;
      Ran(ReturnRefusal(c));
    }

    method ToolEnded(c: CallId, outcome: Outcome)
      requires Valid() && c in calls && calls[c].phase.Running?
      modifies this
      ensures Valid() && history == old(history) + [Settle(c, outcome)]
      ensures View() == Apply(sys, old(View()), Settle(c, outcome))
    {
      calls := calls[c := calls[c].(phase := Unwinding(outcome))];
      Ran(Settle(c, outcome));
    }

    method DropGlobalPermit(c: CallId)
      requires Valid() && c in calls && calls[c].phase.Unwinding?
      modifies this
      ensures Valid() && history == old(history) + [DropGlobal(c)]
      ensures View() == Apply(sys, old(View()), DropGlobal(c))
    {
      global := global + 1;
      calls := calls[c := calls[c].(phase := HalfUnwound(calls[c].phase.outcome))];
      Ran(DropGlobal(c));
    }

    method DropToolPermit(c: CallId)
      requires Valid() && c in calls && calls[c].phase.HalfUnwound?
      modifies this
      ensures Valid() && history == old(history) + [DropTool(c)]
      ensures View() == Apply(sys, old(View()), DropTool(c))
    {
      LiveToolIsKnown(sys, history, c);
      var call := calls[c];
      perTool := perTool[call.tool := perTool[call.tool] + 1];
      calls := calls[c := call.(phase := Draining(call.phase.outcome))];
      Ran(DropTool(c));
    }

    method DropQueuePermit(c: CallId)
      requires Valid() && c in calls && calls[c].phase.Draining?
      modifies this
      ensures Valid() && history == old(history) + [DropQueue(c)]
      ensures View() == Apply(sys, old(View()), DropQueue(c))
    {
      queue := queue + 1;
      calls := calls[c := calls[c].(phase := Finishing(calls[c].phase.outcome))];
      Ran(DropQueue(c));
    }

    /** The last audit events, with no permit held. A blocked egress is announced
        first, and other calls may write to the log before its failure is. */
    method ReportOutcome(c: CallId)
      requires Valid() && c in calls && (calls[c].phase.Finishing? || calls[c].phase.Flagged?)
      modifies this
      ensures Valid() && history == old(history) + [LastWord(c, old(calls[c].phase))]
      ensures View() == Apply(sys, old(View()), LastWord(c, old(calls[c].phase)))
    {
      var call := calls[c];
      var outcome := call.phase.outcome;
      if call.phase.Finishing? && outcome.EgressErr? && ClassifyEgressError(outcome.error) == EgressBlockedKind {
        Emit(c, EgressBlocked);
        calls := calls[c := call.(phase := Flagged(outcome))];
        Ran(Flag(c));
      } else {
        match outcome {
          case Ok => Emit(c, Success);
          case Timeout => Emit(c, Failure(TimeoutKind));
          case Cancelled => Emit(c, Failure(CancelledKind));
          case EgressErr(e) => Emit(c, Failure(ClassifyEgressError(e)));
        }
        calls := calls[c := call.(phase := Done(Completed(outcome)))];
        Ran(Report(c));
      }
    }

    /** The caller went away: whatever the call holds is dropped with its future. */
    method DropFuture(c: CallId)
      requires Valid() && c in calls && Live(calls[c])
      modifies this
      ensures Valid() && history == old(history) + [Abandon(c)]
      ensures View() == Apply(sys, old(View()), Abandon(c))
    {
      var call := calls[c];
      LiveToolIsKnown(sys, history, c);
      if Holds(call, GlobalPermit) {
        global := global + 1;
      }
      if Holds(call, ToolPermit(call.tool)) {
        perTool := perTool[call.tool := perTool[call.tool] + 1];
      }
      if Holds(call, QueuePermit) {
        queue := queue + 1;
      }
      calls := calls[c := call.(phase := Abandoned(Started(call.phase)))];
      Ran(Abandon(c));
    }
  }
}
