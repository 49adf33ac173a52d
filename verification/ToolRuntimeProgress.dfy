/** Progress of the tool runtime: bounded calls, no deadlock, and the exact
    conditions under which calls starve. */
module ToolRuntimeProgress {
  import opened Prelude
  import opened ToolConfig
  import opened ToolRuntime
  import opened ToolRuntimeProofs

  // ---------------------------------------------------------------------
  // Every call ends after a bounded number of its own steps
  // ---------------------------------------------------------------------

  /** Steps a call can still take. */
  function Rank(call: Call): nat {
    match call.phase
    case WaitGlobal => 9
    case WaitTool => 8
    case Granted => 7
    case Running => 6
    case Unwinding(_) => 5
    case HalfUnwound(_) => 4
    case Draining(_) => 3
    case Finishing(_) => 2
    case Flagged(_) => 1
    case Refusing(_) => 1
    case Done(_) => 0
    case Abandoned(_) => 0
  }

  const MAX_STEPS: nat := 10

  function RankIn(s: State, c: CallId): nat { if c in s.calls then Rank(s.calls[c]) else MAX_STEPS }

  lemma StepLowersRank(sys: System, s: State, step: Step)
    requires Enabled(sys, s, step)
    ensures RankIn(Apply(sys, s, step), step.c) < RankIn(s, step.c)
    ensures step.c in Apply(sys, s, step).calls
  {
  }

  function StepsOf(run: seq<Step>, c: CallId): nat {
    if run == [] then 0
    else StepsOf(run[..|run| - 1], c) + Bit(run[|run| - 1].c == c)
  }

  /** However calls interleave, one call takes at most ten steps in all. */
  lemma {:induction false} CallsAreBounded(sys: System, run: seq<Step>, c: CallId)
    requires Legal(sys, run)
    ensures StepsOf(run, c) + RankIn(Final(sys, run), c) <= MAX_STEPS
  {
    if run != [] {
      var front := run[..|run| - 1];
      var step := run[|run| - 1];
      CallsAreBounded(sys, front, c);
      StepFrame(sys, Final(sys, front), step);
      StepLowersRank(sys, Final(sys, front), step);
    }
  }

  // ---------------------------------------------------------------------
  // No deadlock
  // ---------------------------------------------------------------------

  /** Steps that are no arrival, no time-out, no cancellation and no abandonment. */
  predicate IsProgress(step: Step) {
    match step
    case Submit(_, _) | GiveUp(_, _) | Abandon(_) => false
    case Settle(_, o) => !o.Timeout? && !o.Cancelled?
    case _ => true
  }

  predicate Waiting(call: Call) { call.phase.WaitGlobal? || call.phase.WaitTool? }

  function OwnStep(c: CallId, call: Call): Step
    requires Live(call) && !Waiting(call)
  {
    match call.phase
    case Granted => Begin(c)
    case Running => Settle(c, Ok)
    case Unwinding(_) => DropGlobal(c)
    case HalfUnwound(_) => DropTool(c)
    case Draining(_) => DropQueue(c)
    case Finishing(o) => if IsBlocked(o) then Flag(c) else Report(c)
    case Flagged(_) => Report(c)
    case Refusing(_) => ReturnRefusal(c)
  }

  /** Some call can move on by itself. A call past the permits can; if there is none,
      no tool permit is out, so whoever waits for one gets it; and if none waits
      for a tool permit, no global permit is out either. */
  lemma SomeoneCanMove(sys: System, s: State, c: CallId) returns (step: Step)
    requires WellTyped(sys, s) && Conserved(sys, s)
    requires sys.cfg.maxConcurrentGlobal >= 1
    requires c in s.calls && Live(s.calls[c])
    ensures IsProgress(step) && Enabled(sys, s, step)
  {
    if d :| d in s.calls && Live(s.calls[d]) && !Waiting(s.calls[d]) {
      step := OwnStep(d, s.calls[d]);
    } else if d :| d in s.calls && s.calls[d].phase.WaitTool? {
      var p := ToolPermit(s.calls[d].tool);
      assert Holders(s, p) == {};
      assert Free(s, p) + |Holders(s, p)| == Capacity(sys, p);
      step := TakeTool(d);
    } else {
      assert Holders(s, GlobalPermit) == {};
      assert Free(s, GlobalPermit) + |Holders(s, GlobalPermit)| == Capacity(sys, GlobalPermit);
      step := TakeGlobal(c);
    }
  }

  ghost function Work(s: State): nat { Sum(s.calls, Rank) }

  lemma StepLowersWork(sys: System, s: State, step: Step)
    requires Enabled(sys, s, step) && !step.Submit?
    ensures Work(Apply(sys, s, step)) < Work(s)
  {
    var s' := Apply(sys, s, step);
    StepFrame(sys, s, step);
    StepLowersRank(sys, s, step);
    assert s'.calls == s.calls[step.c := s'.calls[step.c]];
    SumUpdate(s.calls, Rank, step.c, s'.calls[step.c]);
  }

  predicate AllReturned(s: State) { forall c :: c in s.calls ==> !Live(s.calls[c]) }

  predicate AllProgress(run: seq<Step>) { forall i :: 0 <= i < |run| ==> IsProgress(run[i]) }

  lemma Advance(sys: System, run: seq<Step>) returns (step: Step)
    requires Legal(sys, run) && !AllReturned(Final(sys, run))
    requires sys.cfg.maxConcurrentGlobal >= 1
    ensures IsProgress(step) && Legal(sys, run + [step])
    ensures Work(Final(sys, run + [step])) < Work(Final(sys, run))
  {
    PermitsConserved(sys, run);
    var c :| c in Final(sys, run).calls && Live(Final(sys, run).calls[c]);
    step := SomeoneCanMove(sys, Final(sys, run), c);
    FinalSnoc(sys, run, step);
    StepLowersWork(sys, Final(sys, run), step);
  }

  lemma ProgressFirst(run: seq<Step>, step: Step, full: seq<Step>)
    requires IsProgress(step) && run + [step] <= full && AllProgress(full[|run| + 1..])
    ensures run <= full && AllProgress(full[|run|..])
  {
    assert full[|run|..] == [step] + full[|run| + 1..];
  }

  /** From every reachable state the calls in flight can all be brought to their
      end without a single time-out, cancellation or abandonment. */
  lemma {:induction false} Drains(sys: System, run: seq<Step>) returns (full: seq<Step>)
    requires Legal(sys, run)
    requires sys.cfg.maxConcurrentGlobal >= 1
    ensures run <= full && AllProgress(full[|run|..])
    ensures Legal(sys, full) && AllReturned(Final(sys, full))
    ensures |full| <= |run| + Work(Final(sys, run))
    decreases Work(Final(sys, run))
  {
    if AllReturned(Final(sys, run)) {
      full := run;
    } else {
      var step := Advance(sys, run);
      full := Drains(sys, run + [step]);
      ProgressFirst(run, step, full);
    }
  }

  /** Without a global permit no tool ever starts, whatever is admitted. */
  lemma {:induction false} NoGlobalNoStart(sys: System, run: seq<Step>, c: CallId)
    requires sys.cfg.maxConcurrentGlobal == 0
    ensures var s := Final(sys, run);
            c in s.calls ==> !Started(s.calls[c].phase) && !s.calls[c].phase.WaitTool? && !s.calls[c].phase.Granted?
  {
    if run != [] {
      var front := run[..|run| - 1];
      var step := run[|run| - 1];
      var s := Final(sys, front);
      NoGlobalNoStart(sys, front, c);
      PermitsConserved(sys, front);
      assert Free(s, GlobalPermit) + |Holders(s, GlobalPermit)| == Capacity(sys, GlobalPermit);
      if Enabled(sys, s, step) && step.c != c {
        StepFrame(sys, s, step);
      }
    }
  }

  ghost predicate NeverStuck(sys: System) {
    forall run, c :: Legal(sys, run) && c in Final(sys, run).calls && Live(Final(sys, run).calls[c])
      ==> exists step :: IsProgress(step) && Enabled(sys, Final(sys, run), step)
  }

  /** Deadlock freedom has exactly one requirement, that there be a global permit. */
  lemma NeverStuckIff(sys: System, req: Request)
    requires Screen(sys, req).None? && sys.cfg.maxQueue >= 1
    ensures NeverStuck(sys) <==> sys.cfg.maxConcurrentGlobal >= 1
  {
    if sys.cfg.maxConcurrentGlobal >= 1 {
      forall run, c | Legal(sys, run) && c in Final(sys, run).calls && Live(Final(sys, run).calls[c])
        ensures exists step :: IsProgress(step) && Enabled(sys, Final(sys, run), step)
      {
        PermitsConserved(sys, run);
        var step := SomeoneCanMove(sys, Final(sys, run), c);
      }
    } else {
      var run := [Submit(0, req)];
      assert [] + run == run;
      FinalSnoc(sys, [], Submit(0, req));
      assert Final(sys, run).calls == map[0 := Call(req.tool, WaitGlobal)];
      assert 0 in Final(sys, run).calls && Live(Final(sys, run).calls[0]);
    }
  }

  // ---------------------------------------------------------------------
  // Which tools can run
  // ---------------------------------------------------------------------

  ghost predicate RunsAfter(sys: System, run: seq<Step>, c: CallId, tool: string) {
    Legal(sys, run) && c in Final(sys, run).calls && Final(sys, run).calls[c] == Call(tool, Running)
  }

  /** Only calls to supported tools that are enabled, or not named and allowed by default, get past the screening. */
  lemma {:induction false} LiveIsResolved(sys: System, run: seq<Step>, c: CallId)
    requires c in Final(sys, run).calls && Live(Final(sys, run).calls[c])
    ensures MayRun(sys, Final(sys, run).calls[c].tool)
  {
    var front, step := run[..|run| - 1], run[|run| - 1];
    var s := Final(sys, front);
    if Enabled(sys, s, step) {
      StepFrame(sys, s, step);
      if step.c != c || !step.Submit? {
        LiveIsResolved(sys, front, c);
      }
    } else {
      LiveIsResolved(sys, front, c);
    }
  }

  lemma HoldersNeedPermits(sys: System, run: seq<Step>, c: CallId, p: Permit)
    requires c in Holders(Final(sys, run), p)
    ensures Capacity(sys, p) >= 1
  {
    PermitsConserved(sys, run);
    Fewer({c}, Holders(Final(sys, run), p));
  }

  /** A first call, brought to where its tool runs. */
  lemma FirstCallRuns(sys: System, req: Request) returns (run: seq<Step>)
    requires Screen(sys, req).None? && sys.cfg.maxQueue >= 1 && sys.cfg.maxConcurrentGlobal >= 1
    ensures RunsAfter(sys, run, 0, req.tool)
  {
    run := Hog(sys, req, 1);
    assert 0 in HogCalls(req.tool, 1, Permits(sys.cfg, req.tool));
  }

  /** After the run there is one call, and it is in that phase. */
  ghost predicate AloneIn(sys: System, run: seq<Step>, tool: string, phase: Phase) {
    Legal(sys, run) && Final(sys, run).calls == map[0 := Call(tool, phase)]
  }

  lemma NextPhase(sys: System, run: seq<Step>, step: Step, tool: string, phase: Phase, next: Phase)
    requires AloneIn(sys, run, tool, phase) && step.c == 0 && !step.Submit?
    requires Enabled(sys, Final(sys, run), step) && PhaseAfter(sys, Final(sys, run), step) == next
    ensures AloneIn(sys, run + [step], tool, next)
  {
    FinalSnoc(sys, run, step);
  }

  lemma Settles(sys: System, run: seq<Step>, tool: string) returns (run': seq<Step>)
    requires AloneIn(sys, run, tool, Running)
    ensures AloneIn(sys, run', tool, HalfUnwound(Ok))
  {
    NextPhase(sys, run, Settle(0, Ok), tool, Running, Unwinding(Ok));
    run' := run + [Settle(0, Ok)];
    NextPhase(sys, run', DropGlobal(0), tool, Unwinding(Ok), HalfUnwound(Ok));
    run' := run' + [DropGlobal(0)];
  }

  lemma Reports(sys: System, run: seq<Step>, tool: string) returns (run': seq<Step>)
    requires AloneIn(sys, run, tool, HalfUnwound(Ok))
    ensures AloneIn(sys, run', tool, Done(Completed(Ok)))
  {
    NextPhase(sys, run, DropTool(0), tool, HalfUnwound(Ok), Draining(Ok));
    run' := run + [DropTool(0)];
    NextPhase(sys, run', DropQueue(0), tool, Draining(Ok), Finishing(Ok));
    run' := run' + [DropQueue(0)];
    NextPhase(sys, run', Report(0), tool, Finishing(Ok), Done(Completed(Ok)));
    run' := run' + [Report(0)];
  }

  /** And from there to its end. */
  lemma FirstCallSucceeds(sys: System, req: Request) returns (run: seq<Step>)
    requires Screen(sys, req).None? && sys.cfg.maxQueue >= 1 && sys.cfg.maxConcurrentGlobal >= 1
    ensures AloneIn(sys, run, req.tool, Done(Completed(Ok)))
  {
    run := Hog(sys, req, 1);
    assert Final(sys, run).calls == map[0 := Call(req.tool, Running)];
    run := Settles(sys, run, req.tool);
    run := Reports(sys, run, req.tool);
  }

  /** Some run brings a call to the tool to run it, exactly when the tool is supported and enabled, or allowed by
      default, and queue and global limit admit anything at all: the tool's own limit has no part in it. */
  lemma ToolRunsIff(sys: System, tool: string)
    ensures (exists run, c :: RunsAfter(sys, run, c, tool)) <==>
            MayRun(sys, tool) && sys.cfg.maxQueue >= 1 && sys.cfg.maxConcurrentGlobal >= 1
  {
    if MayRun(sys, tool) && sys.cfg.maxQueue >= 1 && sys.cfg.maxConcurrentGlobal >= 1 {
      var run := FirstCallRuns(sys, Request(tool, true, false, false, false, None, None));
      assert RunsAfter(sys, run, 0, tool);
    }
    forall run, c | RunsAfter(sys, run, c, tool)
      ensures MayRun(sys, tool) && sys.cfg.maxQueue >= 1 && sys.cfg.maxConcurrentGlobal >= 1
    {
      LiveIsResolved(sys, run, c);
      HoldersNeedPermits(sys, run, c, QueuePermit);
      HoldersNeedPermits(sys, run, c, GlobalPermit);
    }
  }

  // ---------------------------------------------------------------------
  // Which calls are refused
  // ---------------------------------------------------------------------

  predicate IsScreening(reason: Reason) {
    !reason.QueueFull? && !reason.QueueTimeout? && !reason.CancelledWaiting?
  }

  /** What became of the screening can be told from the phase ever after. */
  predicate ScreenShows(screened: Option<Reason>, phase: Phase) {
    if screened.Some? then phase == Done(Refused(screened.value))
    else
      match phase
      case Done(Refused(reason)) => !IsScreening(reason)
      case Refusing(reason) => !IsScreening(reason)
      case _ => true
  }

  lemma OwnStepShows(sys: System, s: State, step: Step, screened: Option<Reason>)
    requires Enabled(sys, s, step) && !step.Submit? && ScreenShows(screened, s.calls[step.c].phase)
    ensures ScreenShows(screened, PhaseAfter(sys, s, step))
  {
  }

  lemma {:induction false} ScreeningShows(sys: System, run: seq<Step>, c: CallId, req: Request)
    requires Legal(sys, run) && Submit(c, req) in run
    ensures c in Final(sys, run).calls && ScreenShows(Screen(sys, req), Final(sys, run).calls[c].phase)
  {
    var front, step := run[..|run| - 1], run[|run| - 1];
    var s := Final(sys, front);
    if step == Submit(c, req) {
      ScreenIff(sys, req, QueueFull);
    } else {
      assert Submit(c, req) in front;
      ScreeningShows(sys, front, c, req);
      StepFrame(sys, s, step);
      if step.c == c {
        OwnStepShows(sys, s, step, Screen(sys, req));
      }
    }
  }

  /** Over any legal run a submitted call ends refused for one of the reasons of the screening exactly when the
      configuration and the request give that reason. */
  lemma RefusedIff(sys: System, run: seq<Step>, c: CallId, req: Request, reason: Reason)
    requires Legal(sys, run) && Submit(c, req) in run && IsScreening(reason)
    ensures c in Final(sys, run).calls
    ensures Final(sys, run).calls[c].phase == Done(Refused(reason)) <==> RefusedFor(sys, req, reason)
  {
    ScreeningShows(sys, run, c, req);
    ScreenIff(sys, req, reason);
  }

  /** A call that passes the screening is turned away at once exactly when as many calls are admitted as the queue holds. */
  lemma QueueFullIff(sys: System, run: seq<Step>, c: CallId, req: Request)
    requires Legal(sys, run) && c !in Final(sys, run).calls && (forall reason :: !RefusedFor(sys, req, reason))
    ensures var s := Final(sys, run);
            PhaseAfter(sys, s, Submit(c, req)) ==
            if |Holders(s, QueuePermit)| == sys.cfg.maxQueue then Done(Refused(QueueFull)) else WaitGlobal
  {
    var s := Final(sys, run);
    PermitsConserved(sys, run);
    assert Free(s, QueuePermit) + |Holders(s, QueuePermit)| == Capacity(sys, QueuePermit);
    if Screen(sys, req).Some? {
      ScreenIff(sys, req, Screen(sys, req).value);
    }
  }

  // ---------------------------------------------------------------------
  // One tool can take every global permit
  // ---------------------------------------------------------------------

  /** All is at rest but the tools: nothing but the end of a tool's run, a time-out, a cancellation, an
      abandonment or an arrival can happen next. */
  ghost predicate AtRest(sys: System, s: State) {
    forall step :: IsProgress(step) && Enabled(sys, s, step) ==> step.Settle?
  }

  /** A call to the idle tool `b` waits while calls to `a`, running or waiting for `a`, hold every global permit,
      and only the end of a run can change that. */
  ghost predicate Starved(sys: System, s: State, a: string, b: string) {
    && s.global == 0
    && (forall c :: c in Holders(s, GlobalPermit) ==> s.calls[c].tool == a)
    && Free(s, ToolPermit(b)) == Capacity(sys, ToolPermit(b))
    && AtRest(sys, s)
    && exists c :: c in s.calls && s.calls[c] == Call(b, WaitGlobal)
  }

  ghost predicate StarvesAfter(sys: System, run: seq<Step>, a: string, b: string) {
    Legal(sys, run) && Starved(sys, Final(sys, run), a, b)
  }

  /** The n-th call to a tool with `permits` permits runs, or waits for the tool once they are taken. */
  function HogPhase(permits: nat, c: CallId): Phase { if c < permits then Running else WaitTool }

  function HogCalls(tool: string, n: nat, permits: nat): map<CallId, Call> {
    map c: CallId | 0 <= c < n :: Call(tool, HogPhase(permits, c))
  }

  function Left(permits: nat, n: nat): nat { if n < permits then permits - n else 0 }

  ghost predicate Hogged(sys: System, s: State, tool: string, n: nat) {
    && tool in sys.supported
    && s.queue == sys.cfg.maxQueue - n
    && s.global == sys.cfg.maxConcurrentGlobal - n
    && s.perTool == Init(sys).perTool[tool := Left(Permits(sys.cfg, tool), n)]
    && s.calls == HogCalls(tool, n, Permits(sys.cfg, tool))
  }

  /** The state with one more call, which is in the given phase. */
  ghost predicate HogsWith(sys: System, s: State, tool: string, n: nat, phase: Phase) {
    && tool in sys.supported
    && s.queue == sys.cfg.maxQueue - n - 1
    && s.global == sys.cfg.maxConcurrentGlobal - n - (if phase.WaitGlobal? then 0 else 1)
    && s.perTool == Init(sys).perTool[tool := Left(Permits(sys.cfg, tool), if phase.Granted? || phase.Running? then n + 1 else n)]
    && s.calls == HogCalls(tool, n, Permits(sys.cfg, tool))[n := Call(tool, phase)]
  }

  lemma HogSubmits(sys: System, s: State, req: Request, n: nat)
    requires Screen(sys, req).None? && Hogged(sys, s, req.tool, n) && n < sys.cfg.maxQueue
    ensures Enabled(sys, s, Submit(n, req)) && HogsWith(sys, Apply(sys, s, Submit(n, req)), req.tool, n, WaitGlobal)
  {
  }

  lemma HogTakesGlobal(sys: System, s: State, tool: string, n: nat)
    requires HogsWith(sys, s, tool, n, WaitGlobal) && n < sys.cfg.maxConcurrentGlobal
    ensures Enabled(sys, s, TakeGlobal(n)) && HogsWith(sys, Apply(sys, s, TakeGlobal(n)), tool, n, WaitTool)
  {
    assert Apply(sys, s, TakeGlobal(n)).calls == HogCalls(tool, n, Permits(sys.cfg, tool))[n := Call(tool, WaitTool)];
  }

  lemma HogTakesTool(sys: System, s: State, tool: string, n: nat)
    requires HogsWith(sys, s, tool, n, WaitTool) && n < Permits(sys.cfg, tool)
    ensures Enabled(sys, s, TakeTool(n)) && HogsWith(sys, Apply(sys, s, TakeTool(n)), tool, n, Granted)
  {
    var s' := Apply(sys, s, TakeTool(n));
    assert s'.calls == HogCalls(tool, n, Permits(sys.cfg, tool))[n := Call(tool, Granted)];
    assert s'.perTool == Init(sys).perTool[tool := Left(Permits(sys.cfg, tool), n + 1)];
  }

  lemma HogBegins(sys: System, s: State, tool: string, n: nat)
    requires HogsWith(sys, s, tool, n, Granted)
    ensures Enabled(sys, s, Begin(n)) && HogsWith(sys, Apply(sys, s, Begin(n)), tool, n, Running)
  {
    assert Apply(sys, s, Begin(n)).calls == HogCalls(tool, n, Permits(sys.cfg, tool))[n := Call(tool, Running)];
  }

  lemma HogIsIn(sys: System, s: State, tool: string, n: nat)
    requires HogsWith(sys, s, tool, n, HogPhase(Permits(sys.cfg, tool), n))
    ensures Hogged(sys, s, tool, n + 1)
  {
  }

  ghost predicate HogsAfter(sys: System, run: seq<Step>, tool: string, n: nat) {
    Legal(sys, run) && Hogged(sys, Final(sys, run), tool, n)
  }

  lemma HogOneMore(sys: System, run: seq<Step>, req: Request, n: nat) returns (run': seq<Step>)
    requires Screen(sys, req).None? && HogsAfter(sys, run, req.tool, n)
    requires n < sys.cfg.maxConcurrentGlobal && n < sys.cfg.maxQueue
    ensures HogsAfter(sys, run', req.tool, n + 1)
  {
    HogSubmits(sys, Final(sys, run), req, n);
    FinalSnoc(sys, run, Submit(n, req));
    run' := run + [Submit(n, req)];
    HogTakesGlobal(sys, Final(sys, run'), req.tool, n);
    FinalSnoc(sys, run', TakeGlobal(n));
    run' := run' + [TakeGlobal(n)];
    if n < Permits(sys.cfg, req.tool) {
      run' := HogRuns(sys, run', req.tool, n);
    }
    HogIsIn(sys, Final(sys, run'), req.tool, n);
  }

  lemma HogRuns(sys: System, run: seq<Step>, tool: string, n: nat) returns (run': seq<Step>)
    requires Legal(sys, run) && HogsWith(sys, Final(sys, run), tool, n, WaitTool) && n < Permits(sys.cfg, tool)
    ensures Legal(sys, run') && HogsWith(sys, Final(sys, run'), tool, n, Running)
  {
    HogTakesTool(sys, Final(sys, run), tool, n);
    FinalSnoc(sys, run, TakeTool(n));
    run' := run + [TakeTool(n)];
    HogBegins(sys, Final(sys, run'), tool, n);
    FinalSnoc(sys, run', Begin(n));
    run' := run' + [Begin(n)];
  }

  lemma HogNone(sys: System, req: Request)
    requires Screen(sys, req).None?
    ensures HogsAfter(sys, [], req.tool, 0)
  {
    assert Init(sys).perTool == Init(sys).perTool[req.tool := Permits(sys.cfg, req.tool)];
    assert HogCalls(req.tool, 0, Permits(sys.cfg, req.tool)) == map[];
  }

  /** Calls to one tool can hold any number of global permits up to the limits: as many as the tool has permits run,
      and the others wait for the tool. */
  lemma {:induction false} Hog(sys: System, req: Request, n: nat) returns (run: seq<Step>)
    requires Screen(sys, req).None?
    requires n <= sys.cfg.maxConcurrentGlobal && n <= sys.cfg.maxQueue
    ensures HogsAfter(sys, run, req.tool, n)
  {
    if n == 0 {
      run := [];
      HogNone(sys, req);
    } else {
      run := Hog(sys, req, n - 1);
      run := HogOneMore(sys, run, req, n - 1);
    }
  }

  lemma HogIsAtRest(sys: System, s: State, a: string, n: nat, b: string)
    requires a in sys.supported && s.global == 0
    requires s.perTool == Init(sys).perTool[a := Left(Permits(sys.cfg, a), n)]
    requires s.calls == HogCalls(a, n, Permits(sys.cfg, a))[n := Call(b, WaitGlobal)]
    ensures AtRest(sys, s)
  {
    forall step | IsProgress(step) && Enabled(sys, s, step) ensures step.Settle? {
      assert step.c == n || s.calls[step.c] == Call(a, HogPhase(Permits(sys.cfg, a), step.c));
    }
  }

  lemma HogStarves(sys: System, reqA: Request, reqB: Request) returns (run: seq<Step>)
    requires Screen(sys, reqA).None? && Screen(sys, reqB).None? && reqA.tool != reqB.tool
    requires sys.cfg.maxQueue > sys.cfg.maxConcurrentGlobal
    ensures Legal(sys, run) && Starved(sys, Final(sys, run), reqA.tool, reqB.tool)
  {
    var n := sys.cfg.maxConcurrentGlobal;
    var hog := Hog(sys, reqA, n);
    FinalSnoc(sys, hog, Submit(n, reqB));
    run := hog + [Submit(n, reqB)];
    HogLeavesStarved(sys, Final(sys, hog), reqA.tool, reqB, n);
  }

  lemma HogLeavesStarved(sys: System, s: State, a: string, reqB: Request, n: nat)
    requires Hogged(sys, s, a, n) && Screen(sys, reqB).None? && a != reqB.tool
    requires n == sys.cfg.maxConcurrentGlobal < sys.cfg.maxQueue
    ensures Enabled(sys, s, Submit(n, reqB)) && Starved(sys, Apply(sys, s, Submit(n, reqB)), a, reqB.tool)
  {
    var s' := Apply(sys, s, Submit(n, reqB));
    assert s'.calls == HogCalls(a, n, Permits(sys.cfg, a))[n := Call(reqB.tool, WaitGlobal)];
    HogIsAtRest(sys, s', a, n, reqB.tool);
    assert s'.calls[n] == Call(reqB.tool, WaitGlobal);
  }

  lemma ShortQueueFeeds(sys: System, run: seq<Step>, a: string, b: string)
    requires sys.cfg.maxQueue <= sys.cfg.maxConcurrentGlobal
    ensures !Starved(sys, Final(sys, run), a, b)
  {
    PermitsConserved(sys, run);
    var s := Final(sys, run);
    if Starved(sys, s, a, b) {
      var c :| c in s.calls && s.calls[c] == Call(b, WaitGlobal);
      var inside, admitted := Holders(s, GlobalPermit), Holders(s, QueuePermit);
      assert Free(s, GlobalPermit) + |inside| == Capacity(sys, GlobalPermit);
      assert Free(s, QueuePermit) + |admitted| == Capacity(sys, QueuePermit);
      assert inside + {c} <= admitted && c !in inside;
      Fewer(inside + {c}, admitted);
    }
  }

  /** A call waiting for its tool keeps its global permit, so calls to one slow tool
      can shut out an idle one; a queue longer than the global limit is exactly
      what makes this possible. */
  lemma StarvationIff(sys: System, reqA: Request, reqB: Request)
    requires Screen(sys, reqA).None? && Screen(sys, reqB).None? && reqA.tool != reqB.tool
    ensures (exists run :: StarvesAfter(sys, run, reqA.tool, reqB.tool)) <==> sys.cfg.maxQueue > sys.cfg.maxConcurrentGlobal
  {
    if sys.cfg.maxQueue > sys.cfg.maxConcurrentGlobal {
      var run := HogStarves(sys, reqA, reqB);
      assert StarvesAfter(sys, run, reqA.tool, reqB.tool);
    } else {
      forall run ensures !StarvesAfter(sys, run, reqA.tool, reqB.tool) {
        ShortQueueFeeds(sys, run, reqA.tool, reqB.tool);
      }
    }
  }

  lemma {:induction false} Fewer<T>(a: set<T>, b: set<T>)
    requires a <= b
    ensures |a| <= |b|
  {
    assert b == a + (b - a);
  }
}
