/** What holds in every reachable state of the tool runtime. */
module ToolRuntimeProofs {
  import opened Prelude
  import opened ToolConfig
  import opened ToolRuntime

  // ---------------------------------------------------------------------
  // Permits are conserved
  // ---------------------------------------------------------------------

  ghost predicate Conserved(sys: System, s: State) {
    forall p :: Free(s, p) + |Holders(s, p)| == Capacity(sys, p)
  }

  /** Calls that wait or run are calls to tools this build supports. */
  ghost predicate WellTyped(sys: System, s: State) {
    && s.perTool.Keys == sys.supported
    && forall c :: c in s.calls && Live(s.calls[c]) ==> s.calls[c].tool in sys.supported
  }

  predicate HoldsIn(s: State, c: CallId, p: Permit) { c in s.calls && Holds(s.calls[c], p) }

  /** A step touches one call only. */
  lemma StepFrame(sys: System, s: State, step: Step)
    requires Enabled(sys, s, step)
    ensures var s' := Apply(sys, s, step);
            && s'.calls.Keys == s.calls.Keys + {step.c}
            && forall d :: d in s.calls && d != step.c ==> s'.calls[d] == s.calls[d]
  {
  }

  lemma QueueBalance(sys: System, s: State, step: Step)
    requires Enabled(sys, s, step)
    ensures var s' := Apply(sys, s, step);
            s'.queue + Bit(HoldsIn(s', step.c, QueuePermit)) == s.queue + Bit(HoldsIn(s, step.c, QueuePermit))
  {
  }

  lemma GlobalBalance(sys: System, s: State, step: Step)
    requires Enabled(sys, s, step)
    ensures var s' := Apply(sys, s, step);
            s'.global + Bit(HoldsIn(s', step.c, GlobalPermit)) == s.global + Bit(HoldsIn(s, step.c, GlobalPermit))
  {
  }

  lemma ToolBalance(sys: System, s: State, step: Step, t: string)
    requires WellTyped(sys, s) && Enabled(sys, s, step)
    ensures var s' := Apply(sys, s, step);
            var p := ToolPermit(t);
            Free(s', p) + Bit(HoldsIn(s', step.c, p)) == Free(s, p) + Bit(HoldsIn(s, step.c, p))
  {
  }

  /** A step moves exactly the permits that its call gains or loses. */
  lemma StepBalance(sys: System, s: State, step: Step, p: Permit)
    requires WellTyped(sys, s) && Enabled(sys, s, step)
    ensures var s' := Apply(sys, s, step);
            Free(s', p) + Bit(HoldsIn(s', step.c, p)) == Free(s, p) + Bit(HoldsIn(s, step.c, p))
  {
    match p
    case QueuePermit => QueueBalance(sys, s, step);
    case GlobalPermit => GlobalBalance(sys, s, step);
    case ToolPermit(t) => ToolBalance(sys, s, step, t);
  }

  /** Sets that agree on all elements but one differ in size by that element. */
  lemma SizeAfter<T>(a: set<T>, a': set<T>, x: T)
    requires a - {x} == a' - {x}
    ensures |a'| + Bit(x in a) == |a| + Bit(x in a')
  {
    assert a == if x in a then (a - {x}) + {x} else a - {x};
    assert a' == if x in a' then (a - {x}) + {x} else a - {x};
  }

  lemma HoldersAfter(s: State, s': State, c: CallId, p: Permit)
    requires s'.calls.Keys == s.calls.Keys + {c}
    requires forall d :: d in s.calls && d != c ==> s'.calls[d] == s.calls[d]
    ensures |Holders(s', p)| + Bit(HoldsIn(s, c, p)) == |Holders(s, p)| + Bit(HoldsIn(s', c, p))
  {
    SizeAfter(Holders(s, p), Holders(s', p), c);
  }

  lemma StepKeepsConserved(sys: System, s: State, step: Step)
    requires WellTyped(sys, s) && Conserved(sys, s) && Enabled(sys, s, step)
    ensures Conserved(sys, Apply(sys, s, step))
  {
    forall p
      ensures Free(Apply(sys, s, step), p) + |Holders(Apply(sys, s, step), p)| == Capacity(sys, p)
    {
      StepFrame(sys, s, step);
      StepBalance(sys, s, step, p);
      HoldersAfter(s, Apply(sys, s, step), step.c, p);
      assert Free(s, p) + |Holders(s, p)| == Capacity(sys, p);
    }
  }

  lemma StepKeepsWellTyped(sys: System, s: State, step: Step)
    requires WellTyped(sys, s) && Enabled(sys, s, step)
    ensures WellTyped(sys, Apply(sys, s, step))
  {
    if step.Submit? {
      assert Screen(sys, step.req).None? ==> step.req.tool in sys.supported;
    }
  }

  /** In every reachable state of every interleaving, each semaphore's free permits
      and the calls holding one add up to its size; hence never more calls are
      admitted, or run, or run one tool, than the configuration allows. */
  lemma {:induction false} PermitsConserved(sys: System, run: seq<Step>)
    ensures var s := Final(sys, run);
            WellTyped(sys, s) && Conserved(sys, s)
    ensures forall p :: |Holders(Final(sys, run), p)| <= Capacity(sys, p)
  {
    if run == [] {
      forall p
        ensures Free(Init(sys), p) + |Holders(Init(sys), p)| == Capacity(sys, p)
      {
        assert Holders(Init(sys), p) == {};
      }
    } else {
      var front := run[..|run| - 1];
      var step := run[|run| - 1];
      PermitsConserved(sys, front);
      if Enabled(sys, Final(sys, front), step) {
        StepKeepsConserved(sys, Final(sys, front), step);
        StepKeepsWellTyped(sys, Final(sys, front), step);
      }
    }
    forall p
      ensures |Holders(Final(sys, run), p)| <= Capacity(sys, p)
    {
      assert Free(Final(sys, run), p) + |Holders(Final(sys, run), p)| == Capacity(sys, p);
    }
  }

  /** The semaphore of a waiting or running call exists. */
  lemma LiveToolIsKnown(sys: System, run: seq<Step>, c: CallId)
    requires c in Final(sys, run).calls && Live(Final(sys, run).calls[c])
    ensures Final(sys, run).calls[c].tool in Final(sys, run).perTool
  {
    PermitsConserved(sys, run);
  }

  /** When every call has left, by whichever exits, every permit is back. */
  lemma AllPermitsReturn(sys: System, run: seq<Step>)
    requires forall c :: c in Final(sys, run).calls ==> !Live(Final(sys, run).calls[c])
    ensures forall p :: Free(Final(sys, run), p) == Free(Init(sys), p)
  {
    PermitsConserved(sys, run);
    forall p
      ensures Free(Final(sys, run), p) == Free(Init(sys), p)
    {
      assert Holders(Final(sys, run), p) == {};
      assert Free(Final(sys, run), p) + |Holders(Final(sys, run), p)| == Capacity(sys, p);
    }
  }
}
