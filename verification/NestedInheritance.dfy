/** Plain priority inheritance with any nesting: which calls keep every task at the best of its initial
    priority and the priorities of the tasks that wait for its mutexes, and runs of such calls. */
module NestedInheritance {
  import opened KernelState
  import opened KernelCalls
  import opened KernelRun
  import opened LockInvariants
  import opened KernelTheorems
  import opened RunTheorems
  import opened PriorityFrames
  import opened Inheritance

  /** No boost has to go further than one owner, no last unlock takes away a priority that is still
      needed, and it serves a best waiter. */
  ghost predicate Inherits(k: KState, c: Call)
    requires WF(k)
  {
    && (c.LocMtx? && Reaches(k, c.m) && k.mtxs[c.m].owner != k.cur && 0 <= k.mtxs[c.m].owner < |k.tasks| ==>
          !ChainTooDeep(k, k.mtxs[c.m].owner))
    && (c.UnlMtx? && Reaches(k, c.m) && k.mtxs[c.m].owner == k.cur && k.mtxs[c.m].locks == 1 ==>
          !StillNeeded(k, c.m) && ServesBest(k, c.m))
  }

  lemma LawSame(k: KState, k': KState)
    requires SamePris(k.(mtxs := k'.mtxs), k') && |k'.mtxs| == |k.mtxs|
    requires forall m | 0 <= m < |k.mtxs| :: k'.mtxs[m].owner == k.mtxs[m].owner
                                             || (MtxQ(m) in k.q && k.q[MtxQ(m)] == [])
    ensures InheritLaw(k) ==> InheritLaw(k')
  {
    BlockingFrame(k, k');
    if InheritLaw(k) { LawTransfers(k, k'); }
  }

  lemma LawBoth(k: KState, k': KState)
    requires SamePris(k, k')
    ensures InheritLaw(k) <==> InheritLaw(k')
  {
    LawSame(k, k');
    forall t | 0 <= t < |k.tasks| ensures SamePri(k'.tasks[t], k.tasks[t]) {
      assert SamePri(k.tasks[t], k'.tasks[t]);
    }
    LawSame(k', k);
  }

  lemma LockKeepsLaw(k: KState, m: nat)
    requires OutOf(k) && LocksOk(k) && InheritLaw(k) && Reaches(k, m)
    ensures InheritLaw(LocInher(k, m).k) <==> Inherits(k, LocMtx(m))
  {
    assert MtxOk(k, m);
    if k.mtxs[m].owner == NO_OWNER {
      LocFirstPris(k, m);
      LawSame(k, LocInher(k, m).k);
    } else if k.mtxs[m].owner == k.cur {
      RecursivePris(k, m);
      LawSame(k, LocInher(k, m).k);
    } else {
      WaitKeepsLaw(k, m);
    }
  }

  lemma ReleaseKeepsLaw(k: KState, m: nat)
    requires OutOf(k) && LocksOk(k) && InheritLaw(k) && Reaches(k, m)
    ensures InheritLaw(UnlInher(k, m).k) <==> Inherits(k, UnlMtx(m))
  {
    if k.mtxs[m].owner == k.cur && k.mtxs[m].locks == 1 {
      UnlockKeepsLaw(k, m);
    } else {
      RecursivePris(k, m);
      PutCurrentPris(k);
      LawSame(k, UnlInher(k, m).k);
    }
  }

  /** A call keeps the law if and only if it inherits what it must. */
  lemma CallKeepsLaw(k: KState, c: Call)
    requires OutOf(k) && LocksOk(k) && AllInherit(k) && InheritLaw(k) && !c.ChgPri?
    ensures InheritLaw(Dispatch(k, c).k) <==> Inherits(k, c)
  {
    if c.LocMtx? && Reaches(k, c.m) { LockKeepsLaw(k, c.m); }
    else if c.UnlMtx? && Reaches(k, c.m) { ReleaseKeepsLaw(k, c.m); }
    else {
      OtherCallPris(k, c);
      LawBoth(k, Dispatch(k, c).k);
    }
  }

  // ---- Runs ------------------------------------------------------------------------------------

  ghost predicate StepInherits(k: KState, step: Step)
    requires Good(k)
  {
    step.Syscall? ==> Inherits(GetCurrent(k), step.c)
  }

  /** The same of a whole step. */
  lemma StepKeepsLaw(k: KState, step: Step)
    requires Good(k) && AllInherit(k) && InheritLaw(k) && KeepsPriorities(step)
    ensures StepOk(k, step)
    ensures InheritLaw(StepTo(k, step)) <==> StepInherits(k, step)
  {
    TakeOut(k);
    GetCurrentPris(k);
    var out := GetCurrent(k);
    LawBoth(k, out);
    if step.Syscall? {
      CallKeepsLaw(out, step.c);
      DispatchOk(out, step.c);
      SchedulePris(Dispatch(out, step.c).k);
      LawBoth(Dispatch(out, step.c).k, SyscallStep(k, step.c).k);
    } else {
      PutCurrentRests(out);
      PutCurrentPris(out);
      LawBoth(out, PutCurrent(out));
      SchedulePris(PutCurrent(out));
      LawBoth(PutCurrent(out), RoundRobin(k));
    }
  }

  /** Every step of the run inherits what it must. */
  ghost predicate AllInheritRun(k: KState, steps: seq<Step>)
    requires Good(k)
  {
    if steps == [] then true
    else
      var last := |steps| - 1;
      var r := Run(k, steps[..last]);
      AllInheritRun(k, steps[..last]) && (r.Some? && !r.value.halted ==> StepInherits(r.value, steps[last]))
  }

  lemma {:induction false} NestedRun(k: KState, steps: seq<Step>)
    requires Good(k) && AllInherit(k) && InheritLaw(k) && AllInheritRun(k, steps)
    requires forall i | 0 <= i < |steps| :: KeepsPriorities(steps[i])
    ensures Run(k, steps).Some? && AllInherit(Run(k, steps).value) && InheritLaw(Run(k, steps).value)
    decreases |steps|
  {
    hide Good, Next;
    if steps != [] {
      var last := |steps| - 1;
      NestedRun(k, steps[..last]);
      NestedNext(Run(k, steps[..last]).value, steps[last]);
    }
  }

  lemma NestedNext(k: KState, step: Step)
    requires LocksOk(k) && (k.halted || Good(k)) && AllInherit(k) && InheritLaw(k) && KeepsPriorities(step)
    requires k.halted || StepInherits(k, step)
    ensures var r := Next(k, step); r.Some? && AllInherit(r.value) && InheritLaw(r.value)
  {
    if !k.halted {
      StepKeepsLaw(k, step);
      var k' := Next(k, step).value;
      forall m | 0 <= m < |k'.mtxs| ensures k'.mtxs[m].protocol == INHERIT { assert SameKind(k.mtxs[m], k'.mtxs[m]); }
    }
  }

  /** In every run, however locks nest and whatever order waiters are served in, whose steps inherit what
      they must: every task runs at the best of its initial priority and the priorities of the tasks that
      wait for its mutexes. */
  lemma NestedPriorityLaw(k: KState, steps: seq<Step>)
    requires Started(k) && AllInherit(k)
    requires forall t | 0 <= t < |k.tasks| :: k.tasks[t].pri == k.tasks[t].initPri
    requires forall i | 0 <= i < |steps| :: KeepsPriorities(steps[i])
    ensures Good(k)
    ensures AllInheritRun(k, steps) ==> Run(k, steps).Some? && InheritLaw(Run(k, steps).value)
  {
    StartedIsGood(k);
    StartedKept(k);
    if AllInheritRun(k, steps) { NestedRun(k, steps); }
  }
}
