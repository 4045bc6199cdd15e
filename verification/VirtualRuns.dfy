/** Virtual priority inheritance with any order of waiting: which calls keep the priority law, and runs of
    such calls. */
module VirtualRuns {
  import opened KernelState
  import opened KernelCalls
  import opened KernelRun
  import opened LockInvariants
  import opened KernelTheorems
  import opened RunTheorems
  import opened PriorityFrames
  import opened VirtualMutex

  /** If the call hands the virtual mutex over, the waiter that is served is as good as every other. */
  ghost predicate HandsToBest(k: KState, c: Call)
    requires WF(k) && VirtQ in k.q
  {
    c.UnlMtx? && Reaches(k, c.m) && LastUnlock(k, c.m) && k.q[VirtQ] != [] ==> BestServed(k)
  }

  lemma LawBoth(k: KState, k': KState)
    requires LocksOk(k) && LocksOk(k') && SamePris(k, k')
    ensures VirtualLaw(k) <==> VirtualLaw(k')
  {
    if VirtualLaw(k) { LawFrame(k, k'); }
    if VirtualLaw(k') {
      forall t | 0 <= t < |k.tasks| ensures SamePri(k'.tasks[t], k.tasks[t]) {
        assert SamePri(k.tasks[t], k'.tasks[t]);
      }
      LawFrame(k', k);
    }
  }

  lemma ReleaseKeepsLaw(k: KState, m: nat)
    requires OutOf(k) && LocksOk(k) && VirtualLaw(k) && !k.halted
    requires Reaches(k, m) && k.mtxs[m].protocol == VINHERIT
    ensures LocksOk(UnlVinher(k, m).k) && (VirtualLaw(UnlVinher(k, m).k) <==> HandsToBest(k, UnlMtx(m)))
  {
    UnlVinherOk(k, m);
    assert VirtOk(k);
    if !LastUnlock(k, m) { CountedUnlockLaw(k, m); }
    else if k.q[VirtQ] == [] { ClearedLaw(k, m); }
    else { HandOverLaw(k, m); }
  }

  /** A call keeps the law if and only if it hands the virtual mutex to a best waiter, or not at all. */
  lemma CallKeepsLaw(k: KState, c: Call)
    requires OutOf(k) && LocksOk(k) && VirtualLaw(k) && !k.halted && AllVirtual(k) && !c.ChgPri?
    ensures LocksOk(Dispatch(k, c).k) && (VirtualLaw(Dispatch(k, c).k) <==> HandsToBest(k, c))
  {
    DispatchOk(k, c);
    if c.LocMtx? && Reaches(k, c.m) { LocVinherLaw(k, c.m); }
    else if c.UnlMtx? && Reaches(k, c.m) { ReleaseKeepsLaw(k, c.m); }
    else {
      OtherCallPris(k, c);
      LawFrame(k, Dispatch(k, c).k);
    }
  }

  // ---- Runs ------------------------------------------------------------------------------------

  ghost predicate StepHandsToBest(k: KState, step: Step)
    requires Good(k)
  {
    step.Syscall? ==> HandsToBest(GetCurrent(k), step.c)
  }

  /** The same of a whole step. */
  lemma StepKeepsLaw(k: KState, step: Step)
    requires Good(k) && VirtualLaw(k) && AllVirtual(k) && KeepsPriorities(step)
    ensures StepOk(k, step) && LocksOk(StepTo(k, step))
    ensures VirtualLaw(StepTo(k, step)) <==> StepHandsToBest(k, step)
  {
    if step.Syscall? {
      OutLaw(k);
      var out := GetCurrent(k);
      CallKeepsLaw(out, step.c);
      DispatchOk(out, step.c);
      ScheduleLocks(Dispatch(out, step.c).k);
      SchedulePris(Dispatch(out, step.c).k);
      LawBoth(Dispatch(out, step.c).k, SyscallStep(k, step.c).k);
    } else {
      RoundRobinLaw(k);
    }
  }

  /** Every hand-over of the run is to a best waiter. */
  ghost predicate AllHandToBest(k: KState, steps: seq<Step>)
    requires Good(k)
  {
    if steps == [] then true
    else
      var last := |steps| - 1;
      var r := Run(k, steps[..last]);
      AllHandToBest(k, steps[..last]) && (r.Some? && !r.value.halted ==> StepHandsToBest(r.value, steps[last]))
  }

  lemma {:induction false} BestRun(k: KState, steps: seq<Step>)
    requires Good(k) && VirtualLaw(k) && AllVirtual(k) && AllHandToBest(k, steps)
    requires forall i | 0 <= i < |steps| :: KeepsPriorities(steps[i])
    ensures Run(k, steps).Some? && AllVirtual(Run(k, steps).value) && VirtualLaw(Run(k, steps).value)
    decreases |steps|
  {
    hide Good, Next;
    if steps != [] {
      var last := |steps| - 1;
      BestRun(k, steps[..last]);
      BestNext(Run(k, steps[..last]).value, steps[last]);
    }
  }

  lemma BestNext(k: KState, step: Step)
    requires LocksOk(k) && (k.halted || Good(k)) && AllVirtual(k) && VirtualLaw(k) && KeepsPriorities(step)
    requires k.halted || StepHandsToBest(k, step)
    ensures var r := Next(k, step); r.Some? && AllVirtual(r.value) && VirtualLaw(r.value)
  {
    if !k.halted {
      StepKeepsLaw(k, step);
      var k' := Next(k, step).value;
      forall m | 0 <= m < |k'.mtxs| ensures k'.mtxs[m].protocol == VINHERIT { assert SameKind(k.mtxs[m], k'.mtxs[m]); }
    }
  }

  /** In every run, in whatever order waiters are served, whose hand-overs are all to a best waiter: the
      virtual owner runs at the best priority of itself and all waiters, and everybody else at their own. */
  lemma BestServedLaw(k: KState, steps: seq<Step>)
    requires Started(k) && AllVirtual(k)
    requires forall t | 0 <= t < |k.tasks| :: k.tasks[t].pri == k.tasks[t].initPri
    requires forall i | 0 <= i < |steps| :: KeepsPriorities(steps[i])
    ensures Good(k)
    ensures AllHandToBest(k, steps) ==> Run(k, steps).Some? && VirtualLaw(Run(k, steps).value)
  {
    StartedIsGood(k);
    if AllHandToBest(k, steps) { BestRun(k, steps); }
  }
}
