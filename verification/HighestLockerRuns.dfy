/** Runs of a kernel whose mutexes all use the immediate-highest-locker protocol. */
module HighestLockerRuns {
  import opened KernelState
  import opened KernelCalls
  import opened KernelRun
  import opened LockInvariants
  import opened KernelTheorems
  import opened RunTheorems
  import opened PriorityFrames
  import opened HighestLocker

  // ---- One step --------------------------------------------------------------------------------

  /** A free mutex is never on the list, so the calls that set no priorities are all covered. */
  lemma HighAdmits(k: KState, c: Call)
    requires ListLaw(k) && k.cur < |k.tasks| && !c.ChgPri?
    ensures Admits(k, c)
  {
  }

  /** The call is not the first lock of a mutex with a negative ceiling. */
  predicate Raises(k: KState, c: Call) {
    c.LocMtx? && Reaches(k, c.m) ==> CanRaise(k, c.m)
  }

  /** A call keeps the priorities in step with the list. */
  lemma CallList(k: KState, c: Call)
    requires OutOf(k) && LocksOk(k) && AllHigh(k) && ListLaw(k) && !c.ChgPri? && Raises(k, c)
    ensures Admits(k, c) && ListLaw(Dispatch(k, c).k)
  {
    hide LocksOk, ListLaw;
    HighAdmits(k, c);
    if c.LocMtx? && Reaches(k, c.m) { LocImHighList(k, c.m); }
    else if c.UnlMtx? && Reaches(k, c.m) { UnlImHighList(k, c.m); }
    else {
      OtherCallPris(k, c);
      ListFrame(k, Dispatch(k, c).k);
    }
  }

  // ---- The stacks of held mutexes --------------------------------------------------------------

  predicate LastLock(k: KState, c: Call) {
    c.UnlMtx? && Reaches(k, c.m) && k.mtxs[c.m].owner == k.cur && k.mtxs[c.m].locks == 1
  }

  /** What a call by cur makes of the stacks: a first lock pushes, a last unlock pops, and a waiter
      that gets the mutex has it pushed. */
  ghost function StacksAfter(k: KState, h: seq<seq<nat>>, c: Call): (r: seq<seq<nat>>)
    requires WF(k) && |h| == |k.tasks|
    ensures |r| == |h|
  {
    var s := h[k.cur];
    if c.LocMtx? && Reaches(k, c.m) && k.mtxs[c.m].owner == NO_OWNER then h[k.cur := s + [c.m]]
    else if LastLock(k, c) && s != [] then
      var h1 := h[k.cur := s[..|s| - 1]];
      var w := Served(k, c.m);
      if w.Some? && w.value < |h| then h1[w.value := h1[w.value] + [c.m]] else h1
    else h
  }

  /** Tasks unlock in the reverse of their locking order, a waiter that gets the mutex already runs at
      its ceiling or better, and no mutex with a negative ceiling is locked. */
  ghost predicate Nested(k: KState, h: seq<seq<nat>>, c: Call)
    requires WF(k) && |h| == |k.tasks|
  {
    && Raises(k, c)
    && (LastLock(k, c) ==>
          && h[k.cur] != [] && h[k.cur][|h[k.cur]| - 1] == c.m
          && HandsOverRaised(k, c.m))
  }

  ghost predicate HeldOk(k: KState, h: seq<seq<nat>>) {
    ListLaw(k) && HeldLaw(k) && StacksOk(k, h)
  }

  /** Owners, list and setup are the same, so the stacks still fit. */
  lemma StacksFrame(k: KState, k': KState, h: seq<seq<nat>>)
    requires HeldOk(k, h) && SamePris(k.(mtxs := k'.mtxs), k') && |k'.mtxs| == |k.mtxs|
    requires forall m | 0 <= m < |k.mtxs| ::
               k'.mtxs[m].ceiling == k.mtxs[m].ceiling && k'.mtxs[m].owner == k.mtxs[m].owner
    ensures HeldOk(k', h)
  {
    ListFrame(k, k');
    forall t: nat, m: nat | t < |k'.tasks| && Owns(k', t, m) ensures k'.tasks[t].pri <= k'.mtxs[m].ceiling {
      assert SamePri(k.tasks[t], k'.tasks[t]) && Owns(k, t, m);
    }
    forall t | 0 <= t < |h| ensures StackOk(k', t, h[t]) {
      assert SamePri(k.tasks[t], k'.tasks[t]);
      StackFrame(k, k', t, h[t]);
    }
  }

  lemma WaitStacks(k: KState, m: nat, h: seq<seq<nat>>)
    requires OutOf(k) && HeldOk(k, h) && m < |k.mtxs|
    ensures HeldOk(WaitMtx(k, m), h)
  {
    WaitOnEffect(k, MtxQ(m), WAIT_MUTEX, OnMutex(m));
    var k' := WaitMtx(k, m);
    WaitList(k, k');
    HeldFrame(k, m, k');
    forall t | 0 <= t < |h| ensures StackOk(k', t, h[t]) {
      assert SamePri(k.tasks[t], k'.tasks[t]);
      StackFrame(k, k', t, h[t]);
    }
  }

  lemma FirstStacks(k: KState, m: nat, h: seq<seq<nat>>)
    requires OutOf(k) && LocksOk(k) && HeldOk(k, h) && m < |k.mtxs| && k.mtxs[m].owner == NO_OWNER
    requires k.mtxs[m].ceiling >= 0
    ensures m !in k.high
    ensures HeldOk(LocImHigh(k, m).k, h[k.cur := h[k.cur] + [m]])
  {
    LocImHighList(k, m);
    FirstKeepsHeld(k, m);
    if k.tasks[k.cur].pri > k.mtxs[m].ceiling {
      RaiseEffect(k, m);
      RaisedStacks(k, m, LocImHigh(k, m).k, h);
    } else {
      assert MtxOk(k, m);
      LocFirstPris(k, m);
      TakenStacks(k, m, LocImHigh(k, m).k, h);
    }
  }

  lemma RaisedStacks(k: KState, m: nat, k': KState, h: seq<seq<nat>>)
    requires k.cur < |k.tasks| && StacksOk(k, h) && m < |k.mtxs| && k.mtxs[m].owner == NO_OWNER && Raised(k, m, k')
    ensures StacksOk(k', h[k.cur := h[k.cur] + [m]])
  {
    assert k'.high[0] == m;
    var h' := h[k.cur := h[k.cur] + [m]];
    forall t | 0 <= t < |h'| ensures StackOk(k', t, h'[t]) {
      if t == k.cur { StackPush(k, k', t, h[t], m); } else { StackFrame(k, k', t, h[t]); }
    }
  }

  lemma TakenStacks(k: KState, m: nat, k': KState, h: seq<seq<nat>>)
    requires k.cur < |k.tasks| && ListLaw(k) && StacksOk(k, h) && m < |k.mtxs| && k.mtxs[m].owner == NO_OWNER
    requires k.tasks[k.cur].pri <= k.mtxs[m].ceiling && m !in k.high
    requires k'.mtxs == k.mtxs[m := k.mtxs[m].(value := 1, locks := k.mtxs[m].locks + 1, owner := k.cur)]
    requires SamePris(k.(mtxs := k'.mtxs), k')
    ensures StacksOk(k', h[k.cur := h[k.cur] + [m]])
  {
    assert IsListedBest(k, k.cur, k.high, k.tasks[k.cur].pri);
    var h' := h[k.cur := h[k.cur] + [m]];
    forall t | 0 <= t < |h'| ensures StackOk(k', t, h'[t]) {
      assert SamePri(k.tasks[t], k'.tasks[t]);
      if t == k.cur { StackPush(k, k', t, h[t], m); } else { StackFrame(k, k', t, h[t]); }
    }
  }

  lemma UnlockStacks(k: KState, m: nat, h: seq<seq<nat>>)
    requires OutOf(k) && LocksOk(k) && HeldOk(k, h) && Reaches(k, m)
    requires LastLock(k, UnlMtx(m)) && Nested(k, h, UnlMtx(m))
    ensures HeldOk(UnlImHigh(k, m).k, StacksAfter(k, h, UnlMtx(m)))
  {
    hide WF, LocksOk;
    UnlImHighList(k, m);
    LastInCovered(k, h, m);
    UnlockKeepsHeld(k, m);
    UnlImHighEffect(k, m);
    ServedOther(k, m);
    GivenUpStacks(k, m, Served(k, m), UnlImHigh(k, m).k, h);
  }

  lemma GivenUpStacks(k: KState, m: nat, w: Option<nat>, k': KState, h: seq<seq<nat>>)
    requires WF(k) && ListLaw(k) && StacksOk(k, h) && m < |k.mtxs| && k.mtxs[m].owner == k.cur
    requires h[k.cur] != [] && h[k.cur][|h[k.cur]| - 1] == m
    requires w.Some? ==> w.value < |k.tasks| && w.value != k.cur && k.tasks[w.value].pri <= k.mtxs[m].ceiling
    requires GivenUp(k, m, PriAfter(k, m), w, k')
    ensures var h1 := h[k.cur := h[k.cur][..|h[k.cur]| - 1]];
            StacksOk(k', if w.Some? then h1[w.value := h1[w.value] + [m]] else h1)
  {
    forall t: nat | t < |h| ensures StackOk(k', t, NewStack(k, m, w, h[t], t)) {
      GivenUpStack(k, m, w, k', h[t], t);
    }
    StacksTogether(k, m, w, k', h);
  }

  /** The stack of task t after cur gave up m, on top of its own, to w. */
  function NewStack(k: KState, m: nat, w: Option<nat>, s: seq<nat>, t: nat): (r: seq<nat>)
    requires t == k.cur ==> s != []
  {
    if t == k.cur then s[..|s| - 1] else if w == Some(t) then s + [m] else s
  }

  lemma StacksTogether(k: KState, m: nat, w: Option<nat>, k': KState, h: seq<seq<nat>>)
    requires k.cur < |h| == |k'.tasks| && h[k.cur] != [] && (w.Some? ==> w.value < |h| && w.value != k.cur)
    requires forall t: nat | t < |h| :: StackOk(k', t, NewStack(k, m, w, h[t], t))
    ensures var h1 := h[k.cur := h[k.cur][..|h[k.cur]| - 1]];
            StacksOk(k', if w.Some? then h1[w.value := h1[w.value] + [m]] else h1)
  {
    var h1 := h[k.cur := h[k.cur][..|h[k.cur]| - 1]];
    var h' := if w.Some? then h1[w.value := h1[w.value] + [m]] else h1;
    forall t | 0 <= t < |h'| ensures StackOk(k', t, h'[t]) {
      assert h'[t] == NewStack(k, m, w, h[t], t);
    }
  }

  lemma GivenUpStack(k: KState, m: nat, w: Option<nat>, k': KState, s: seq<nat>, t: nat)
    requires WF(k) && ListLaw(k) && m < |k.mtxs| && k.mtxs[m].owner == k.cur && t < |k.tasks| && StackOk(k, t, s)
    requires t == k.cur ==> s != [] && s[|s| - 1] == m
    requires w.Some? ==> w.value < |k.tasks| && w.value != k.cur && k.tasks[w.value].pri <= k.mtxs[m].ceiling
    requires GivenUp(k, m, PriAfter(k, m), w, k')
    ensures StackOk(k', t, NewStack(k, m, w, s, t))
  {
    if t == k.cur { StackPop(k, k', t, s); }
    else if w == Some(t) { HandedStack(k, m, t, k', s); }
    else { StackFrame(k, k', t, s); }
  }

  lemma HandedStack(k: KState, m: nat, t: nat, k': KState, s: seq<nat>)
    requires WF(k) && ListLaw(k) && m < |k.mtxs| && k.mtxs[m].owner == k.cur
    requires t < |k.tasks| && t != k.cur && k.tasks[t].pri <= k.mtxs[m].ceiling && StackOk(k, t, s)
    requires GivenUp(k, m, PriAfter(k, m), Some(t), k')
    ensures StackOk(k', t, s + [m])
  {
    assert IsListedBest(k, t, k.high, k.tasks[t].pri);
    StackPush(k, k', t, s, m);
  }

  /** A call keeps priorities, list and stacks in step. */
  lemma CallHeld(k: KState, h: seq<seq<nat>>, c: Call)
    requires OutOf(k) && LocksOk(k) && AllHigh(k) && HeldOk(k, h) && !c.ChgPri? && Nested(k, h, c)
    ensures Admits(k, c)
    ensures HeldOk(Dispatch(k, c).k, StacksAfter(k, h, c))
  {
    hide LocksOk;
    HighAdmits(k, c);
    if c.LocMtx? && Reaches(k, c.m) { LockStacks(k, h, c.m); }
    else if c.UnlMtx? && Reaches(k, c.m) { UnlStacks(k, h, c.m); }
    else { OtherStacks(k, h, c); }
  }

  lemma UnlStacks(k: KState, h: seq<seq<nat>>, m: nat)
    requires OutOf(k) && LocksOk(k) && HeldOk(k, h) && Reaches(k, m) && Nested(k, h, UnlMtx(m))
    ensures HeldOk(UnlImHigh(k, m).k, StacksAfter(k, h, UnlMtx(m)))
  {
    if LastLock(k, UnlMtx(m)) { UnlockStacks(k, m, h); } else { CountedStacks(k, h, m); }
  }

  lemma OtherStacks(k: KState, h: seq<seq<nat>>, c: Call)
    requires OutOf(k) && HeldOk(k, h) && !c.ChgPri?
    requires (c.LocMtx? || c.UnlMtx?) ==> !Reaches(k, c.m)
    ensures HeldOk(Dispatch(k, c).k, h)
  {
    OtherCallPris(k, c);
    StacksFrame(k, Dispatch(k, c).k, h);
  }

  lemma CountedStacks(k: KState, h: seq<seq<nat>>, m: nat)
    requires OutOf(k) && HeldOk(k, h) && Reaches(k, m) && !LastLock(k, UnlMtx(m))
    ensures HeldOk(UnlImHigh(k, m).k, h)
  {
    RecursivePris(k, m);
    PutCurrentPris(k);
    StacksFrame(k, UnlImHigh(k, m).k, h);
  }

  lemma LockStacks(k: KState, h: seq<seq<nat>>, m: nat)
    requires OutOf(k) && LocksOk(k) && HeldOk(k, h) && Reaches(k, m) && CanRaise(k, m)
    ensures k.mtxs[m].owner == NO_OWNER ==> m !in k.high
    ensures HeldOk(LocImHigh(k, m).k, StacksAfter(k, h, LocMtx(m)))
  {
    if k.mtxs[m].owner == NO_OWNER { FirstStacks(k, m, h); }
    else if k.mtxs[m].owner == k.cur {
      RecursivePris(k, m);
      StacksFrame(k, LocImHigh(k, m).k, h);
    } else { WaitStacks(k, m, h); }
  }

  // ---- Runs ------------------------------------------------------------------------------------

  /** Between steps: the priorities in step with the list. */
  ghost predicate HighGood(k: KState) {
    LocksOk(k) && (k.halted || Good(k)) && AllHigh(k) && ListLaw(k)
  }

  lemma TakeOutHigh(k: KState)
    requires Good(k) && HighGood(k)
    ensures var out := GetCurrent(k);
            && OutOf(out) && LocksOk(out) && AllHigh(out) && ListLaw(out) && !out.halted
            && SameSetup(k, out) && out.cur == k.cur && SamePris(k, out)
  {
    TakeOut(k);
    GetCurrentPris(k);
    ListFrame(k, GetCurrent(k));
  }

  lemma HighSetup(k: KState, k': KState)
    requires AllHigh(k) && SameSetup(k, k')
    ensures AllHigh(k')
  {
    forall m | 0 <= m < |k'.mtxs| ensures k'.mtxs[m].protocol == IMHIGHLOC {
      assert SameKind(k.mtxs[m], k'.mtxs[m]);
    }
  }

  lemma ScheduleList(k: KState)
    requires AtRest(k) && ListLaw(k)
    ensures ListLaw(Schedule(k)) && SamePris(k, Schedule(k))
  {
    SchedulePris(k);
    ListFrame(k, Schedule(k));
  }

  /** The state that the scheduler of an expiry starts from. */
  lemma ExpiryPris(k: KState)
    requires Good(k)
    ensures SamePris(k, RoundRobin(k))
  {
    TakeOut(k);
    var out := GetCurrent(k);
    GetCurrentPris(k);
    PutCurrentRests(out);
    PutCurrentPris(out);
    SchedulePris(PutCurrent(out));
    SamePrisTrans(k, out, PutCurrent(out));
    SamePrisTrans(k, PutCurrent(out), RoundRobin(k));
  }

  /** The step sets no priorities and locks no mutex with a negative ceiling. */
  predicate Quiet(k: KState, step: Step) {
    && KeepsPriorities(step)
    && (step.Syscall? && step.c.LocMtx? && Reaches(k, step.c.m) ==> k.mtxs[step.c.m].ceiling >= 0)
  }

  /** Ceilings are fixed, so what is quiet is known from the start. */
  lemma QuietFrame(k: KState, k': KState, step: Step)
    requires Quiet(k, step) && SameSetup(k, k')
    ensures Quiet(k', step)
  {
    if step.Syscall? && step.c.LocMtx? && Reaches(k, step.c.m) {
      assert SameKind(k.mtxs[step.c.m], k'.mtxs[step.c.m]);
    }
  }

  /** No step is uncovered, and every task keeps the best of its initial priority and the ceilings of
      the listed mutexes it owns. */
  lemma NextList(k: KState, step: Step)
    requires HighGood(k) && KeepsPriorities(step) && (step.Syscall? ==> Raises(k, step.c))
    ensures Next(k, step).Some? && HighGood(Next(k, step).value)
  {
    if !k.halted {
      if step.Syscall? {
        CallNextList(k, step.c);
      } else {
        ExpiryPris(k);
        ListFrame(k, RoundRobin(k));
      }
      HighSetup(k, Next(k, step).value);
    }
  }

  lemma CallNextList(k: KState, c: Call)
    requires Good(k) && HighGood(k) && !c.ChgPri? && Raises(k, c)
    ensures Admits(k, c) && ListLaw(SyscallStep(k, c).k)
  {
    TakeOutHigh(k);
    HighAdmits(k, c);
    var out := GetCurrent(k);
    CallList(out, c);
    DispatchOk(out, c);
    ScheduleList(Dispatch(out, c).k);
  }

  /** Every run that sets no priorities and locks no mutex with a negative ceiling is covered, in whatever
      order the tasks unlock. */
  lemma {:induction false} HighRun(k: KState, steps: seq<Step>)
    requires Good(k) && HighGood(k) && forall i | 0 <= i < |steps| :: Quiet(k, steps[i])
    ensures Run(k, steps).Some? && HighGood(Run(k, steps).value)
    decreases |steps|
  {
    hide Good, Next;
    if steps != [] {
      var last := |steps| - 1;
      HighRun(k, steps[..last]);
      QuietFrame(k, Run(k, steps[..last]).value, steps[last]);
      NextList(Run(k, steps[..last]).value, steps[last]);
    }
  }

  /** What a step makes of the stacks. */
  ghost function StacksStep(k: KState, h: seq<seq<nat>>, step: Step): (r: seq<seq<nat>>)
    requires Good(k) && |h| == |k.tasks|
    ensures |r| == |h|
  {
    if step.Syscall? then StacksAfter(GetCurrent(k), h, step.c) else h
  }

  /** The mutexes that every task holds after a run, in locking order. */
  ghost function Stacks(k: KState, steps: seq<Step>): (r: seq<seq<nat>>)
    requires Good(k) && Run(k, steps).Some?
    ensures |r| == |k.tasks|
    decreases |steps|
  {
    if steps == [] then seq(|k.tasks|, _ => [])
    else
      var last := |steps| - 1;
      var k1 := Run(k, steps[..last]).value;
      if k1.halted then Stacks(k, steps[..last]) else StacksStep(k1, Stacks(k, steps[..last]), steps[last])
  }

  ghost predicate LifoStep(k: KState, h: seq<seq<nat>>, step: Step)
    requires LocksOk(k) && (k.halted || Good(k)) && |h| == |k.tasks|
  {
    KeepsPriorities(step) && (step.Syscall? && !k.halted ==> Nested(GetCurrent(k), h, step.c))
  }

  /** In the run tasks unlock in the reverse of their locking order, no mutex goes to a waiter worse
      than its ceiling, and nobody sets priorities from outside. */
  ghost predicate Lifo(k: KState, steps: seq<Step>)
    requires Good(k) && Run(k, steps).Some?
    decreases |steps|
  {
    if steps == [] then true
    else
      var last := |steps| - 1;
      && Lifo(k, steps[..last])
      && LifoStep(Run(k, steps[..last]).value, Stacks(k, steps[..last]), steps[last])
  }

  lemma TakeOutHeld(k: KState, h: seq<seq<nat>>)
    requires Good(k) && HighGood(k) && HeldOk(k, h)
    ensures HeldOk(GetCurrent(k), h)
  {
    GetCurrentPris(k);
    StacksFrame(k, GetCurrent(k), h);
  }

  lemma CallNextHeld(k: KState, h: seq<seq<nat>>, c: Call)
    requires Good(k) && HighGood(k) && HeldOk(k, h) && LifoStep(k, h, Syscall(c))
    ensures Admits(k, c) && HeldOk(SyscallStep(k, c).k, StacksStep(k, h, Syscall(c)))
  {
    TakeOutHigh(k);
    TakeOutHeld(k, h);
    HighAdmits(k, c);
    var out := GetCurrent(k);
    CallHeld(out, h, c);
    DispatchOk(out, c);
    SchedulePris(Dispatch(out, c).k);
    StacksFrame(Dispatch(out, c).k, SyscallStep(k, c).k, StacksAfter(out, h, c));
  }

  /** A step that keeps to the discipline keeps priorities, list and stacks in step. */
  lemma NextHeld(k: KState, h: seq<seq<nat>>, step: Step)
    requires Good(k) && HighGood(k) && HeldOk(k, h) && LifoStep(k, h, step) && Next(k, step).Some?
    ensures HeldOk(Next(k, step).value, StacksStep(k, h, step))
  {
    if step.Syscall? {
      CallNextHeld(k, h, step.c);
    } else {
      ExpiryPris(k);
      StacksFrame(k, RoundRobin(k), h);
    }
  }

  lemma NextLifo(k: KState, h: seq<seq<nat>>, step: Step)
    requires HighGood(k) && HeldOk(k, h) && LifoStep(k, h, step) && !k.halted
    ensures Next(k, step).Some? && HighGood(Next(k, step).value)
    ensures HeldOk(Next(k, step).value, StacksStep(k, h, step))
  {
    if step.Syscall? { TakeOutMtxs(k); }
    NextList(k, step);
    NextHeld(k, h, step);
  }

  lemma TakeOutMtxs(k: KState)
    requires Good(k)
    ensures GetCurrent(k).mtxs == k.mtxs && GetCurrent(k).ids == k.ids
  {
  }

  lemma {:induction false} LifoHeld(k: KState, steps: seq<Step>)
    requires Good(k) && HighGood(k) && HeldOk(k, seq(|k.tasks|, _ => []))
    requires Run(k, steps).Some? && Lifo(k, steps)
    ensures HighGood(Run(k, steps).value) && HeldOk(Run(k, steps).value, Stacks(k, steps))
    decreases |steps|
  {
    if steps != [] {
      var last := |steps| - 1;
      LifoHeld(k, steps[..last]);
      var k1 := Run(k, steps[..last]).value;
      if !k1.halted { NextLifo(k1, Stacks(k, steps[..last]), steps[last]); }
    }
  }

  /** In every run in which tasks unlock in the reverse of their locking order, and no mutex is
      handed to a waiter worse than its ceiling: every task always runs at the best of its initial
      priority and the ceilings of all mutexes it holds, whether they raised it or not. */
  lemma HighestLockerLaw(k: KState, steps: seq<Step>, r: KState, t: nat)
    requires Started(k) && AllHigh(k) && t < |k.tasks|
    requires forall i | 0 <= i < |k.tasks| :: k.tasks[i].pri == k.tasks[i].initPri
    ensures Good(k)
    ensures Run(k, steps) == Some(r) && Lifo(k, steps) ==>
              var p := r.tasks[t].pri;
              && p <= r.tasks[t].initPri
              && (forall m: nat | Owns(r, t, m) :: p <= r.mtxs[m].ceiling)
              && (p == r.tasks[t].initPri || exists m: nat :: Owns(r, t, m) && r.mtxs[m].ceiling == p)
  {
    StartedIsGood(k);
    StartedHeld(k);
    if Run(k, steps) == Some(r) && Lifo(k, steps) {
      LifoHeld(k, steps);
      HeldIsBest(r, t);
    }
  }

  lemma StartedHeld(k: KState)
    requires Started(k) && AllHigh(k)
    requires forall i | 0 <= i < |k.tasks| :: k.tasks[i].pri == k.tasks[i].initPri
    ensures Good(k) && HighGood(k) && HeldOk(k, seq(|k.tasks|, _ => []))
  {
    StartedIsGood(k);
    var h: seq<seq<nat>> := seq(|k.tasks|, _ => []);
    forall t | 0 <= t < |h| ensures StackOk(k, t, h[t]) {
      assert forall m: nat | m < |k.mtxs| :: FreshMutex(k.mtxs[m]);
    }
  }

  /** Without any discipline, as long as no priorities are set from outside: the run is covered, and
      every task runs at the best of its initial priority and the ceilings of its listed mutexes. */
  lemma ListedLaw(k: KState, steps: seq<Step>, t: nat)
    requires Started(k) && AllHigh(k) && t < |k.tasks|
    requires forall i | 0 <= i < |k.tasks| :: k.tasks[i].pri == k.tasks[i].initPri
    requires forall i | 0 <= i < |steps| :: Quiet(k, steps[i])
    ensures Good(k) && Run(k, steps).Some?
    ensures var r := Run(k, steps).value; IsListedBest(r, t, r.high, r.tasks[t].pri)
  {
    StartedHeld(k);
    HighRun(k, steps);
  }

  // ---- Any nesting, as long as each call upholds the law ---------------------------------------

  /** No mutex with a negative ceiling is locked first, no last unlock uncovers a mutex that the caller
      keeps, and a waiter that gets the mutex needs no raise. */
  ghost predicate Upholds(k: KState, c: Call)
    requires WF(k)
  {
    Raises(k, c) && (LastLock(k, c) ==> !Uncovered(k, c.m) && HandsOverRaised(k, c.m))
  }

  /** A call keeps every holder at the ceilings of all it holds if and only if it upholds them. */
  lemma CallKeepsHeld(k: KState, c: Call)
    requires OutOf(k) && LocksOk(k) && AllHigh(k) && ListLaw(k) && HeldLaw(k) && !c.ChgPri?
    ensures Admits(k, c)
    ensures HeldLaw(Dispatch(k, c).k) <==> Upholds(k, c)
  {
    hide LocksOk, ListLaw, HeldLaw;
    HighAdmits(k, c);
    if c.LocMtx? && Reaches(k, c.m) { LockKeepsHeld(k, c.m); }
    else if LastLock(k, c) { UnlockKeepsHeld(k, c.m); }
    else if c.UnlMtx? && Reaches(k, c.m) { CountedHeld(k, c.m); }
    else {
      OtherCallPris(k, c);
      HeldSame(k, Dispatch(k, c).k);
    }
  }

  lemma CountedHeld(k: KState, m: nat)
    requires OutOf(k) && HeldLaw(k) && Reaches(k, m) && !LastLock(k, UnlMtx(m))
    ensures HeldLaw(UnlImHigh(k, m).k)
  {
    RecursivePris(k, m);
    PutCurrentPris(k);
    HeldFrame(k, m, UnlImHigh(k, m).k);
  }

  lemma HeldSame(k: KState, k': KState)
    requires SamePris(k, k')
    ensures HeldLaw(k') <==> HeldLaw(k)
  {
    assert forall t | 0 <= t < |k.tasks| :: SamePri(k.tasks[t], k'.tasks[t]);
    assert forall t: nat, m: nat :: Owns(k', t, m) <==> Owns(k, t, m);
  }

  ghost predicate StepUpholds(k: KState, step: Step)
    requires Good(k)
  {
    step.Syscall? ==> Upholds(GetCurrent(k), step.c)
  }

  /** The same of a whole step. */
  lemma StepKeepsHeld(k: KState, step: Step)
    requires Good(k) && HighGood(k) && HeldLaw(k) && KeepsPriorities(step)
    ensures StepOk(k, step)
    ensures HeldLaw(StepTo(k, step)) <==> StepUpholds(k, step)
  {
    if step.Syscall? {
      CallStepHeld(k, step.c);
    } else {
      ExpiryPris(k);
      HeldSame(k, RoundRobin(k));
    }
  }

  lemma CallStepHeld(k: KState, c: Call)
    requires Good(k) && HighGood(k) && HeldLaw(k) && !c.ChgPri?
    ensures Admits(k, c)
    ensures HeldLaw(SyscallStep(k, c).k) <==> Upholds(GetCurrent(k), c)
  {
    TakeOutHigh(k);
    HighAdmits(k, c);
    var out := GetCurrent(k);
    HeldSame(k, out);
    CallKeepsHeld(out, c);
    DispatchOk(out, c);
    SchedulePris(Dispatch(out, c).k);
    HeldSame(Dispatch(out, c).k, SyscallStep(k, c).k);
  }

  /** Every step of the run upholds the ceilings held. */
  ghost predicate AllUphold(k: KState, steps: seq<Step>)
    requires Good(k)
  {
    if steps == [] then true
    else
      var last := |steps| - 1;
      var r := Run(k, steps[..last]);
      AllUphold(k, steps[..last]) && (r.Some? && !r.value.halted ==> StepUpholds(r.value, steps[last]))
  }

  lemma {:induction false} HeldRun(k: KState, steps: seq<Step>)
    requires Good(k) && HighGood(k) && HeldLaw(k) && AllUphold(k, steps)
    requires forall i | 0 <= i < |steps| :: KeepsPriorities(steps[i])
    ensures Run(k, steps).Some? && HighGood(Run(k, steps).value) && HeldLaw(Run(k, steps).value)
    decreases |steps|
  {
    hide Good, Next;
    if steps != [] {
      var last := |steps| - 1;
      HeldRun(k, steps[..last]);
      HeldNext(Run(k, steps[..last]).value, steps[last]);
    }
  }

  lemma HeldNext(k: KState, step: Step)
    requires HighGood(k) && HeldLaw(k) && KeepsPriorities(step) && (k.halted || StepUpholds(k, step))
    ensures var r := Next(k, step); r.Some? && HighGood(r.value) && HeldLaw(r.value)
  {
    if !k.halted {
      if step.Syscall? { TakeOutMtxs(k); }
      NextList(k, step);
      StepKeepsHeld(k, step);
    }
  }

  /** In every run, however locks nest, whose steps uphold the ceilings held: every task always runs at the
      best of its initial priority and the ceilings of all mutexes it holds. */
  lemma UpheldLaw(k: KState, steps: seq<Step>, t: nat)
    requires Started(k) && AllHigh(k) && t < |k.tasks|
    requires forall i | 0 <= i < |k.tasks| :: k.tasks[i].pri == k.tasks[i].initPri
    requires forall i | 0 <= i < |steps| :: KeepsPriorities(steps[i])
    ensures Good(k)
    ensures AllUphold(k, steps) ==>
              && Run(k, steps).Some?
              && var r := Run(k, steps).value;
                 var p := r.tasks[t].pri;
                 && p <= r.tasks[t].initPri
                 && (forall m: nat | Owns(r, t, m) :: p <= r.mtxs[m].ceiling)
                 && (p == r.tasks[t].initPri || exists m: nat :: Owns(r, t, m) && r.mtxs[m].ceiling == p)
  {
    StartedIsGood(k);
    StartedHeld(k);
    if AllUphold(k, steps) {
      HeldRun(k, steps);
      HeldIsBest(Run(k, steps).value, t);
    }
  }
}
