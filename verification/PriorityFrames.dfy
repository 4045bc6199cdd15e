/** Calls that leave priorities and lock queues alone, and what a boost and its reset do to them. */
module PriorityFrames {
  import opened TaskQueues
  import opened Bitmaps
  import opened KernelState
  import opened KernelCalls
  import opened KernelRun
  import opened LockInvariants

  predicate SamePri(tk: Task, tk': Task) {
    tk'.pri == tk.pri && tk'.initPri == tk.initPri
  }

  /** No priority, no lock and no queue of a lock differs. */
  ghost predicate SamePris(k: KState, k': KState) {
    && |k'.tasks| == |k.tasks|
    && (forall t | 0 <= t < |k.tasks| :: SamePri(k.tasks[t], k'.tasks[t]))
    && k'.virt == k.virt && k'.mtxs == k.mtxs && k'.high == k.high
    && k'.q.Keys == k.q.Keys
    && (VirtQ in k.q ==> k'.q[VirtQ] == k.q[VirtQ])
    && (forall m: nat | MtxQ(m) in k.q :: k'.q[MtxQ(m)] == k.q[MtxQ(m)])
  }

  lemma SamePrisTrans(k1: KState, k2: KState, k3: KState)
    requires SamePris(k1, k2) && SamePris(k2, k3)
    ensures SamePris(k1, k3)
  {
    forall t | 0 <= t < |k1.tasks| ensures SamePri(k1.tasks[t], k3.tasks[t]) {
      assert SamePri(k1.tasks[t], k2.tasks[t]);
    }
  }

  lemma PutCurrentPris(k: KState)
    requires WF(k) && (READY in k.tasks[k.cur].state || k.tasks[k.cur].state == {})
    ensures SamePris(k, PutCurrent(k)) && PutCurrent(k).cur == k.cur
  {
  }

  lemma GetCurrentPris(k: KState)
    requires Runnable(k)
    ensures SamePris(k, GetCurrent(k)) && GetCurrent(k).cur == k.cur
  {
  }

  lemma SchedulePris(k: KState)
    requires AtRest(k)
    ensures SamePris(k, Schedule(k))
  {
  }

  lemma SemCallPris(k: KState, s: nat)
    requires OutOf(k) && s < |k.sems|
    ensures SamePris(k, KernelCalls.WaiSem(k, s).k)
    ensures SamePris(k, KernelCalls.PolSem(k, s).k)
  {
    PutCurrentPris(k);
  }

  lemma SigSemPris(k: KState, s: nat)
    requires OutOf(k) && s < |k.sems|
    ensures SamePris(k, KernelCalls.SigSem(k, s).k)
  {
    PutCurrentPris(k);
    PutCurrentRests(k);
    var k1 := PutCurrent(k);
    if k1.q[SemQ(s)] != [] {
      WakePris(k1, SemQ(s), k.sems[s].order);
      var k2 := Wake(k1, SemQ(s), k.sems[s].order);
      PutCurrentPris(k2);
      SamePrisTrans(k, k1, k2);
      SamePrisTrans(k, k2, PutCurrent(k2));
    }
  }

  lemma WakePris(k: KState, id: QueueId, order: Order)
    requires AtRest(k) && id in k.q && id.SemQ? && k.q[id] != []
    ensures SamePris(k, Wake(k, id, order))
  {
    WakeFrame(k, id, order);
    assert QueueOk(k.tasks, k.q[id], id);
  }

  lemma StaTskPris(k: KState, t: nat)
    requires OutOf(k) && t < |k.tasks|
    ensures SamePris(k, KernelCalls.StaTsk(k, t).k)
  {
    PutCurrentPris(k);
    PutCurrentRests(k);
    var k1 := PutCurrent(k).(cur := t);
    if k1.tasks[t].state == {DORMANT} {
      var k2 := SetRecord(k1, t, WithState(k1.tasks[t], {}));
      PutCurrentPris(k2);
    }
  }

  lemma LocFirstPris(k: KState, m: nat)
    requires OutOf(k) && m < |k.mtxs| && k.mtxs[m].value == 0
    ensures var k', mx := LocFirst(k, m), k.mtxs[m];
            && k'.mtxs == k.mtxs[m := mx.(value := 1, locks := mx.locks + 1, owner := k.cur)]
            && SamePris(k.(mtxs := k'.mtxs), k')
  {
    PutCurrentPris(k);
  }

  /** A recursive lock, or the undoing of one, changes at most a count. */
  lemma RecursivePris(k: KState, m: nat)
    requires OutOf(k) && m < |k.mtxs|
    ensures var k' := LocMultipl(k, m).k;
            && SamePris(k.(mtxs := k'.mtxs), k')
            && k'.mtxs == k.mtxs[m := k.mtxs[m].(locks := k'.mtxs[m].locks)]
    ensures var k' := NotLockFirst(k, m).k;
            && SamePris(k.(mtxs := k'.mtxs), k')
            && k'.mtxs == k.mtxs[m := k.mtxs[m].(locks := k'.mtxs[m].locks)]
  {
    PutCurrentPris(k);
  }

  /** No step sets a priority from outside: no chg_pri call, no demotion by the feedback scheduler. */
  predicate KeepsPriorities(step: Step) {
    step.RoundRobinExpiry? || (step.Syscall? && !step.c.ChgPri?)
  }

  /** The calls that touch no mutex. */
  lemma OtherCallPris(k: KState, c: Call)
    requires OutOf(k) && !c.ChgPri?
    requires (c.LocMtx? || c.UnlMtx?) ==> !Reaches(k, c.m)
    ensures SamePris(k, Dispatch(k, c).k)
  {
    PutCurrentPris(k);
    match c
    case WaiSem(s) => if s < k.ids.sem && s < |k.sems| { SemCallPris(k, s); }
    case PolSem(s) => if s < k.ids.sem && s < |k.sems| { SemCallPris(k, s); }
    case SigSem(s) => if s < k.ids.sem && s < |k.sems| { SigSemPris(k, s); }
    case StaTsk(t) => if t < |k.tasks| { StaTskPris(k, t); }
    case LocMtx(m) =>
    case UnlMtx(m) =>
  }

  /** The served waiter depends on the waiters' priorities alone. */
  lemma {:induction false} SamePick(tasks: seq<Task>, tasks': seq<Task>, order: Order, s: seq<nat>)
    requires s != [] && |tasks'| == |tasks| && forall i | 0 <= i < |s| :: s[i] < |tasks|
    requires forall i {:trigger s[i]} | 0 <= i < |s| :: tasks'[s[i]].pri == tasks[s[i]].pri
    ensures Pick(tasks', order, s) == Pick(tasks, order, s)
  {
    SameBest(tasks, tasks', s);
  }

  lemma {:induction false} SameBest(tasks: seq<Task>, tasks': seq<Task>, s: seq<nat>)
    requires s != [] && |tasks'| == |tasks| && forall i | 0 <= i < |s| :: s[i] < |tasks|
    requires forall i {:trigger s[i]} | 0 <= i < |s| :: tasks'[s[i]].pri == tasks[s[i]].pri
    ensures BestIndex(tasks', s) == BestIndex(tasks, s)
  {
    if |s| > 1 { SameBest(tasks, tasks', s[..|s| - 1]); }
  }

  /** The waiter that the release of mutex m serves. */
  ghost function Served(k: KState, m: nat): (r: Option<nat>)
    requires WF(k) && m < |k.mtxs|
  {
    assert QueueOk(k.tasks, k.q[MtxQ(m)], MtxQ(m));
    if k.q[MtxQ(m)] == [] then None
    else Some(k.q[MtxQ(m)][Pick(k.tasks, k.mtxs[m].order, k.q[MtxQ(m)])])
  }

  lemma WokenMtx(k: KState, m: nat)
    requires AtRest(k) && m < |k.mtxs| && k.q[MtxQ(m)] != []
    ensures forall i | 0 <= i < |k.q[MtxQ(m)]| :: k.q[MtxQ(m)][i] < |k.tasks|
    ensures var k', i := PutMtxWait(k, m), Pick(k.tasks, k.mtxs[m].order, k.q[MtxQ(m)]);
            && |k'.tasks| == |k.tasks|
            && (forall t | 0 <= t < |k.tasks| :: SamePri(k.tasks[t], k'.tasks[t]))
            && k'.mtxs == k.mtxs[m := k.mtxs[m].(owner := k.q[MtxQ(m)][i])]
            && k'.q.Keys == k.q.Keys && k'.q[MtxQ(m)] == Without(k.q[MtxQ(m)], i)
            && (forall j: nat | MtxQ(j) in k.q && j != m :: k'.q[MtxQ(j)] == k.q[MtxQ(j)])
  {
    assert QueueOk(k.tasks, k.q[MtxQ(m)], MtxQ(m));
    WakeFrame(k, MtxQ(m), k.mtxs[m].order);
    var k1 := Wake(k, MtxQ(m), k.mtxs[m].order);
    PutCurrentPris(k1);
    forall t | 0 <= t < |k.tasks| ensures SamePri(k.tasks[t], PutCurrent(k1).tasks[t]) {
      assert SamePri(k1.tasks[t], PutCurrent(k1).tasks[t]);
    }
  }

  // ---- Boosts ----------------------------------------------------------------------------------

  /** k' differs from k in the priority of t, which is p, and at most in ready queues. */
  ghost predicate OnlyPri(k: KState, t: nat, p: int, k': KState)
    requires t < |k.tasks|
  {
    && k'.tasks == k.tasks[t := k.tasks[t].(pri := p)]
    && k'.virt == k.virt && k'.mtxs == k.mtxs && k'.sems == k.sems && k'.high == k.high && k'.cur == k.cur
    && k'.halted == k.halted
    && k'.q.Keys == k.q.Keys
    && (forall id | id in k.q && !id.ReadyQ? :: k'.q[id] == k.q[id])
  }

  lemma IchgPriEffect(k: KState, t: nat, p: int)
    requires OutOf(k) && t < |k.tasks| && p != PRIORITY_NUM
    requires PriInRange(p) && DORMANT !in k.tasks[t].state
    ensures OnlyPri(k, t, p, IchgPri(k, t, p)) && OutOf(IchgPri(k, t, p))
  {
    IchgPriTasks(k, t, p);
    IchgPriSame(k, t, p);
    IchgPriOutOf(k, t, p);
  }

  lemma BoostEffect(k: KState, owner: nat)
    requires OutOf(k) && Awake(k, owner)
    ensures OutOf(BoostOwner(k, owner))
    ensures OnlyPri(k, owner,
                    if k.tasks[k.cur].pri < k.tasks[owner].pri then k.tasks[k.cur].pri else k.tasks[owner].pri,
                    BoostOwner(k, owner))
  {
    assert RecordOk(|k.mtxs|, k.tasks[k.cur]);
    IchgPriEffect(k, owner, k.tasks[k.cur].pri);
  }

  lemma RestoreEffect(k: KState)
    requires OutOf(k)
    ensures OutOf(RestorePri(k)) && OnlyPri(k, k.cur, k.tasks[k.cur].initPri, RestorePri(k))
  {
    assert RecordOk(|k.mtxs|, k.tasks[k.cur]);
    IchgPriEffect(k, k.cur, k.tasks[k.cur].initPri);
  }

  /** The caller appended to a wait queue. */
  lemma WaitOnEffect(k: KState, id: QueueId, b: StateBit, o: WaitObject)
    requires OutOf(k) && id in k.q
    requires o.OnMutex? ==> o.m < |k.mtxs|
    requires || (b == WAIT_SEMAPHORE && o.OnSemaphore? && id == SemQ(o.s))
             || (b == WAIT_MUTEX && o.OnMutex? && id == MtxQ(o.m))
             || (b == WAIT_VIRTUAL_MUTEX && o.OnMutex? && id == VirtQ)
    ensures var k' := WaitOn(k, id, b, o);
            && k' == k.(tasks := k'.tasks, q := k.q[id := k.q[id] + [k.cur]])
            && |k'.tasks| == |k.tasks|
            && (forall t | 0 <= t < |k.tasks| :: SamePri(k.tasks[t], k'.tasks[t]))
  {
  }
}
