/** Locks and time slices counted over whole runs.  Whatever protocols the mutexes use, every accepted lock is
    held, is waited for, or has been given up by an accepted unlock. */
module CountedRuns {
  import opened Bitmaps
  import opened KernelState
  import opened KernelCalls
  import opened KernelRun
  import opened LockInvariants
  import opened KernelTheorems
  import opened RunTheorems
  import opened CallEffects
  import opened LockEffects

  /** Task x waits for mutex w. */
  predicate Waits(k: KState, x: nat, w: nat)
    requires x < |k.tasks|
  {
    && (WAIT_MUTEX in k.tasks[x].state || WAIT_VIRTUAL_MUTEX in k.tasks[x].state)
    && k.tasks[x].wobj == OnMutex(w)
  }

  /** How often task x holds mutex w, or waits to. */
  function Claim(k: KState, x: nat, w: nat): (r: int)
    requires x < |k.tasks| && w < |k.mtxs|
  {
    (if k.mtxs[w].owner == x then k.mtxs[w].locks else 0) + if Waits(k, x, w) then 1 else 0
  }

  /** What a call adds to the claim of its caller on mutex w, judged by the call and the code it returns
      alone: an accepted lock one, an accepted unlock one less. */
  function Accepted(c: Call, er: int, w: nat): (r: int) {
    if er != E_OK then 0
    else match c
      case LocMtx(m) => if m == w then 1 else 0
      case UnlMtx(m) => if m == w then -1 else 0
      case _ => 0
  }

  /** The claim of x on w rises by d; and if x waited for w and does no more, it is ready. */
  ghost predicate ClaimRises(k: KState, k': KState, x: nat, w: nat, d: int) {
    && x < |k.tasks| == |k'.tasks| && w < |k.mtxs| == |k'.mtxs|
    && Claim(k', x, w) == Claim(k, x, w) + d
    && (Waits(k, x, w) && !Waits(k', x, w) ==> k'.tasks[x].state == {READY})
  }

  /** A claim stays if the mutexes do and nobody starts or stops waiting for one. */
  lemma ClaimStays(k: KState, k': KState, x: nat, w: nat)
    requires x < |k.tasks| == |k'.tasks| && w < |k.mtxs| == |k'.mtxs|
    requires k'.mtxs[w].owner == k.mtxs[w].owner && k'.mtxs[w].locks == k.mtxs[w].locks
    requires Waits(k', x, w) == Waits(k, x, w)
    ensures ClaimRises(k, k', x, w, 0)
  {
  }

  // ---- Calls -----------------------------------------------------------------------------------

  lemma UntouchedClaim(k: KState, k': KState, x: nat, w: nat)
    requires OutOf(k) && x < |k.tasks| && w < |k.mtxs| && Untouched(k, k'.(sems := k.sems))
    ensures ClaimRises(k, k', x, w, 0)
  {
    ClaimStays(k, k', x, w);
  }

  lemma SemClaim(k: KState, c: Call, x: nat, w: nat)
    requires OutOf(k) && LocksOk(k) && Exists(k, c) && (c.WaiSem? || c.PolSem? || c.SigSem?)
    requires x < |k.tasks| && w < |k.mtxs|
    ensures ClaimRises(k, Dispatch(k, c).k, x, w, 0)
  {
    hide QueuesOk, LocksOk, Requeued, Dispatch;
    var k' := Dispatch(k, c).k;
    if c.SigSem? { SignalClaim(k, c.s, x, w); }
    else {
      if c.WaiSem? { WaitEffect(k, c.s); } else { PollEffect(k, c.s); }
      ClaimStays(k, k', x, w);
    }
  }

  lemma SignalClaim(k: KState, s: nat, x: nat, w: nat)
    requires OutOf(k) && LocksOk(k) && Exists(k, SigSem(s)) && x < |k.tasks| && w < |k.mtxs|
    ensures ClaimRises(k, Dispatch(k, SigSem(s)).k, x, w, 0)
  {
    hide QueuesOk, LocksOk, Requeued, Dispatch;
    SemQueue(k, s);
    var k', q := Dispatch(k, SigSem(s)).k, k.q[SemQ(s)];
    SignalEffect(k, s);
    if q == [] { UntouchedClaim(k, k', x, w); } else {
      WaitersExist(k, SemQ(s));
      var i := Pick(k.tasks, k.sems[s].order, q);
      ServesPick(k.tasks, k.sems[s].order, q, i);
      SemWaiter(k, s, i);
      ClaimStays(k, k', x, w);
    }
  }

  lemma SemWaiter(k: KState, s: nat, i: nat)
    requires WF(k) && SemQ(s) in k.q && i < |k.q[SemQ(s)]|
    ensures k.q[SemQ(s)][i] < |k.tasks| && k.tasks[k.q[SemQ(s)][i]].wobj.OnSemaphore?
  {
    assert QueueOk(k.tasks, k.q[SemQ(s)], SemQ(s));
  }

  lemma TaskClaim(k: KState, c: Call, x: nat, w: nat)
    requires OutOf(k) && LocksOk(k) && Exists(k, c) && (c.ChgPri? || c.StaTsk?) && CallOk(c)
    requires x < |k.tasks| && w < |k.mtxs|
    ensures ClaimRises(k, Dispatch(k, c).k, x, w, 0)
  {
    hide QueuesOk, LocksOk, Requeued, Dispatch;
    if c.ChgPri? { ChangeEffect(k, c.t, c.p); } else { StartEffect(k, c.t); }
    ClaimStays(k, Dispatch(k, c).k, x, w);
  }

  lemma LockClaim(k: KState, m: nat, x: nat, w: nat)
    requires OutOf(k) && LocksOk(k) && !k.halted && Reaches(k, m) && Admits(k, LocMtx(m))
    requires x < |k.tasks| && w < |k.mtxs|
    ensures var r := Dispatch(k, LocMtx(m));
            ClaimRises(k, r.k, x, w, if x == k.cur then Accepted(LocMtx(m), r.er, w) else 0)
  {
    hide QueuesOk, LocksOk, Requeued, Dispatch;
    LockEffect(k, m);
    LockOwner(k, m);
    LockOwner(k, w);
  }

  lemma UnlockClaim(k: KState, m: nat, x: nat, w: nat)
    requires OutOf(k) && LocksOk(k) && !k.halted && Reaches(k, m) && x < |k.tasks| && w < |k.mtxs|
    ensures var r := Dispatch(k, UnlMtx(m));
            ClaimRises(k, r.k, x, w, if x == k.cur then Accepted(UnlMtx(m), r.er, w) else 0)
  {
    hide QueuesOk, LocksOk, Requeued, Dispatch, HandedOn;
    UnlockEffect(k, m);
    LockOwner(k, m);
    var mx, id := k.mtxs[m], Waiters(k, m).0;
    if mx.owner == k.cur && mx.locks == 1 && !KeepsVirtual(k, m) {
      HandedOnClaim(k, m, k.q[id], Dispatch(k, UnlMtx(m)).k, x, w);
    }
  }

  lemma HandedOnClaim(k: KState, m: nat, q: seq<nat>, k': KState, x: nat, w: nat)
    requires OutOf(k) && LocksOk(k) && m < |k.mtxs| && x < |k.tasks| && w < |k.mtxs|
    requires k.mtxs[m].owner == k.cur && k.mtxs[m].locks == 1 && !KeepsVirtual(k, m)
    requires Waiters(k, m).0 in k.q && q == k.q[Waiters(k, m).0] && HandedOn(k, m, q, k')
    ensures ClaimRises(k, k', x, w, if x == k.cur && w == m then -1 else 0)
  {
    hide QueuesOk, LocksOk, Requeued, HandedTo;
    LockOwner(k, m);
    if q != [] {
      var order := Waiters(k, m).1;
      WaitersExist(k, Waiters(k, m).0);
      var i := Pick(k.tasks, order, q);
      ServesPick(k.tasks, order, q, i);
      LockWaiter(k, m, i);
      HandedClaim(k, m, q[i], k', x, w);
    }
  }

  lemma HandedClaim(k: KState, m: nat, u: nat, k': KState, x: nat, w: nat)
    requires OutOf(k) && LocksOk(k) && m < |k.mtxs| && u < |k.tasks| && x < |k.tasks| && w < |k.mtxs|
    requires k.mtxs[m].owner == k.cur && k.mtxs[m].locks == 1 && !KeepsVirtual(k, m) && HandedTo(k, m, u, k')
    requires k.tasks[u].wobj.OnMutex? ==> Waits(k, u, k.tasks[u].wobj.m)
    requires k.mtxs[m].protocol == VINHERIT && k.tasks[u].wobj.OnMutex? && k.tasks[u].wobj.m < |k.mtxs| ==>
               k.mtxs[k.tasks[u].wobj.m].protocol == VINHERIT
    ensures ClaimRises(k, k', x, w, if x == k.cur && w == m then -1 else 0)
  {
    hide QueuesOk, LocksOk, Requeued;
    var v := k.tasks[u].wobj.m;
    WantedFree(k, m, v);
    LockOwner(k, v);
    if w != m && w != v { ClaimStays(k, k', x, w); }
  }

  lemma LockWaiter(k: KState, m: nat, i: nat)
    requires WF(k) && LocksOk(k) && m < |k.mtxs| && Waiters(k, m).0 in k.q && i < |k.q[Waiters(k, m).0]|
    ensures var u := k.q[Waiters(k, m).0][i];
            && u < |k.tasks| && (k.tasks[u].wobj.OnMutex? ==> Waits(k, u, k.tasks[u].wobj.m))
            && (k.mtxs[m].protocol == VINHERIT && k.tasks[u].wobj.OnMutex? && k.tasks[u].wobj.m < |k.mtxs| ==>
                  k.mtxs[k.tasks[u].wobj.m].protocol == VINHERIT)
  {
    var id := Waiters(k, m).0;
    assert QueueOk(k.tasks, k.q[id], id);
    assert VirtOk(k);
  }

  /** The mutex that is handed over is the released one or had no owner. */
  lemma WantedFree(k: KState, m: nat, w: nat)
    requires LocksOk(k) && k.cur < |k.tasks| && m < |k.mtxs| && w < |k.mtxs| && k.mtxs[m].locks == 1
    requires if k.mtxs[m].protocol == VINHERIT then k.mtxs[w].protocol == VINHERIT && k.virt.locks <= 1 else w == m
    ensures w != m ==> k.mtxs[w].owner == NO_OWNER
  {
    if w != m {
      LockOwner(k, m);
      VirtualHeld(k, m);
      OneVirtualWaiter(k, m, w);
    }
  }

  /** Every call, whatever the protocol: an accepted lock adds one to the caller's claim on the mutex, an
      accepted unlock takes one off, and no claim of another task changes. */
  lemma CallClaim(k: KState, c: Call, x: nat, w: nat)
    requires OutOf(k) && LocksOk(k) && !k.halted && Admits(k, c) && x < |k.tasks| && w < |k.mtxs|
    ensures var r := Dispatch(k, c); ClaimRises(k, r.k, x, w, if x == k.cur then Accepted(c, r.er, w) else 0)
  {
    hide QueuesOk, LocksOk, Requeued, Dispatch;
    if !Exists(k, c) {
      RefusedEffect(k, c);
      UntouchedClaim(k, Dispatch(k, c).k, x, w);
    } else {
      match c
      case LocMtx(m) => LockClaim(k, m, x, w);
      case UnlMtx(m) => UnlockClaim(k, m, x, w);
      case WaiSem(_) => SemClaim(k, c, x, w);
      case PolSem(_) => SemClaim(k, c, x, w);
      case SigSem(_) => SemClaim(k, c, x, w);
      case ChgPri(_, _) => TaskClaim(k, c, x, w);
      case StaTsk(_) => TaskClaim(k, c, x, w);
    }
  }

  // ---- Steps and runs --------------------------------------------------------------------------

  /** What a step adds to the claim of task x on mutex w. */
  ghost function StepAccepted(k: KState, step: Step, x: nat, w: nat): (r: int)
    requires Good(k) && StepOk(k, step)
  {
    if step.Syscall? && k.cur == x then Accepted(step.c, SyscallStep(k, step.c).er, w) else 0
  }

  lemma StepClaim(k: KState, step: Step, x: nat, w: nat)
    requires Good(k) && StepOk(k, step) && x < |k.tasks| && w < |k.mtxs|
    ensures ClaimRises(k, StepTo(k, step), x, w, StepAccepted(k, step, x, w))
  {
    hide QueuesOk, LocksOk, Requeued, Dispatch, Claim;
    match step
    case Syscall(c) =>
      TakeOut(k);
      CallerOut(k);
      WholeCall(k, c);
      var out := GetCurrent(k);
      ClaimStays(k, out, x, w);
      CallClaim(out, c, x, w);
      ClaimStays(Dispatch(out, c).k, StepTo(k, step), x, w);
    case RoundRobinExpiry =>
      RoundRobinEffect(k);
      ClaimStays(k, StepTo(k, step), x, w);
    case FeedbackExpiry =>
      FeedbackEffect(k);
      ClaimStays(k, StepTo(k, step), x, w);
  }

  /** The locks of mutex w by task x that were accepted in a run, less its accepted unlocks. */
  ghost function Accepts(k: KState, steps: seq<Step>, x: nat, w: nat): (r: int)
    requires Good(k) && Run(k, steps).Some?
    decreases |steps|
  {
    if steps == [] then 0
    else
      var last := |steps| - 1;
      var k1 := Run(k, steps[..last]).value;
      Accepts(k, steps[..last], x, w) + if k1.halted then 0 else StepAccepted(k1, steps[last], x, w)
  }

  /** From any state of a run to any later one, a claim rises by the locks accepted less the unlocks. */
  lemma {:induction false} RunClaim(k: KState, steps: seq<Step>, x: nat, w: nat)
    requires Good(k) && Run(k, steps).Some? && x < |k.tasks| && w < |k.mtxs|
    ensures var r := Run(k, steps).value;
            x < |r.tasks| && w < |r.mtxs| && Claim(r, x, w) == Claim(k, x, w) + Accepts(k, steps, x, w)
    decreases |steps|
  {
    hide Good, Next, Claim, Waits;
    if steps != [] {
      var last := |steps| - 1;
      RunClaim(k, steps[..last], x, w);
      NextClaim(Run(k, steps[..last]).value, steps[last], x, w);
    }
  }

  lemma NextClaim(k: KState, step: Step, x: nat, w: nat)
    requires LocksOk(k) && (k.halted || Good(k)) && Next(k, step).Some? && x < |k.tasks| && w < |k.mtxs|
    ensures k.halted || StepOk(k, step)
    ensures ClaimRises(k, Next(k, step).value, x, w, if k.halted then 0 else StepAccepted(k, step, x, w))
  {
    if !k.halted { StepClaim(k, step, x, w); }
  }

  /** In every run from the start, with any mix of protocols: a task holds a mutex exactly as often as its
      locks of it were accepted more than its unlocks; while it waits it is one lock ahead; and if it neither
      holds the mutex nor waits for it, all its accepted locks have been undone by as many unlocks. */
  lemma LockConservation(k: KState, steps: seq<Step>, r: KState, x: nat, w: nat)
    requires Started(k) && x < |k.tasks| && w < |k.mtxs|
    ensures Good(k)
    ensures Run(k, steps) == Some(r) && !r.halted ==>
              var n := Accepts(k, steps, x, w);
              && x < |r.tasks| && w < |r.mtxs|
              && (r.mtxs[w].owner == x ==> 1 <= r.mtxs[w].locks == n <= k.mtxs[w].maxlocks && !Waits(r, x, w))
              && (Waits(r, x, w) ==> n == 1)
              && (r.mtxs[w].owner != x && !Waits(r, x, w) ==> n == 0)
  {
    StartedIsGood(k);
    if Run(k, steps) == Some(r) && !r.halted {
      NobodyWaits(k, x, w);
      RunClaim(k, steps, x, w);
      OneClaim(k, r, x, w);
    }
  }

  lemma OneClaim(k: KState, r: KState, x: nat, w: nat)
    requires Good(r) && SameSetup(k, r) && x < |r.tasks| && w < |k.mtxs|
    ensures r.mtxs[w].owner == x ==> Claim(r, x, w) == r.mtxs[w].locks && !Waits(r, x, w)
    ensures r.mtxs[w].owner == x ==> 1 <= r.mtxs[w].locks <= k.mtxs[w].maxlocks
  {
    assert SameKind(k.mtxs[w], r.mtxs[w]);
    if r.mtxs[w].owner == x { OwnerDoesNotWait(r, x, w); }
  }

  lemma NobodyWaits(k: KState, x: nat, w: nat)
    requires Started(k) && x < |k.tasks| && w < |k.mtxs|
    ensures Claim(k, x, w) == 0
  {
    assert Placed(k.tasks, k.q, x) && Settled(k.tasks[x]) && FreshMutex(k.mtxs[w]);
  }

  /** No task waits for a mutex that it owns. */
  lemma OwnerDoesNotWait(k: KState, x: nat, w: nat)
    requires AtRest(k) && LocksOk(k) && x < |k.tasks| && w < |k.mtxs| && k.mtxs[w].owner == x
    ensures !Waits(k, x, w) && 1 <= k.mtxs[w].locks <= k.mtxs[w].maxlocks
  {
    assert Placed(k.tasks, k.q, x) && Settled(k.tasks[x]);
    assert MtxOk(k, w) && VirtOk(k);
    assert k.mtxs[w].protocol == VINHERIT ==> Counted(k.mtxs[w]) == 1;
  }

  /** At every point of every run: a task that stops waiting for a mutex owns that mutex, locked once, and is
      ready. */
  lemma WokenOwns(k: KState, steps: seq<Step>, i: nat, x: nat, w: nat)
    requires Good(k) && Run(k, steps).Some? && i < |steps| && x < |k.tasks| && w < |k.mtxs|
    ensures Run(k, steps[..i]).Some? && Run(k, steps[..i + 1]).Some?
    ensures var k1, k2 := Run(k, steps[..i]).value, Run(k, steps[..i + 1]).value;
            Waits(k1, x, w) && !Waits(k2, x, w) ==>
              k2.mtxs[w].owner == x && k2.mtxs[w].locks == 1 && k2.mtxs[w].value == 1 && k2.tasks[x].state == {READY}
  {
    RunPrefix(k, steps, i);
    RunPrefix(k, steps, i + 1);
    RunNext(k, steps, i);
    WokenAtOnce(Run(k, steps[..i]).value, steps[i], x, w);
  }

  lemma WokenAtOnce(k: KState, step: Step, x: nat, w: nat)
    requires LocksOk(k) && (k.halted || Good(k)) && Next(k, step).Some? && x < |k.tasks| && w < |k.mtxs|
    ensures var k' := Next(k, step).value;
            Waits(k, x, w) && !Waits(k', x, w) ==>
              k'.mtxs[w].owner == x && k'.mtxs[w].locks == 1 && k'.mtxs[w].value == 1 && k'.tasks[x].state == {READY}
  {
    hide Good, Next;
    var k' := Next(k, step).value;
    if Waits(k, x, w) && !Waits(k', x, w) {
      NextClaim(k, step, x, w);
      WaiterStands(k, step, x, w);
      assert MtxOk(k', w);
    }
  }

  /** A waiting task does not run, and does not own what it waits for. */
  lemma WaiterStands(k: KState, step: Step, x: nat, w: nat)
    requires LocksOk(k) && (k.halted || Good(k)) && Next(k, step).Some? && x < |k.tasks| && w < |k.mtxs|
    requires Waits(k, x, w)
    ensures if k.halted then Next(k, step) == Some(k) else k.mtxs[w].owner != x && k.cur != x
  {
    hide QueuesOk, LocksOk;
    if !k.halted {
      assert Settled(k.tasks[k.cur]);
      if k.mtxs[w].owner == x { OwnerDoesNotWait(k, x, w); }
    }
  }

  // ---- Time slices -----------------------------------------------------------------------------

  predicate AllVoid(k: KState) {
    forall m | 0 <= m < |k.mtxs| :: k.mtxs[m].protocol == VOIDPCL
  }

  /** Priority p after n time slices under the feedback scheduler. */
  function Lowest(p: int, n: nat): (r: int) {
    if p + n < PRIORITY_NUM then p + n else PRIORITY_NUM - 1
  }

  /** The time slices of task t that ran out in a run. */
  ghost function Slices(k: KState, steps: seq<Step>, t: nat): (n: nat)
    requires Good(k) && Run(k, steps).Some?
    decreases |steps|
  {
    if steps == [] then 0
    else
      var last := |steps| - 1;
      var k1 := Run(k, steps[..last]).value;
      Slices(k, steps[..last], t) + if !k1.halted && k1.cur == t && steps[last].FeedbackExpiry? then 1 else 0
  }

  lemma CallPri(k: KState, c: Call, t: nat)
    requires OutOf(k) && LocksOk(k) && !k.halted && Admits(k, c) && AllVoid(k) && !c.ChgPri? && t < |k.tasks|
    ensures |Dispatch(k, c).k.tasks| == |k.tasks| && Dispatch(k, c).k.tasks[t].pri == k.tasks[t].pri
  {
    hide QueuesOk, LocksOk, Requeued, Dispatch;
    if !Exists(k, c) { RefusedEffect(k, c); } else {
      match c
      case LocMtx(m) => LockEffect(k, m);
      case UnlMtx(m) => UnlockPri(k, m, t);
      case WaiSem(s) => WaitEffect(k, s);
      case PolSem(s) => PollEffect(k, s);
      case SigSem(s) => SignalPri(k, s, t);
      case StaTsk(u) => StartEffect(k, u);
    }
  }

  lemma UnlockPri(k: KState, m: nat, t: nat)
    requires OutOf(k) && LocksOk(k) && !k.halted && Reaches(k, m) && k.mtxs[m].protocol == VOIDPCL && t < |k.tasks|
    ensures var k' := Dispatch(k, UnlMtx(m)).k; |k'.tasks| == |k.tasks| && k'.tasks[t].pri == k.tasks[t].pri
  {
    hide QueuesOk, LocksOk, Requeued, Dispatch;
    UnlockEffect(k, m);
    var q := k.q[Waiters(k, m).0];
    if q != [] {
      WaitersExist(k, Waiters(k, m).0);
      ServesPick(k.tasks, k.mtxs[m].order, q, Pick(k.tasks, k.mtxs[m].order, q));
    }
  }

  lemma SignalPri(k: KState, s: nat, t: nat)
    requires OutOf(k) && LocksOk(k) && Exists(k, SigSem(s)) && t < |k.tasks|
    ensures var k' := Dispatch(k, SigSem(s)).k; |k'.tasks| == |k.tasks| && k'.tasks[t].pri == k.tasks[t].pri
  {
    hide QueuesOk, LocksOk, Requeued, Dispatch;
    SemQueue(k, s);
    SignalEffect(k, s);
    var q := k.q[SemQ(s)];
    if q != [] {
      WaitersExist(k, SemQ(s));
      ServesPick(k.tasks, k.sems[s].order, q, Pick(k.tasks, k.sems[s].order, q));
    }
  }

  lemma StepPri(k: KState, step: Step, t: nat)
    requires Good(k) && StepOk(k, step) && AllVoid(k) && t < |k.tasks| && (step.Syscall? ==> !step.c.ChgPri?)
    ensures |StepTo(k, step).tasks| == |k.tasks|
    ensures StepTo(k, step).tasks[t].pri == Lowest(k.tasks[t].pri, if step.FeedbackExpiry? && k.cur == t then 1 else 0)
  {
    hide QueuesOk, LocksOk, Requeued, Dispatch;
    PriRange(k, t);
    match step
    case Syscall(c) =>
      TakeOut(k);
      CallerOut(k);
      WholeCall(k, c);
      CallPri(GetCurrent(k), c, t);
    case RoundRobinExpiry => RoundRobinEffect(k);
    case FeedbackExpiry => FeedbackEffect(k);
  }

  lemma PriRange(k: KState, t: nat)
    requires Good(k) && t < |k.tasks|
    ensures 0 <= k.tasks[t].pri < PRIORITY_NUM
  {
    assert RecordOk(|k.mtxs|, k.tasks[t]);
  }

  lemma NextPri(k: KState, step: Step, t: nat)
    requires LocksOk(k) && (k.halted || Good(k)) && Next(k, step).Some? && AllVoid(k) && t < |k.tasks|
    requires step.Syscall? ==> !step.c.ChgPri?
    ensures var k', n := Next(k, step).value, if !k.halted && k.cur == t && step.FeedbackExpiry? then 1 else 0;
            && AllVoid(k') && t < |k'.tasks|
            && k'.tasks[t].pri == if n == 0 then k.tasks[t].pri else Lowest(k.tasks[t].pri, 1)
  {
    var k' := Next(k, step).value;
    forall m | 0 <= m < |k'.mtxs| ensures k'.mtxs[m].protocol == VOIDPCL { assert SameKind(k.mtxs[m], k'.mtxs[m]); }
    if !k.halted {
      PriRange(k, t);
      StepPri(k, step, t);
    }
  }

  /** Without priority protocols and calls that set priorities, in every run: a task runs as many priorities
      below where it began as time slices of its own ran out under the feedback scheduler, down to the last. */
  lemma {:induction false} SlicesLaw(k: KState, steps: seq<Step>, t: nat)
    requires Good(k) && AllVoid(k) && t < |k.tasks| && Run(k, steps).Some?
    requires forall i | 0 <= i < |steps| :: steps[i].Syscall? ==> !steps[i].c.ChgPri?
    ensures var r := Run(k, steps).value;
            AllVoid(r) && t < |r.tasks| && r.tasks[t].pri == Lowest(k.tasks[t].pri, Slices(k, steps, t))
    decreases |steps|
  {
    hide Good, Next;
    PriRange(k, t);
    if steps != [] {
      var last := |steps| - 1;
      SlicesLaw(k, steps[..last], t);
      NextPri(Run(k, steps[..last]).value, steps[last], t);
    }
  }
}
