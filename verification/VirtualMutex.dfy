/** Virtual priority inheritance over whole runs: freedom from deadlock, the accounting of the
    virtual mutex, and the priority its owner runs at. */
module VirtualMutex {
  import opened TaskQueues
  import opened KernelState
  import opened KernelCalls
  import opened KernelRun
  import opened LockInvariants
  import opened KernelTheorems
  import opened RunTheorems
  import opened PriorityFrames

  predicate AllVirtual(k: KState) {
    forall m | 0 <= m < |k.mtxs| :: k.mtxs[m].protocol == VINHERIT
  }

  // ---- Freedom from deadlock -------------------------------------------------------------------

  /** Task t cannot go on before task u releases a mutex: it queues on a mutex of u, or on the
      virtual mutex that u owns, or there for a mutex of u. */
  ghost predicate WaitsFor(k: KState, t: nat, u: nat) {
    && t < |k.tasks|
    && ( || (exists m: nat :: m < |k.mtxs| && MtxQ(m) in k.q && t in k.q[MtxQ(m)] && k.mtxs[m].owner == u)
         || (VirtQ in k.q && t in k.q[VirtQ]
             && (k.virt.owner == u
                 || (k.tasks[t].wobj.OnMutex? && k.tasks[t].wobj.m < |k.mtxs|
                     && k.mtxs[k.tasks[t].wobj.m].owner == u))))
  }

  ghost predicate WaitChain(k: KState, path: seq<nat>) {
    forall i | 0 <= i < |path| - 1 :: WaitsFor(k, path[i], path[i + 1])
  }

  /** Whoever waits, waits for the virtual owner, and the virtual owner waits for nobody. */
  lemma WaitsForOwner(k: KState, t: nat, u: nat)
    requires AtRest(k) && LocksOk(k) && AllVirtual(k) && WaitsFor(k, t, u)
    ensures k.virt.owner == u && u != t
    ensures forall v: nat :: !WaitsFor(k, u, v)
  {
    assert VirtOk(k);
    forall m: nat | m < |k.mtxs| ensures k.q[MtxQ(m)] == [] { assert MtxOk(k, m); }
    assert t in k.q[VirtQ];
    var i :| 0 <= i < |k.q[VirtQ]| && k.q[VirtQ][i] == t;
    var w := k.tasks[t].wobj.m;
    assert k.mtxs[w].owner == NO_OWNER || Counted(k.mtxs[w]) == 1;
    assert u !in k.q[VirtQ];
  }

  /** Whatever order the tasks nest their locks in, and however the calls and time slices interleave:
      a chain of waiting tasks has one link, so no task ever waits for itself. */
  lemma DeadlockFree(k: KState, steps: seq<Step>, path: seq<nat>)
    requires Started(k) && AllVirtual(k) && CallsOk(steps) && |path| >= 2
    ensures Good(k) && Run(k, steps).Some?
    ensures var r := Run(k, steps).value;
            !r.halted && WaitChain(r, path) ==> |path| == 2 && path[0] != path[1] && path[1] == r.virt.owner
  {
    StartedIsGood(k);
    RunVirtual(k, steps);
    var r := Run(k, steps).value;
    if !r.halted && WaitChain(r, path) { OneLink(r, path); }
  }

  lemma OneLink(k: KState, path: seq<nat>)
    requires AtRest(k) && LocksOk(k) && AllVirtual(k) && |path| >= 2 && WaitChain(k, path)
    ensures |path| == 2 && path[0] != path[1] && path[1] == k.virt.owner
  {
    if |path| > 2 { assert WaitsFor(k, path[1], path[2]); }
    WaitsForOwner(k, path[0], path[1]);
  }

  lemma RunVirtual(k: KState, steps: seq<Step>)
    requires Good(k) && AllVirtual(k) && CallsOk(steps)
    ensures Run(k, steps).Some? && AllVirtual(Run(k, steps).value)
  {
    RunCovered(k, steps);
    var r := Run(k, steps).value;
    forall m | 0 <= m < |r.mtxs| ensures r.mtxs[m].protocol == VINHERIT { assert SameKind(k.mtxs[m], r.mtxs[m]); }
  }

  /** While a task waits for a mutex, the task it waits for is ready, or waits for a semaphore; so
      without semaphores somebody can always go on. */
  lemma OwnerCanRun(k: KState, steps: seq<Step>, t: nat)
    requires Started(k) && AllVirtual(k) && CallsOk(steps) && t < |k.tasks|
    ensures Good(k) && Run(k, steps).Some?
    ensures var r := Run(k, steps).value;
            !r.halted && (WAIT_MUTEX in r.tasks[t].state || WAIT_VIRTUAL_MUTEX in r.tasks[t].state) ==>
              && 0 <= r.virt.owner < |r.tasks| && WaitsFor(r, t, r.virt.owner)
              && (r.tasks[r.virt.owner].state == {READY} || r.tasks[r.virt.owner].state == {WAIT_SEMAPHORE})
              && (r.sems == [] ==> r.tasks[r.virt.owner].state == {READY})
  {
    StartedIsGood(k);
    RunVirtual(k, steps);
    var r := Run(k, steps).value;
    if !r.halted && (WAIT_MUTEX in r.tasks[t].state || WAIT_VIRTUAL_MUTEX in r.tasks[t].state) {
      WaiterOwner(r, t);
    }
  }

  lemma WaiterOwner(k: KState, t: nat)
    requires AtRest(k) && LocksOk(k) && AllVirtual(k) && t < |k.tasks|
    requires WAIT_MUTEX in k.tasks[t].state || WAIT_VIRTUAL_MUTEX in k.tasks[t].state
    ensures 0 <= k.virt.owner < |k.tasks| && WaitsFor(k, t, k.virt.owner)
    ensures k.tasks[k.virt.owner].state == {READY} || k.tasks[k.virt.owner].state == {WAIT_SEMAPHORE}
    ensures k.sems == [] ==> k.tasks[k.virt.owner].state == {READY}
  {
    assert Placed(k.tasks, k.q, t) && VirtOk(k) && Settled(k.tasks[t]);
    forall m: nat | m < |k.mtxs| ensures k.q[MtxQ(m)] == [] { assert MtxOk(k, m); }
    assert t in k.q[VirtQ];
    OwnerAwake(k);
    var u := k.virt.owner;
    assert Placed(k.tasks, k.q, u) && Settled(k.tasks[u]);
  }

  /** The owner of the virtual mutex is a started task. */
  lemma OwnerAwake(k: KState)
    requires LocksOk(k) && k.virt.owner != NO_OWNER
    ensures Awake(k, k.virt.owner)
  {
    CountZero(k.mtxs);
    var m :| 0 <= m < |k.mtxs| && Counted(k.mtxs[m]) != 0;
    assert MtxOk(k, m);
  }

  // ---- Accounting ------------------------------------------------------------------------------

  ghost function OwnedVirtual(k: KState): (r: set<nat>) {
    set m: nat | m < |k.mtxs| && k.mtxs[m].protocol == VINHERIT && k.mtxs[m].owner != NO_OWNER
  }

  lemma {:induction false} OwnedVirtualCount(k: KState, mtxs: seq<Mutex>)
    ensures OwnedCount(mtxs) == |set m: nat | m < |mtxs| && mtxs[m].protocol == VINHERIT && mtxs[m].owner != NO_OWNER|
  {
    var s := set m: nat | m < |mtxs| && mtxs[m].protocol == VINHERIT && mtxs[m].owner != NO_OWNER;
    if mtxs != [] {
      var n := |mtxs| - 1;
      var init := mtxs[..n];
      OwnedVirtualCount(k, init);
      var s' := set m: nat | m < |init| && init[m].protocol == VINHERIT && init[m].owner != NO_OWNER;
      assert s == s' + (if Counted(mtxs[n]) == 1 then {n} else {});
    }
  }

  ghost predicate Accounted(k: KState) {
    && k.virt.locks == |OwnedVirtual(k)|
    && (k.virt.owner == NO_OWNER <==> OwnedVirtual(k) == {})
    && k.virt.value == (if k.virt.owner == NO_OWNER then 0 else 1)
    && (forall m | m in OwnedVirtual(k) ::
          k.mtxs[m].owner == k.virt.owner && k.mtxs[m].value == 1 && 1 <= k.mtxs[m].locks <= k.mtxs[m].maxlocks)
  }

  lemma LocksAccounted(k: KState)
    requires LocksOk(k)
    ensures Accounted(k)
  {
    OwnedVirtualCount(k, k.mtxs);
    assert VirtOk(k);
    forall m | m in OwnedVirtual(k)
      ensures k.mtxs[m].owner == k.virt.owner && k.mtxs[m].value == 1 && 1 <= k.mtxs[m].locks <= k.mtxs[m].maxlocks
    {
      assert MtxOk(k, m) && Counted(k.mtxs[m]) == 1;
    }
  }

  /** The virtual mutex is locked as often as there are owned VINHERIT mutexes, all of them its
      owner's, each held once to maxlocks times; it is free exactly when none is owned. */
  lemma VirtualAccounting(k: KState, steps: seq<Step>, r: KState)
    requires Started(k)
    ensures Good(k)
    ensures Run(k, steps) == Some(r) ==> Accounted(r)
  {
    StartedIsGood(k);
    if Run(k, steps) == Some(r) { LocksAccounted(r); }
  }

  // ---- The priority law ------------------------------------------------------------------------

  /** p is the best of the initial priority and the priorities of the tasks in w. */
  ghost predicate IsBest(tasks: seq<Task>, p: int, initPri: int, w: seq<nat>)
    requires forall i | 0 <= i < |w| :: w[i] < |tasks|
  {
    && p <= initPri
    && (forall i {:trigger w[i]} | 0 <= i < |w| :: p <= tasks[w[i]].pri)
    && (p == initPri || exists i :: 0 <= i < |w| && tasks[w[i]].pri == p)
  }

  /** The virtual owner runs at the best of its initial priority and all waiters' priorities, every
      other task at its initial priority. */
  ghost predicate VirtualLaw(k: KState)
    requires LocksOk(k)
  {
    && (forall t | 0 <= t < |k.tasks| && t != k.virt.owner :: k.tasks[t].pri == k.tasks[t].initPri)
    && (0 <= k.virt.owner < |k.tasks| ==>
          IsBest(k.tasks, k.tasks[k.virt.owner].pri, k.tasks[k.virt.owner].initPri, k.q[VirtQ]))
  }

  lemma LawFrame(k: KState, k': KState)
    requires LocksOk(k) && LocksOk(k') && VirtualLaw(k)
    requires SamePris(k.(virt := k'.virt, mtxs := k'.mtxs), k') && k'.virt.owner == k.virt.owner
    ensures VirtualLaw(k')
  {
    forall t | 0 <= t < |k'.tasks| && t != k'.virt.owner ensures k'.tasks[t].pri == k'.tasks[t].initPri {
      assert SamePri(k.tasks[t], k'.tasks[t]);
    }
    if 0 <= k.virt.owner < |k.tasks| {
      assert SamePri(k.tasks[k.virt.owner], k'.tasks[k.virt.owner]);
      BestFrame(k.tasks, k'.tasks, k.tasks[k.virt.owner].pri, k.tasks[k.virt.owner].initPri, k.q[VirtQ]);
    }
  }

  lemma BestFrame(tasks: seq<Task>, tasks': seq<Task>, p: int, initPri: int, w: seq<nat>)
    requires forall i | 0 <= i < |w| :: w[i] < |tasks|
    requires |tasks'| == |tasks| && forall i {:trigger w[i]} | 0 <= i < |w| :: tasks'[w[i]].pri == tasks[w[i]].pri
    requires IsBest(tasks, p, initPri, w)
    ensures IsBest(tasks', p, initPri, w)
  {
  }

  /** A waiter joins: the owner is raised to it if it is better. */
  lemma BestJoin(tasks: seq<Task>, tasks': seq<Task>, p: int, initPri: int, w: seq<nat>, t: nat, p': int)
    requires (forall i | 0 <= i < |w| :: w[i] < |tasks|) && t < |tasks| && t !in w
    requires |tasks'| == |tasks| && forall i {:trigger w[i]} | 0 <= i < |w| :: tasks'[w[i]].pri == tasks[w[i]].pri
    requires tasks'[t].pri == tasks[t].pri && IsBest(tasks, p, initPri, w)
    requires p' == if tasks[t].pri < p then tasks[t].pri else p
    ensures IsBest(tasks', p', initPri, w + [t])
  {
    var w' := w + [t];
    assert w'[|w|] == t;
    if p' == p && p != initPri {
      var i :| 0 <= i < |w| && tasks[w[i]].pri == p;
      assert w'[i] == w[i];
    }
  }

  // ---- Lock ------------------------------------------------------------------------------------

  lemma LocVinherLaw(k: KState, m: nat)
    requires OutOf(k) && LocksOk(k) && VirtualLaw(k) && !k.halted
    requires m < |k.mtxs| && k.mtxs[m].protocol == VINHERIT
    ensures LocksOk(LocVinher(k, m).k) && VirtualLaw(LocVinher(k, m).k)
  {
    LocVinherOk(k, m);
    if k.virt.owner == NO_OWNER {
      FirstLockLaw(k, m);
    } else if k.virt.owner != k.cur {
      JoinLaw(k, m);
    } else {
      NestedLockLaw(k, m);
    }
  }

  lemma FirstLockLaw(k: KState, m: nat)
    requires OutOf(k) && LocksOk(k) && VirtualLaw(k) && m < |k.mtxs| && k.virt.owner == NO_OWNER
    requires k.mtxs[m].protocol == VINHERIT && LocksOk(LocVinher(k, m).k)
    ensures VirtualLaw(LocVinher(k, m).k)
  {
    assert MtxOk(k, m) && VirtOk(k);
    CountZero(k.mtxs);
    LocFirstPris(LocVirtual(k), m);
    var k' := LocVinher(k, m).k;
    forall t | 0 <= t < |k'.tasks| ensures k'.tasks[t].pri == k'.tasks[t].initPri {
      assert SamePri(k.tasks[t], k'.tasks[t]);
    }
  }

  lemma NestedLockLaw(k: KState, m: nat)
    requires OutOf(k) && LocksOk(k) && VirtualLaw(k) && m < |k.mtxs| && k.virt.owner == k.cur
    requires k.mtxs[m].protocol == VINHERIT && LocksOk(LocVinher(k, m).k)
    ensures VirtualLaw(LocVinher(k, m).k)
  {
    assert MtxOk(k, m);
    if k.mtxs[m].owner != NO_OWNER {
      RecursivePris(k, m);
    } else {
      LocFirstPris(k.(virt := k.virt.(locks := k.virt.locks + 1)), m);
    }
    LawFrame(k, LocVinher(k, m).k);
  }

  lemma JoinLaw(k: KState, m: nat)
    requires OutOf(k) && LocksOk(k) && VirtualLaw(k)
    requires m < |k.mtxs| && k.virt.owner != NO_OWNER && k.virt.owner != k.cur
    requires LocksOk(LocVinher(k, m).k)
    ensures VirtualLaw(LocVinher(k, m).k)
  {
    var k', owner := LocVinher(k, m).k, k.virt.owner;
    OwnerAwake(k);
    BoostEffect(k, owner);
    var k1 := BoostOwner(k, owner);
    WaitOnEffect(k1, VirtQ, WAIT_VIRTUAL_MUTEX, OnMutex(m));
    OutOfNoQueue(k, VirtQ);
    assert VirtOk(k);
    forall t | 0 <= t < |k'.tasks| && t != owner ensures k'.tasks[t].pri == k'.tasks[t].initPri {
      assert SamePri(k1.tasks[t], k'.tasks[t]);
    }
    forall i {:trigger k.q[VirtQ][i]} | 0 <= i < |k.q[VirtQ]|
      ensures k'.tasks[k.q[VirtQ][i]].pri == k.tasks[k.q[VirtQ][i]].pri {
      assert SamePri(k1.tasks[k.q[VirtQ][i]], k'.tasks[k.q[VirtQ][i]]);
    }
    assert SamePri(k1.tasks[owner], k'.tasks[owner]) && SamePri(k1.tasks[k.cur], k'.tasks[k.cur]);
    BestJoin(k.tasks, k'.tasks, k.tasks[owner].pri, k.tasks[owner].initPri, k.q[VirtQ], k.cur, k'.tasks[owner].pri);
  }

  // ---- Unlock and hand-over --------------------------------------------------------------------

  predicate LastUnlock(k: KState, m: nat)
    requires m < |k.mtxs|
  {
    k.virt.owner == k.cur && k.virt.locks == 1 && k.mtxs[m].locks == 1
  }

  /** The waiter that the release of the virtual mutex serves is as good as every other. */
  ghost predicate BestServed(k: KState)
    requires WF(k) && k.q[VirtQ] != []
  {
    assert QueueOk(k.tasks, k.q[VirtQ], VirtQ);
    var w := k.q[VirtQ];
    var served := w[Pick(k.tasks, k.virt.order, w)];
    forall i {:trigger w[i]} | 0 <= i < |w| :: k.tasks[served].pri <= k.tasks[w[i]].pri
  }

  /** After a hand-over of the virtual mutex the law holds if and only if the served waiter is a best
      one: always with priority order, and with FIFO order when the head has the best priority. */
  lemma HandOverLaw(k: KState, m: nat)
    requires OutOf(k) && LocksOk(k) && VirtualLaw(k) && !k.halted
    requires m < |k.mtxs| && k.mtxs[m].protocol == VINHERIT && LastUnlock(k, m) && k.q[VirtQ] != []
    ensures LocksOk(UnlVinher(k, m).k)
    ensures VirtualLaw(UnlVinher(k, m).k) <==> BestServed(k)
  {
    UnlVinherOk(k, m);
    HandOverPris(k, m);
    HandedOverLaw(k, UnlVinher(k, m).k);
  }

  /** Every task is at its initial priority, the served waiter owns the virtual mutex, the others wait. */
  ghost predicate HandedOver(k: KState, k': KState)
    requires WF(k) && k.q[VirtQ] != []
  {
    assert QueueOk(k.tasks, k.q[VirtQ], VirtQ);
    var i := Pick(k.tasks, k.virt.order, k.q[VirtQ]);
    && |k'.tasks| == |k.tasks|
    && (forall t | 0 <= t < |k.tasks| ::
          k'.tasks[t].initPri == k.tasks[t].initPri && k'.tasks[t].pri == k.tasks[t].initPri)
    && k'.virt.owner == k.q[VirtQ][i] && k'.virt.locks == k.virt.locks
    && VirtQ in k'.q && k'.q[VirtQ] == Without(k.q[VirtQ], i)
  }

  lemma HandedOverLaw(k: KState, k': KState)
    requires WF(k) && LocksOk(k) && LocksOk(k') && k.q[VirtQ] != [] && HandedOver(k, k') && VirtualLaw(k)
    ensures VirtualLaw(k') <==> BestServed(k)
  {
    var w := k.q[VirtQ];
    assert QueueOk(k.tasks, w, VirtQ) && VirtOk(k);
    forall i {:trigger w[i]} | 0 <= i < |w| ensures k'.tasks[w[i]].pri == k.tasks[w[i]].pri {
      assert w[i] != k.virt.owner;
    }
    SettledLaw(k', w, Pick(k.tasks, k.virt.order, w));
  }

  /** The law when all tasks are at their initial priority and w[i0] has just become the owner. */
  lemma SettledLaw(k: KState, w: seq<nat>, i0: nat)
    requires LocksOk(k) && i0 < |w| && NoDup(w) && forall i | 0 <= i < |w| :: w[i] < |k.tasks|
    requires forall t | 0 <= t < |k.tasks| :: k.tasks[t].pri == k.tasks[t].initPri
    requires k.virt.owner == w[i0] && k.q[VirtQ] == Without(w, i0)
    ensures VirtualLaw(k) <==> forall i {:trigger w[i]} | 0 <= i < |w| :: k.tasks[w[i0]].pri <= k.tasks[w[i]].pri
  {
    ServedBest(k.tasks, w, i0);
  }

  /** Among waiters at their initial priorities, the one taken out outranks the rest or it does not. */
  lemma ServedBest(tasks: seq<Task>, w: seq<nat>, i0: nat)
    requires i0 < |w| && NoDup(w) && forall i | 0 <= i < |w| :: w[i] < |tasks|
    ensures forall i | 0 <= i < |w| - 1 :: Without(w, i0)[i] < |tasks|
    ensures IsBest(tasks, tasks[w[i0]].pri, tasks[w[i0]].pri, Without(w, i0)) <==>
            forall i {:trigger w[i]} | 0 <= i < |w| :: tasks[w[i0]].pri <= tasks[w[i]].pri
  {
    var r, p := Without(w, i0), tasks[w[i0]].pri;
    if IsBest(tasks, p, p, r) {
      forall i {:trigger w[i]} | 0 <= i < |w| ensures p <= tasks[w[i]].pri {
        if i < i0 { assert r[i] == w[i]; }
        if i > i0 { assert r[i - 1] == w[i]; }
      }
    }
  }

  /** A hand-over leaves every task at its initial priority. */
  lemma HandOverPris(k: KState, m: nat)
    requires OutOf(k) && LocksOk(k) && VirtualLaw(k) && !k.halted
    requires m < |k.mtxs| && k.mtxs[m].protocol == VINHERIT && LastUnlock(k, m) && k.q[VirtQ] != []
    ensures HandedOver(k, UnlVinher(k, m).k)
  {
    RestoredPris(k);
    RestorePriQueue(k, VirtQ);
    PutCurrentRests(RestorePri(k));
    WokenHandsOver(k, PutCurrent(RestorePri(k)), m);
  }

  /** The caller back in its ready queue and every task at its initial priority. */
  ghost predicate Restored(k: KState, k': KState)
    requires WF(k)
  {
    && |k'.tasks| == |k.tasks|
    && (forall t | 0 <= t < |k.tasks| ::
          k'.tasks[t].initPri == k.tasks[t].initPri && k'.tasks[t].pri == k.tasks[t].initPri)
    && k'.virt == k.virt && VirtQ in k'.q && k'.q[VirtQ] == k.q[VirtQ]
  }

  lemma RestoredPris(k: KState)
    requires OutOf(k) && LocksOk(k) && VirtualLaw(k) && k.virt.owner == k.cur
    ensures Restored(k, PutCurrent(RestorePri(k)))
  {
    RestoreEffect(k);
    PutCurrentPris(RestorePri(k));
    forall t | 0 <= t < |k.tasks|
      ensures PutCurrent(RestorePri(k)).tasks[t].pri == k.tasks[t].initPri
      ensures PutCurrent(RestorePri(k)).tasks[t].initPri == k.tasks[t].initPri
    {
      assert SamePri(RestorePri(k).tasks[t], PutCurrent(RestorePri(k)).tasks[t]);
    }
  }

  lemma WokenHandsOver(k: KState, k2: KState, m: nat)
    requires WF(k) && LocksOk(k) && VirtualLaw(k) && k.q[VirtQ] != []
    requires Restored(k, k2) && AtRest(k2) && m < |k2.mtxs|
    ensures HandedOver(k, PutVirtualWait(k2, m))
  {
    SameServed(k, k2);
    WokenPris(k2, m);
    var k' := PutVirtualWait(k2, m);
    forall t | 0 <= t < |k.tasks|
      ensures k'.tasks[t].initPri == k.tasks[t].initPri && k'.tasks[t].pri == k.tasks[t].initPri
    {
      assert SamePri(k2.tasks[t], k'.tasks[t]);
    }
  }

  /** Nobody but the owner had another priority than its initial one, so the same waiter is served. */
  lemma SameServed(k: KState, k2: KState)
    requires WF(k) && LocksOk(k) && VirtualLaw(k) && k.q[VirtQ] != [] && Restored(k, k2)
    ensures forall i | 0 <= i < |k.q[VirtQ]| :: k.q[VirtQ][i] < |k.tasks|
    ensures Pick(k2.tasks, k.virt.order, k.q[VirtQ]) == Pick(k.tasks, k.virt.order, k.q[VirtQ])
  {
    var w := k.q[VirtQ];
    assert VirtOk(k) && QueueOk(k.tasks, w, VirtQ);
    SamePick(k.tasks, k2.tasks, k.virt.order, w);
  }

  lemma WokenPris(k: KState, m: nat)
    requires AtRest(k) && m < |k.mtxs| && k.q[VirtQ] != []
    ensures forall i | 0 <= i < |k.q[VirtQ]| :: k.q[VirtQ][i] < |k.tasks|
    ensures var k', i := PutVirtualWait(k, m), Pick(k.tasks, k.virt.order, k.q[VirtQ]);
            && |k'.tasks| == |k.tasks|
            && (forall t | 0 <= t < |k.tasks| :: SamePri(k.tasks[t], k'.tasks[t]))
            && k'.virt.owner == k.q[VirtQ][i] && k'.virt.locks == k.virt.locks
            && VirtQ in k'.q && k'.q[VirtQ] == Without(k.q[VirtQ], i)
  {
    assert QueueOk(k.tasks, k.q[VirtQ], VirtQ);
    WakeFrame(k, VirtQ, k.virt.order);
    var k1, w := Wake(k, VirtQ, k.virt.order), WokenWants(k);
    var k2 := HandOver(k1, w, m);
    LocFirstPris(k2, w);
    forall t | 0 <= t < |k.tasks| ensures SamePri(k.tasks[t], PutVirtualWait(k, m).tasks[t]) {
      assert SamePri(k2.tasks[t], LocFirst(k2, w).tasks[t]);
      assert k2.tasks[t] == k1.tasks[t];
    }
  }

  lemma UnlVinherLaw(k: KState, m: nat)
    requires OutOf(k) && LocksOk(k) && VirtualLaw(k) && !k.halted && k.virt.order == TPRI
    requires m < |k.mtxs| && k.mtxs[m].protocol == VINHERIT
    ensures LocksOk(UnlVinher(k, m).k) && VirtualLaw(UnlVinher(k, m).k)
  {
    UnlVinherOk(k, m);
    assert VirtOk(k);
    if !LastUnlock(k, m) { CountedUnlockLaw(k, m); }
    else if k.q[VirtQ] == [] { ClearedLaw(k, m); }
    else {
      HandOverLaw(k, m);
      PriorityServesBest(k);
    }
  }

  lemma PriorityServesBest(k: KState)
    requires WF(k) && k.q[VirtQ] != [] && k.virt.order == TPRI
    ensures BestServed(k)
  {
    assert QueueOk(k.tasks, k.q[VirtQ], VirtQ);
  }

  lemma CountedUnlockLaw(k: KState, m: nat)
    requires OutOf(k) && LocksOk(k) && VirtualLaw(k) && m < |k.mtxs| && !LastUnlock(k, m)
    requires LocksOk(UnlVinher(k, m).k)
    ensures VirtualLaw(UnlVinher(k, m).k)
  {
    CountedUnlockPris(k, m);
    LawFrame(k, UnlVinher(k, m).k);
  }

  lemma CountedUnlockPris(k: KState, m: nat)
    requires OutOf(k) && LocksOk(k) && m < |k.mtxs| && !LastUnlock(k, m)
    ensures var k' := UnlVinher(k, m).k;
            SamePris(k.(virt := k'.virt, mtxs := k'.mtxs), k') && k'.virt.owner == k.virt.owner
  {
    PutCurrentPris(k);
    RecursivePris(k, m);
  }

  lemma ClearedLaw(k: KState, m: nat)
    requires OutOf(k) && LocksOk(k) && VirtualLaw(k) && m < |k.mtxs| && LastUnlock(k, m) && k.q[VirtQ] == []
    requires LocksOk(UnlVinher(k, m).k)
    ensures VirtualLaw(UnlVinher(k, m).k)
  {
    var k' := UnlVinher(k, m).k;
    RestoreEffect(k);
    PutCurrentPris(RestorePri(k));
    forall t | 0 <= t < |k'.tasks| ensures k'.tasks[t].pri == k'.tasks[t].initPri {
      assert SamePri(RestorePri(k).tasks[t], k'.tasks[t]);
    }
  }

  /** A hand-over gives one waiter exactly one mutex, counted once, and takes it out of the queue. */
  lemma HandOverCountsOne(k: KState, m: nat)
    requires OutOf(k) && LocksOk(k) && !k.halted && m < |k.mtxs| && k.mtxs[m].protocol == VINHERIT
    requires LastUnlock(k, m) && k.q[VirtQ] != []
    ensures var k' := UnlVinher(k, m).k;
            && LocksOk(k') && k'.virt.locks == 1 && |OwnedVirtual(k')| == 1
            && k'.virt.owner in k.q[VirtQ] && k'.virt.owner !in k'.q[VirtQ]
  {
    UnlVinherOk(k, m);
    RestoreSame(k);
    PutCurrentSame(RestorePri(k));
    PutCurrentRests(RestorePri(k));
    RestorePriQueue(k, VirtQ);
    WokenPris(PutCurrent(RestorePri(k)), m);
    WokenCount(PutCurrent(RestorePri(k)), UnlVinher(k, m).k);
  }

  lemma WokenCount(k: KState, k': KState)
    requires WF(k) && k.q[VirtQ] != [] && k.virt.locks == 1 && LocksOk(k')
    requires forall i | 0 <= i < |k.q[VirtQ]| :: k.q[VirtQ][i] < |k.tasks|
    requires var i := Pick(k.tasks, k.virt.order, k.q[VirtQ]);
             k'.virt.owner == k.q[VirtQ][i] && k'.virt.locks == k.virt.locks && k'.q[VirtQ] == Without(k.q[VirtQ], i)
    ensures k'.virt.locks == 1 && |OwnedVirtual(k')| == 1
    ensures k'.virt.owner in k.q[VirtQ] && k'.virt.owner !in k'.q[VirtQ]
  {
    LocksAccounted(k');
    assert QueueOk(k.tasks, k.q[VirtQ], VirtQ);
    WithoutElements(k.q[VirtQ], Pick(k.tasks, k.virt.order, k.q[VirtQ]));
  }

  // ---- Runs ------------------------------------------------------------------------------------

  lemma DispatchLaw(k: KState, c: Call)
    requires OutOf(k) && LocksOk(k) && VirtualLaw(k) && !k.halted
    requires AllVirtual(k) && k.virt.order == TPRI && !c.ChgPri?
    ensures LocksOk(Dispatch(k, c).k) && VirtualLaw(Dispatch(k, c).k)
  {
    hide LocksOk, VirtualLaw, WF;
    DispatchOk(k, c);
    if c.LocMtx? && Reaches(k, c.m) { LocVinherLaw(k, c.m); }
    else if c.UnlMtx? && Reaches(k, c.m) { UnlVinherLaw(k, c.m); }
    else {
      OtherCallPris(k, c);
      LawFrame(k, Dispatch(k, c).k);
    }
  }

  lemma OutLaw(k: KState)
    requires Good(k) && VirtualLaw(k)
    ensures var out := GetCurrent(k); OutOf(out) && LocksOk(out) && VirtualLaw(out) && !out.halted
    ensures var out := GetCurrent(k); out.mtxs == k.mtxs && out.virt == k.virt
  {
    TakeOut(k);
    GetCurrentPris(k);
    LawFrame(k, GetCurrent(k));
  }

  lemma CallLaw(k: KState, c: Call)
    requires Good(k) && VirtualLaw(k) && AllVirtual(k) && k.virt.order == TPRI && !c.ChgPri?
    ensures LocksOk(SyscallStep(k, c).k) && VirtualLaw(SyscallStep(k, c).k)
  {
    OutLaw(k);
    var out := GetCurrent(k);
    DispatchLaw(out, c);
    DispatchOk(out, c);
    ScheduleLaw(Dispatch(out, c).k);
  }

  lemma ScheduleLaw(k: KState)
    requires AtRest(k) && LocksOk(k) && VirtualLaw(k)
    ensures LocksOk(Schedule(k)) && VirtualLaw(Schedule(k))
  {
    ScheduleLocks(k);
    SchedulePris(k);
    LawFrame(k, Schedule(k));
  }

  lemma RoundRobinLaw(k: KState)
    requires Good(k) && VirtualLaw(k)
    ensures LocksOk(RoundRobin(k)) && VirtualLaw(RoundRobin(k))
  {
    ExpiryKeepsGood(k);
    TakeOut(k);
    var out := GetCurrent(k);
    GetCurrentPris(k);
    PutCurrentRests(out);
    PutCurrentPris(out);
    SchedulePris(PutCurrent(out));
    SamePrisTrans(k, out, PutCurrent(out));
    SamePrisTrans(k, PutCurrent(out), RoundRobin(k));
    LawFrame(k, RoundRobin(k));
  }

  lemma StepLaw(k: KState, step: Step)
    requires Good(k) && VirtualLaw(k) && AllVirtual(k) && k.virt.order == TPRI && KeepsPriorities(step)
    ensures LocksOk(StepTo(k, step)) && VirtualLaw(StepTo(k, step))
  {
    match step
    case Syscall(c) => CallLaw(k, c);
    case RoundRobinExpiry => RoundRobinLaw(k);
  }

  /** With priority-ordered waiting, and as long as nobody sets priorities from outside: whatever the
      tasks lock, unlock, signal and wait for, the virtual owner runs at the best priority of itself
      and all waiters, and everybody else at their own. */
  lemma VirtualPriorityLaw(k: KState, steps: seq<Step>)
    requires Started(k) && AllVirtual(k) && k.virt.order == TPRI
    requires forall t | 0 <= t < |k.tasks| :: k.tasks[t].pri == k.tasks[t].initPri
    requires CallsOk(steps) && forall i | 0 <= i < |steps| :: KeepsPriorities(steps[i])
    ensures Good(k) && Run(k, steps).Some? && VirtualLaw(Run(k, steps).value)
  {
    StartedIsGood(k);
    RunLaw(k, steps);
  }

  lemma {:induction false} RunLaw(k: KState, steps: seq<Step>)
    requires Good(k) && VirtualLaw(k) && AllVirtual(k) && k.virt.order == TPRI
    requires CallsOk(steps) && forall i | 0 <= i < |steps| :: KeepsPriorities(steps[i])
    ensures Run(k, steps).Some? && VirtualLaw(Run(k, steps).value)
    decreases |steps|
  {
    RunVirtual(k, steps);
    if steps != [] {
      var last := |steps| - 1;
      RunLaw(k, steps[..last]);
      RunVirtual(k, steps[..last]);
      LawOn(k, Run(k, steps[..last]).value, steps[last]);
    }
  }

  lemma LawOn(k: KState, k1: KState, step: Step)
    requires k.virt.order == TPRI && SameSetup(k, k1) && LocksOk(k1) && VirtualLaw(k1) && AllVirtual(k1)
    requires (k1.halted || Good(k1)) && Next(k1, step).Some? && KeepsPriorities(step)
    ensures VirtualLaw(Next(k1, step).value)
  {
    if !k1.halted { StepLaw(k1, step); }
  }
}
