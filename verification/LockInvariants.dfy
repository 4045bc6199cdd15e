/** What every lock and unlock call keeps about mutexes, the virtual mutex and semaphores. */
module LockInvariants {
  import opened TaskQueues
  import opened Bitmaps
  import opened KernelState
  import opened KernelCalls
  import opened KernelRun

  // ---- The invariants --------------------------------------------------------------------------

  /** A mutex is free or held between once and maxlocks times; only a held mutex has waiters, and
      its owner, a started task, is not one of them.  Nobody queues on a VINHERIT mutex itself. */
  ghost predicate MtxOk(k: KState, m: nat)
    requires m < |k.mtxs| && MtxQ(m) in k.q
  {
    var mx, w := k.mtxs[m], k.q[MtxQ(m)];
    && mx.maxlocks >= 1
    && 0 <= mx.locks <= mx.maxlocks
    && (mx.owner == NO_OWNER <==> mx.locks == 0)
    && mx.value == (if mx.owner == NO_OWNER then 0 else 1)
    && (w != [] ==> mx.owner != NO_OWNER && mx.protocol != VINHERIT)
    && (forall i | 0 <= i < |w| :: w[i] != mx.owner)
    && (mx.owner != NO_OWNER ==> Awake(k, mx.owner))
  }

  predicate Awake(k: KState, t: int) {
    0 <= t < |k.tasks| && DORMANT !in k.tasks[t].state
  }

  function Counted(mx: Mutex): (r: nat) {
    if mx.protocol == VINHERIT && mx.owner != NO_OWNER then 1 else 0
  }

  /** The number of VINHERIT mutexes that have an owner. */
  function OwnedCount(mtxs: seq<Mutex>): (r: nat) {
    if mtxs == [] then 0 else OwnedCount(mtxs[..|mtxs| - 1]) + Counted(mtxs[|mtxs| - 1])
  }

  /** The virtual mutex counts the owned VINHERIT mutexes, and they all belong to its owner. */
  ghost predicate VirtOk(k: KState)
    requires VirtQ in k.q
  {
    var v, w := k.virt, k.q[VirtQ];
    && v.locks == OwnedCount(k.mtxs)
    && (v.owner == NO_OWNER <==> v.locks == 0)
    && v.value == (if v.owner == NO_OWNER then 0 else 1)
    && (forall m | 0 <= m < |k.mtxs| :: Counted(k.mtxs[m]) == 1 ==> k.mtxs[m].owner == v.owner)
    && (w != [] ==> v.owner != NO_OWNER)
    && (forall i | 0 <= i < |w| :: w[i] != v.owner)
    && (forall i {:trigger w[i]} | 0 <= i < |w| :: w[i] < |k.tasks| && k.tasks[w[i]].wobj.OnMutex? &&
          k.tasks[w[i]].wobj.m < |k.mtxs| && k.mtxs[k.tasks[w[i]].wobj.m].protocol == VINHERIT)
  }

  /** Tasks wait for a semaphore only while its value is 0. */
  ghost predicate SemOk(k: KState, s: nat)
    requires s < |k.sems| && SemQ(s) in k.q
  {
    && 1 <= k.sems[s].max
    && 0 <= k.sems[s].value <= k.sems[s].max
    && (k.q[SemQ(s)] != [] ==> k.sems[s].value == 0)
  }

  ghost predicate LocksOk(k: KState) {
    && (forall id :: id in k.q <==> ValidQ(|k.sems|, |k.mtxs|, id))
    && (forall m | 0 <= m < |k.mtxs| :: MtxOk(k, m))
    && VirtOk(k)
    && (forall s | 0 <= s < |k.sems| :: SemOk(k, s))
  }

  /** No mutex uses the immediate-highest-locker protocol. */
  predicate NoHighLocker(k: KState) {
    forall m | 0 <= m < |k.mtxs| :: k.mtxs[m].protocol != IMHIGHLOC
  }

  // ---- Steps that do not touch locks -----------------------------------------------------------

  /** k' differs from k at most in ready queues, state words, priorities and current. */
  ghost predicate SameLocks(k: KState, k': KState) {
    && k'.mtxs == k.mtxs && k'.virt == k.virt && k'.sems == k.sems && k'.high == k.high
    && k'.halted == k.halted && k'.ids == k.ids
    && k'.q.Keys == k.q.Keys
    && (forall id | id in k.q && !id.ReadyQ? :: k'.q[id] == k.q[id])
    && |k'.tasks| == |k.tasks|
    && (forall t | 0 <= t < |k.tasks| :: SameRecord(k.tasks[t], k'.tasks[t]))
  }

  predicate SameRecord(tk: Task, tk': Task) {
    tk'.wobj == tk.wobj && tk'.initPri == tk.initPri && (DORMANT in tk'.state ==> DORMANT in tk.state)
  }

  lemma SameTrans(k1: KState, k2: KState, k3: KState)
    requires SameLocks(k1, k2) && SameLocks(k2, k3)
    ensures SameLocks(k1, k3)
  {
    forall t | 0 <= t < |k1.tasks| ensures SameRecord(k1.tasks[t], k3.tasks[t]) {
      assert SameRecord(k1.tasks[t], k2.tasks[t]);
    }
  }

  lemma SameLocksOk(k: KState, k': KState)
    requires LocksOk(k) && SameLocks(k, k')
    ensures LocksOk(k')
  {
    forall m | 0 <= m < |k'.mtxs| ensures MtxOk(k', m) { assert MtxOk(k, m); }
    forall s | 0 <= s < |k'.sems| ensures SemOk(k', s) { assert SemOk(k, s); }
  }

  lemma PutCurrentSame(k: KState)
    requires OutOf(k)
    ensures SameLocks(k, PutCurrent(k))
  {
  }

  lemma GetCurrentSame(k: KState)
    requires Runnable(k)
    ensures SameLocks(k, GetCurrent(k))
  {
  }

  lemma SetPriSame(k: KState, t: nat, p: int)
    requires WF(k) && t < |k.tasks| && READY !in k.tasks[t].state && PriInRange(p)
    ensures SameLocks(k, SetPri(k, t, p))
  {
  }

  lemma MoveReadySame(k: KState, t: nat, p: int)
    requires WF(k) && t < |k.tasks| && k.tasks[t].state == {READY} && PriInRange(p)
    ensures SameLocks(k, MoveReady(k, t, p))
  {
    MoveReadyTasks(k, t, p);
    MoveReadyQueues(k, t, p);
  }

  lemma MoveReadyQueues(k: KState, t: nat, p: int)
    requires WF(k) && t < |k.tasks| && k.tasks[t].state == {READY} && PriInRange(p)
    ensures var k' := MoveReady(k, t, p);
            && k' == k.(tasks := k'.tasks, q := k'.q, cur := k'.cur, initQue := k'.initQue)
            && k'.q.Keys == k.q.Keys
            && (forall id | id in k.q && !id.ReadyQ? :: k'.q[id] == k.q[id])
  {
  }

  lemma IchgPriSame(k: KState, t: nat, p: int)
    requires OutOf(k) && t < |k.tasks| && p != PRIORITY_NUM
    ensures SameLocks(k, IchgPri(k, t, p)) && IchgPri(k, t, p).cur == k.cur
  {
    if PriInRange(p) && READY in k.tasks[t].state { MoveReadySame(k, t, p); }
  }

  lemma BoostSame(k: KState, owner: nat)
    requires OutOf(k) && owner < |k.tasks|
    ensures SameLocks(k, BoostOwner(k, owner)) && BoostOwner(k, owner).cur == k.cur
  {
    IchgPriSame(k, owner, k.tasks[k.cur].pri);
  }

  lemma RestoreSame(k: KState)
    requires OutOf(k)
    ensures SameLocks(k, RestorePri(k)) && RestorePri(k).cur == k.cur
  {
    IchgPriSame(k, k.cur, k.tasks[k.cur].initPri);
  }

  /** A task that no queue holds. */
  lemma OutOfNoQueue(k: KState, id: QueueId)
    requires OutOf(k) && id in k.q
    ensures k.cur !in k.q[id]
  {
    assert QueueOk(k.tasks, k.q[id], id);
  }

  // ---- Counting --------------------------------------------------------------------------------

  lemma {:induction false} CountUpdate(mtxs: seq<Mutex>, m: nat, mx: Mutex)
    requires m < |mtxs|
    ensures OwnedCount(mtxs[m := mx]) == OwnedCount(mtxs) - Counted(mtxs[m]) + Counted(mx)
    ensures OwnedCount(mtxs) >= Counted(mtxs[m])
  {
    var n := |mtxs| - 1;
    if m == n {
      assert mtxs[m := mx][..n] == mtxs[..n];
    } else {
      CountUpdate(mtxs[..n], m, mx);
      assert mtxs[m := mx][..n] == mtxs[..n][m := mx];
    }
  }

  lemma {:induction false} CountZero(mtxs: seq<Mutex>)
    ensures OwnedCount(mtxs) == 0 <==> forall m | 0 <= m < |mtxs| :: Counted(mtxs[m]) == 0
  {
    if mtxs != [] {
      var n := |mtxs| - 1;
      CountZero(mtxs[..n]);
      assert mtxs == mtxs[..n] + [mtxs[n]];
    }
  }

  /** If the count is one and m is counted, m is the only one. */
  lemma CountOne(mtxs: seq<Mutex>, m: nat)
    requires m < |mtxs| && OwnedCount(mtxs) == 1 && Counted(mtxs[m]) == 1
    ensures forall i | 0 <= i < |mtxs| && i != m :: Counted(mtxs[i]) == 0
  {
    var mx := Free(mtxs[m]);
    CountUpdate(mtxs, m, mx);
    CountZero(mtxs[m := mx]);
    forall i | 0 <= i < |mtxs| && i != m ensures Counted(mtxs[i]) == 0 {
      assert mtxs[m := mx][i] == mtxs[i];
    }
  }

  // ---- One mutex changes -----------------------------------------------------------------------

  /** Replace one mutex by an acceptable one that counts as owned just as it did, by the same task. */
  lemma SetMtxOk(k: KState, m: nat, mx: Mutex)
    requires LocksOk(k) && m < |k.mtxs|
    requires mx.protocol == k.mtxs[m].protocol
    requires Counted(mx) == Counted(k.mtxs[m])
    requires Counted(mx) == 1 ==> mx.owner == k.mtxs[m].owner
    requires MtxOk(SetMtx(k, m, mx), m)
    ensures LocksOk(SetMtx(k, m, mx))
  {
    var k' := SetMtx(k, m, mx);
    CountUpdate(k.mtxs, m, mx);
    forall i | 0 <= i < |k'.mtxs| ensures MtxOk(k', i) { assert MtxOk(k, i); }
    forall s | 0 <= s < |k'.sems| ensures SemOk(k', s) { assert SemOk(k, s); }
  }

  lemma LocMultiplOk(k: KState, m: nat)
    requires OutOf(k) && LocksOk(k) && m < |k.mtxs| && k.mtxs[m].owner != NO_OWNER
    ensures LocksOk(LocMultipl(k, m).k) && LocMultipl(k, m).k.halted == k.halted
    ensures LocMultipl(k, m).k.high == k.high
  {
    PutCurrentSame(k);
    PutCurrentRests(k);
    SameLocksOk(k, PutCurrent(k));
    assert MtxOk(k, m);
    if k.mtxs[m].maxlocks > k.mtxs[m].locks {
      SetMtxOk(PutCurrent(k), m, k.mtxs[m].(locks := k.mtxs[m].locks + 1));
    }
  }

  lemma NotLockFirstOk(k: KState, m: nat)
    requires OutOf(k) && LocksOk(k) && m < |k.mtxs|
    ensures LocksOk(NotLockFirst(k, m).k) && NotLockFirst(k, m).k.halted == k.halted
    ensures NotLockFirst(k, m).k.high == k.high
  {
    PutCurrentSame(k);
    PutCurrentRests(k);
    SameLocksOk(k, PutCurrent(k));
    assert MtxOk(k, m);
    if k.mtxs[m].locks > 1 {
      SetMtxOk(PutCurrent(k), m, k.mtxs[m].(locks := k.mtxs[m].locks - 1));
    }
  }

  // ---- Plain and inheriting mutexes ------------------------------------------------------------

  lemma LocFirstOk(k: KState, m: nat)
    requires OutOf(k) && LocksOk(k) && m < |k.mtxs|
    requires k.mtxs[m].owner == NO_OWNER && k.mtxs[m].protocol != VINHERIT
    ensures LocksOk(LocFirst(k, m)) && LocFirst(k, m).halted == k.halted
    ensures LocFirst(k, m).high == k.high
  {
    PutCurrentSame(k);
    PutCurrentRests(k);
    SameLocksOk(k, PutCurrent(k));
    assert MtxOk(k, m);
    SetMtxOk(PutCurrent(k), m, k.mtxs[m].(value := 1, locks := 1, owner := k.cur));
  }

  lemma WaitMtxOk(k: KState, m: nat)
    requires OutOf(k) && LocksOk(k) && m < |k.mtxs|
    requires k.mtxs[m].owner != NO_OWNER && k.mtxs[m].owner != k.cur && k.mtxs[m].protocol != VINHERIT
    ensures LocksOk(WaitMtx(k, m)) && WaitMtx(k, m).halted == k.halted
    ensures WaitMtx(k, m).high == k.high
  {
    var k' := WaitMtx(k, m);
    OutOfNoQueue(k, VirtQ);
    forall i | 0 <= i < |k'.mtxs| ensures MtxOk(k', i) { assert MtxOk(k, i); }
    forall s | 0 <= s < |k'.sems| ensures SemOk(k', s) { assert SemOk(k, s); }
    assert VirtOk(k);
  }

  lemma ReleaseOk(k: KState, m: nat)
    requires OutOf(k) && LocksOk(k) && m < |k.mtxs|
    requires k.mtxs[m].owner == k.cur && k.mtxs[m].locks == 1 && k.mtxs[m].protocol != VINHERIT
    ensures LocksOk(Release(k, m)) && Release(k, m).halted == k.halted
    ensures Release(k, m).high == k.high
  {
    PutCurrentSame(k);
    PutCurrentRests(k);
    var k1 := PutCurrent(k);
    SameLocksOk(k, k1);
    assert MtxOk(k1, m);
    if k.q[MtxQ(m)] != [] {
      PutMtxWaitOk(k1, m);
    } else {
      SetMtxOk(k1, m, k1.mtxs[m].(value := 0, locks := 0, owner := NO_OWNER));
    }
  }

  /** Waking a waiter takes it out of one wait queue and changes no lock. */
  lemma WakeFrame(k: KState, id: QueueId, order: Order)
    requires AtRest(k) && id in k.q && !id.ReadyQ? && k.q[id] != []
    ensures QueueOk(k.tasks, k.q[id], id)
    ensures var k1, i := Wake(k, id, order), Pick(k.tasks, order, k.q[id]);
            && k1.cur == k.q[id][i]
            && k1 == k.(q := k.q[id := Without(k.q[id], i)], tasks := k1.tasks, cur := k1.cur)
            && (forall t | 0 <= t < |k.tasks| && t != k1.cur :: k1.tasks[t] == k.tasks[t])
            && k1.cur !in k1.q[id]
    ensures Wake(k, id, order).q.Keys == k.q.Keys
  {
    assert QueueOk(k.tasks, k.q[id], id);
    OutOfNoQueue(Wake(k, id, order), id);
  }

  /** k' is k with one waiter taken out of wait queue id and made current; ready queues, state words
      and priorities may differ. */
  ghost predicate OneWoken(k: KState, id: QueueId, order: Order, k': KState)
    requires WF(k) && id in k.q && k.q[id] != []
    requires forall i | 0 <= i < |k.q[id]| :: k.q[id][i] < |k.tasks|
  {
    var i := Pick(k.tasks, order, k.q[id]);
    && k'.cur == k.q[id][i]
    && k'.virt == k.virt && k'.sems == k.sems && k'.high == k.high && k'.halted == k.halted
    && k'.mtxs == k.mtxs && |k'.tasks| == |k.tasks| && k'.q.Keys == k.q.Keys
    && k'.q[id] == Without(k.q[id], i)
    && (forall id' | id' in k.q && id' != id && !id'.ReadyQ? :: k'.q[id'] == k.q[id'])
    && (forall t | 0 <= t < |k.tasks| && t != k'.cur :: SameRecord(k.tasks[t], k'.tasks[t]))
    && (forall id' | id' in k.q && !id'.ReadyQ? :: k'.cur !in k'.q[id'])
    && Awake(k', k'.cur)
  }

  lemma WakePut(k: KState, id: QueueId, order: Order)
    requires AtRest(k) && id in k.q && !id.ReadyQ? && k.q[id] != []
    ensures forall i | 0 <= i < |k.q[id]| :: k.q[id][i] < |k.tasks|
    ensures OneWoken(k, id, order, Wake(k, id, order))
    ensures OneWoken(k, id, order, PutCurrent(Wake(k, id, order)))
  {
    assert QueueOk(k.tasks, k.q[id], id);
    WakeFrame(k, id, order);
    var k1 := Wake(k, id, order);
    forall id' | id' in k.q && !id'.ReadyQ? ensures k1.cur !in k1.q[id'] { OutOfNoQueue(k1, id'); }
    PutCurrentSame(k1);
  }

  lemma PutMtxWaitOk(k: KState, m: nat)
    requires AtRest(k) && LocksOk(k) && m < |k.mtxs| && k.q[MtxQ(m)] != []
    ensures LocksOk(PutMtxWait(k, m)) && PutMtxWait(k, m).halted == k.halted
    ensures PutMtxWait(k, m).high == k.high
  {
    WakePut(k, MtxQ(m), k.mtxs[m].order);
    var k2 := PutCurrent(Wake(k, MtxQ(m), k.mtxs[m].order));
    assert MtxOk(k, m);
    OneWokenKeeps(k, MtxQ(m), k.mtxs[m].order, k2);
    SetOwnerOk(k2, m, k2.cur);
  }

  lemma OneWokenKeeps(k: KState, id: QueueId, order: Order, k': KState)
    requires WF(k) && LocksOk(k) && id in k.q && k.q[id] != [] && id != VirtQ && !id.ReadyQ?
    requires forall i | 0 <= i < |k.q[id]| :: k.q[id][i] < |k.tasks|
    requires OneWoken(k, id, order, k')
    ensures LocksOk(k')
  {
    forall m | 0 <= m < |k'.mtxs| ensures MtxOk(k', m) { assert MtxOk(k, m); }
    forall s | 0 <= s < |k'.sems| ensures SemOk(k', s) { assert SemOk(k, s); }
    assert VirtOk(k);
    assert k'.q[VirtQ] == k.q[VirtQ];
    assert k'.cur !in k'.q[VirtQ];
  }

  lemma SetOwnerOk(k: KState, m: nat, t: nat)
    requires LocksOk(k) && m < |k.mtxs| && k.mtxs[m].owner != NO_OWNER
    requires k.mtxs[m].protocol != VINHERIT && t !in k.q[MtxQ(m)] && Awake(k, t)
    ensures LocksOk(SetMtx(k, m, k.mtxs[m].(owner := t)))
  {
    assert MtxOk(k, m);
    SetMtxOk(k, m, k.mtxs[m].(owner := t));
  }

  lemma LocVoidOk(k: KState, m: nat)
    requires OutOf(k) && LocksOk(k) && m < |k.mtxs| && k.mtxs[m].protocol == VOIDPCL
    ensures LocksOk(LocVoid(k, m).k) && LocVoid(k, m).k.halted == k.halted
    ensures LocVoid(k, m).k.high == k.high
  {
    var owner := k.mtxs[m].owner;
    if owner == NO_OWNER { LocFirstOk(k, m); }
    else if owner == k.cur { LocMultiplOk(k, m); }
    else { WaitMtxOk(k, m); }
  }

  lemma LocInherOk(k: KState, m: nat)
    requires OutOf(k) && LocksOk(k) && m < |k.mtxs| && k.mtxs[m].protocol == INHERIT
    ensures LocksOk(LocInher(k, m).k) && LocInher(k, m).k.halted == k.halted
    ensures LocInher(k, m).k.high == k.high
  {
    var owner := k.mtxs[m].owner;
    if owner == NO_OWNER { LocFirstOk(k, m); }
    else if owner == k.cur { LocMultiplOk(k, m); }
    else {
      BoostSame(k, owner);
      SameLocksOk(k, BoostOwner(k, owner));
      WaitMtxOk(BoostOwner(k, owner), m);
    }
  }

  lemma UnlVoidOk(k: KState, m: nat)
    requires OutOf(k) && LocksOk(k) && m < |k.mtxs| && k.mtxs[m].protocol == VOIDPCL
    ensures LocksOk(UnlVoid(k, m).k) && UnlVoid(k, m).k.halted == k.halted
    ensures UnlVoid(k, m).k.high == k.high
  {
    PutCurrentSame(k);
    SameLocksOk(k, PutCurrent(k));
    if k.mtxs[m].owner == k.cur {
      if k.mtxs[m].locks == 1 { ReleaseOk(k, m); } else { NotLockFirstOk(k, m); }
    }
  }

  lemma UnlInherOk(k: KState, m: nat)
    requires OutOf(k) && LocksOk(k) && m < |k.mtxs| && k.mtxs[m].protocol == INHERIT
    ensures LocksOk(UnlInher(k, m).k) && UnlInher(k, m).k.halted == k.halted
    ensures UnlInher(k, m).k.high == k.high
  {
    PutCurrentSame(k);
    SameLocksOk(k, PutCurrent(k));
    if k.mtxs[m].owner == k.cur {
      if k.mtxs[m].locks == 1 {
        RestoreSame(k);
        SameLocksOk(k, RestorePri(k));
        ReleaseOk(RestorePri(k), m);
      } else { NotLockFirstOk(k, m); }
    }
  }

  // ---- Immediate highest locker ----------------------------------------------------------------

  lemma LocImHighOk(k: KState, m: nat)
    requires OutOf(k) && LocksOk(k) && m < |k.mtxs| && !k.halted
    requires k.mtxs[m].protocol == IMHIGHLOC && !Relists(k, m)
    ensures LocksOk(LocImHigh(k, m).k) && !LocImHigh(k, m).k.halted
  {
    var owner := k.mtxs[m].owner;
    if owner == NO_OWNER {
      if k.tasks[k.cur].pri > k.mtxs[m].ceiling { RaiseOk(k, m); } else { LocFirstOk(k, m); }
    }
    else if owner == k.cur { LocMultiplOk(k, m); }
    else { WaitMtxOk(k, m); }
  }

  lemma RaiseOk(k: KState, m: nat)
    requires OutOf(k) && LocksOk(k) && m < |k.mtxs| && !k.halted
    requires k.mtxs[m].protocol == IMHIGHLOC
    requires k.mtxs[m].owner == NO_OWNER && m !in k.high && k.tasks[k.cur].pri > k.mtxs[m].ceiling
    ensures LocksOk(LocImHigh(k, m).k) && !LocImHigh(k, m).k.halted
  {
    var k1 := PutHigh(k, m);
    HighFrame(k, k1.high);
    assert RecordOk(|k.mtxs|, k.tasks[k.cur]);
    IchgPriSame(k1, k.cur, k.mtxs[m].ceiling);
    IchgPriOutOf(k1, k.cur, k.mtxs[m].ceiling);
    SameLocksOk(k1, IchgPri(k1, k.cur, k.mtxs[m].ceiling));
    LocFirstOk(IchgPri(k1, k.cur, k.mtxs[m].ceiling), m);
  }

  lemma HighFrame(k: KState, high: seq<nat>)
    requires LocksOk(k)
    ensures LocksOk(k.(high := high))
  {
    var k' := k.(high := high);
    forall m | 0 <= m < |k'.mtxs| ensures MtxOk(k', m) { assert MtxOk(k, m); }
    forall s | 0 <= s < |k'.sems| ensures SemOk(k', s) { assert SemOk(k, s); }
  }

  lemma UnlImHighOk(k: KState, m: nat)
    requires OutOf(k) && LocksOk(k) && m < |k.mtxs| && !k.halted && k.mtxs[m].protocol == IMHIGHLOC
    ensures LocksOk(UnlImHigh(k, m).k) && !UnlImHigh(k, m).k.halted
  {
    PutCurrentSame(k);
    SameLocksOk(k, PutCurrent(k));
    if k.mtxs[m].owner == k.cur {
      if k.mtxs[m].locks == 1 {
        LowerOk(k, m);
        ReleaseOk(LowerHigh(k, m), m);
      } else { NotLockFirstOk(k, m); }
    }
  }

  lemma LowerOk(k: KState, m: nat)
    requires OutOf(k) && LocksOk(k) && m < |k.mtxs|
    ensures var k' := LowerHigh(k, m);
            LocksOk(k') && k'.halted == k.halted && k'.mtxs == k.mtxs && k'.cur == k.cur
  {
    if k.tasks[k.cur].pri != k.tasks[k.cur].initPri {
      var k1 := k.(high := Unlist(k.high, m));
      var p := ListedPri(k1, k.cur, k1.high);
      ListedPriBound(k1, k.cur, k1.high);
      HighFrame(k, k1.high);
      IchgPriSame(k1, k.cur, p);
      SameLocksOk(k1, IchgPri(k1, k.cur, p));
    }
  }

  // ---- Virtual priority inheritance ------------------------------------------------------------

  /** Taking a free VINHERIT mutex counts it, whether or not the virtual mutex was free. */
  lemma LocFirstVirtualOk(k: KState, m: nat)
    requires OutOf(k) && LocksOk(k) && m < |k.mtxs|
    requires k.mtxs[m].owner == NO_OWNER && k.mtxs[m].protocol == VINHERIT
    requires k.virt.owner == NO_OWNER || k.virt.owner == k.cur
    ensures var v := k.virt.(value := 1, locks := k.virt.locks + 1, owner := k.cur);
            && LocksOk(LocFirst(k.(virt := v), m))
            && LocFirst(k.(virt := v), m).halted == k.halted
            && LocFirst(k.(virt := v), m).high == k.high
  {
    var k0 := k.(virt := k.virt.(value := 1, locks := k.virt.locks + 1, owner := k.cur));
    assert MtxOk(k, m);
    LocFirstEffect(k0, m);
    OutOfNoQueue(k, VirtQ);
    CountedVirtualOk(k, m, LocFirst(k0, m));
  }

  lemma CountedVirtualOk(k: KState, m: nat, k': KState)
    requires LocksOk(k) && m < |k.mtxs| && k.mtxs[m].owner == NO_OWNER && k.mtxs[m].protocol == VINHERIT
    requires k.virt.owner == NO_OWNER || k.virt.owner == k.cur
    requires k.cur !in k.q[VirtQ] && k'.cur == k.cur && Awake(k', k'.cur)
    requires k'.virt == k.virt.(value := 1, locks := k.virt.locks + 1, owner := k.cur)
    requires k'.mtxs == k.mtxs[m := k.mtxs[m].(value := 1, locks := 1, owner := k.cur)]
    requires SameLocks(k.(mtxs := k'.mtxs, virt := k'.virt), k')
    ensures LocksOk(k')
  {
    assert MtxOk(k, m) && VirtOk(k);
    CountUpdate(k.mtxs, m, k'.mtxs[m]);
    CountZero(k.mtxs);
    forall i | 0 <= i < |k'.mtxs| ensures MtxOk(k', i) { assert MtxOk(k, i); }
    forall s | 0 <= s < |k'.sems| ensures SemOk(k', s) { assert SemOk(k, s); }
  }

  lemma WaitVirtualOk(k: KState, m: nat)
    requires OutOf(k) && LocksOk(k) && m < |k.mtxs| && k.mtxs[m].protocol == VINHERIT
    requires k.virt.owner != NO_OWNER && k.virt.owner != k.cur
    ensures var k' := WaitOn(k, VirtQ, WAIT_VIRTUAL_MUTEX, OnMutex(m));
            LocksOk(k') && k'.halted == k.halted && k'.high == k.high
  {
    var k' := WaitOn(k, VirtQ, WAIT_VIRTUAL_MUTEX, OnMutex(m));
    OutOfNoQueue(k, VirtQ);
    assert VirtOk(k);
    forall i | 0 <= i < |k'.mtxs| ensures MtxOk(k', i) { assert MtxOk(k, i); }
    forall s | 0 <= s < |k'.sems| ensures SemOk(k', s) { assert SemOk(k, s); }
  }

  lemma LocVinherOk(k: KState, m: nat)
    requires OutOf(k) && LocksOk(k) && m < |k.mtxs| && k.mtxs[m].protocol == VINHERIT
    requires !k.halted
    ensures LocksOk(LocVinher(k, m).k) && !LocVinher(k, m).k.halted
    ensures LocVinher(k, m).k.high == k.high
  {
    hide LocFirst;
    assert MtxOk(k, m) && VirtOk(k);
    if k.virt.owner == NO_OWNER {
      CountZero(k.mtxs);
      LocFirstVirtualOk(k, m);
    } else if k.virt.owner != k.cur {
      BoostSame(k, k.virt.owner);
      SameLocksOk(k, BoostOwner(k, k.virt.owner));
      WaitVirtualOk(BoostOwner(k, k.virt.owner), m);
    } else if k.mtxs[m].owner != NO_OWNER {
      LocMultiplOk(k, m);
    } else {
      LocFirstVirtualOk(k, m);
    }
  }

  /** Both mutexes of a hand-over: the released one is free unless it is the one asked for. */
  lemma HandOverCount(mtxs: seq<Mutex>, m: nat, w: nat, after: seq<Mutex>)
    requires m < |mtxs| && w < |mtxs| && OwnedCount(mtxs) == 1 && Counted(mtxs[m]) == 1
    requires mtxs[w].protocol == VINHERIT && |after| == |mtxs|
    requires forall i | 0 <= i < |mtxs| && i != m && i != w :: after[i] == mtxs[i]
    requires Counted(after[w]) == 1 && (w != m ==> Counted(after[m]) == 0)
    ensures OwnedCount(after) == 1
    ensures forall i | 0 <= i < |after| && i != w :: Counted(after[i]) == 0
  {
    CountOne(mtxs, m);
    var cleared := after[w := Free(after[w])];
    assert forall i | 0 <= i < |cleared| :: Counted(cleared[i]) == 0;
    CountZero(cleared);
    CountUpdate(after, w, Free(after[w]));
  }

  lemma PutVirtualWaitOk(k: KState, m: nat)
    requires AtRest(k) && LocksOk(k) && m < |k.mtxs| && k.q[VirtQ] != [] && !k.halted
    requires k.virt.locks == 1 && k.mtxs[m].locks == 1 && k.mtxs[m].protocol == VINHERIT
    ensures LocksOk(PutVirtualWait(k, m)) && !PutVirtualWait(k, m).halted
    ensures PutVirtualWait(k, m).high == k.high
  {
    hide WF;
    WakePut(k, VirtQ, k.virt.order);
    var k1 := Wake(k, VirtQ, k.virt.order);
    var w := WokenWants(k);
    WantsVirtual(k);
    var k2 := HandOver(k1, w, m);
    LocFirstEffect(k2, w);
    OneWokenStays(k, VirtQ, k.virt.order, k1, LocFirst(k2, w));
    LocFirstHandedOver(k, m, w, LocFirst(k2, w));
  }

  lemma WantsVirtual(k: KState)
    requires AtRest(k) && LocksOk(k) && k.q[VirtQ] != []
    ensures k.mtxs[WokenWants(k)].protocol == VINHERIT
  {
    assert VirtOk(k) && QueueOk(k.tasks, k.q[VirtQ], VirtQ);
  }

  /** A first lock writes one control block and puts current back. */
  lemma LocFirstEffect(k: KState, m: nat)
    requires OutOf(k) && m < |k.mtxs| && k.mtxs[m].value == 0
    ensures var k', mx := LocFirst(k, m), k.mtxs[m];
            && k'.mtxs == k.mtxs[m := mx.(value := 1, locks := mx.locks + 1, owner := k.cur)]
            && SameLocks(k.(mtxs := k'.mtxs), k')
            && k'.cur == k.cur && Awake(k', k'.cur)
  {
    PutCurrentSame(k);
  }

  lemma OneWokenStays(k: KState, id: QueueId, order: Order, k1: KState, k2: KState)
    requires WF(k) && id in k.q && k.q[id] != [] && !id.ReadyQ?
    requires forall i | 0 <= i < |k.q[id]| :: k.q[id][i] < |k.tasks|
    requires OneWoken(k, id, order, k1) && k2.cur == k1.cur
    requires SameLocks(k1.(virt := k2.virt, mtxs := k2.mtxs), k2)
    ensures OneWoken(k, id, order, k2.(virt := k.virt, mtxs := k.mtxs))
  {
  }

  lemma LocFirstHandedOver(k: KState, m: nat, w: nat, k': KState)
    requires AtRest(k) && LocksOk(k) && m < |k.mtxs| && k.q[VirtQ] != []
    requires k.virt.locks == 1 && k.mtxs[m].locks == 1 && k.mtxs[m].protocol == VINHERIT
    requires w < |k.mtxs| && k.mtxs[w].protocol == VINHERIT
    requires forall i | 0 <= i < |k.q[VirtQ]| :: k.q[VirtQ][i] < |k.tasks|
    requires OneWoken(k, VirtQ, k.virt.order, k'.(virt := k.virt, mtxs := k.mtxs))
    requires k'.virt == k.virt.(owner := k'.cur) && |k'.mtxs| == |k.mtxs| && k'.cur < |k'.tasks|
    requires k'.mtxs[w] == k.mtxs[w].(value := 1, locks := 1, owner := k'.cur)
    requires w != m ==> k'.mtxs[m] == Free(k.mtxs[m])
    requires forall i | 0 <= i < |k.mtxs| && i != m && i != w :: k'.mtxs[i] == k.mtxs[i]
    ensures LocksOk(k')
  {
    assert MtxOk(k, m) && MtxOk(k, w) && VirtOk(k);
    OneVirtualWaiter(k, m, w);
    HandOverCount(k.mtxs, m, w, k'.mtxs);
    forall j | 0 <= j < |k'.mtxs| ensures MtxOk(k', j) {
      assert MtxOk(k, j);
      assert k'.q[MtxQ(j)] == k.q[MtxQ(j)];
    }
    forall s | 0 <= s < |k'.sems| ensures SemOk(k', s) { assert SemOk(k, s); }
    HandOverVirtOk(k, k');
  }

  /** At a hand-over the mutex asked for is the released one or is free. */
  lemma OneVirtualWaiter(k: KState, m: nat, w: nat)
    requires LocksOk(k) && m < |k.mtxs| && w < |k.mtxs|
    requires k.virt.locks == 1 && k.mtxs[m].locks == 1
    requires k.mtxs[m].protocol == VINHERIT && k.mtxs[w].protocol == VINHERIT
    ensures w != m ==> k.mtxs[w].owner == NO_OWNER
  {
    assert MtxOk(k, m);
    CountOne(k.mtxs, m);
  }

  lemma HandOverVirtOk(k: KState, k': KState)
    requires AtRest(k) && LocksOk(k) && k.q[VirtQ] != [] && k.virt.locks == 1
    requires forall i | 0 <= i < |k.q[VirtQ]| :: k.q[VirtQ][i] < |k.tasks|
    requires OneWoken(k, VirtQ, k.virt.order, k'.(virt := k.virt, mtxs := k.mtxs))
    requires k'.virt == k.virt.(owner := k'.cur) && k'.cur < |k'.tasks|
    requires |k'.mtxs| == |k.mtxs| && OwnedCount(k'.mtxs) == 1
    requires forall j | 0 <= j < |k.mtxs| :: k'.mtxs[j].protocol == k.mtxs[j].protocol
    requires forall j | 0 <= j < |k.mtxs| :: Counted(k'.mtxs[j]) == 1 ==> k'.mtxs[j].owner == k'.virt.owner
    ensures VirtOk(k')
  {
    assert VirtOk(k);
    var i0 := Pick(k.tasks, k.virt.order, k.q[VirtQ]);
    assert QueueOk(k.tasks, k.q[VirtQ], VirtQ);
    WithoutElements(k.q[VirtQ], i0);
    assert k'.q[VirtQ] == Without(k.q[VirtQ], i0);
    forall i | 0 <= i < |k'.q[VirtQ]|
      ensures var u := k'.q[VirtQ][i];
        && u != k'.virt.owner && u < |k'.tasks| && k'.tasks[u].wobj.OnMutex?
        && k'.tasks[u].wobj.m < |k'.mtxs| && k'.mtxs[k'.tasks[u].wobj.m].protocol == VINHERIT
    {
      var u := k'.q[VirtQ][i];
      assert u in k'.q[VirtQ];
      var j :| 0 <= j < |k.q[VirtQ]| && k.q[VirtQ][j] == u;
    }
  }

  lemma GiveUpBothOk(k: KState, m: nat)
    requires OutOf(k) && LocksOk(k) && m < |k.mtxs| && k.mtxs[m].protocol == VINHERIT && !k.halted
    requires k.virt.locks == 1 && k.mtxs[m].locks == 1
    ensures LocksOk(GiveUpBoth(k, m)) && !GiveUpBoth(k, m).halted && GiveUpBoth(k, m).high == k.high
  {
    RestoreSame(k);
    var k1 := RestorePri(k);
    PutCurrentSame(k1);
    PutCurrentRests(k1);
    SameLocksOk(k, k1);
    SameLocksOk(k1, PutCurrent(k1));
    if k.q[VirtQ] != [] { PutVirtualWaitOk(PutCurrent(k1), m); } else { ClearBothOk(PutCurrent(k1), m); }
  }

  lemma UnlVinherOk(k: KState, m: nat)
    requires OutOf(k) && LocksOk(k) && m < |k.mtxs| && k.mtxs[m].protocol == VINHERIT
    requires !k.halted
    ensures LocksOk(UnlVinher(k, m).k) && !UnlVinher(k, m).k.halted
    ensures UnlVinher(k, m).k.high == k.high
  {
    PutCurrentSame(k);
    PutCurrentRests(k);
    SameLocksOk(k, PutCurrent(k));
    if k.virt.owner == k.cur {
      if k.mtxs[m].locks != 1 {
        NotLockFirstOk(k, m);
      } else if k.virt.locks == 1 {
        GiveUpBothOk(k, m);
      } else {
        assert VirtOk(k);
        DropOneOk(PutCurrent(k), m);
      }
    }
  }

  lemma ClearBothOk(k: KState, m: nat)
    requires AtRest(k) && LocksOk(k) && m < |k.mtxs| && k.q[VirtQ] == []
    requires k.virt.locks == 1 && k.mtxs[m].locks == 1 && k.mtxs[m].protocol == VINHERIT
    ensures LocksOk(ClearOwnership(ClearVirtual(k), m))
  {
    assert MtxOk(k, m) && VirtOk(k);
    var k' := ClearOwnership(ClearVirtual(k), m);
    CountUpdate(k.mtxs, m, k'.mtxs[m]);
    CountZero(k'.mtxs);
    forall j | 0 <= j < |k'.mtxs| ensures MtxOk(k', j) { assert MtxOk(k, j); }
    forall s | 0 <= s < |k'.sems| ensures SemOk(k', s) { assert SemOk(k, s); }
  }

  lemma DropOneOk(k: KState, m: nat)
    requires AtRest(k) && LocksOk(k) && m < |k.mtxs|
    requires k.virt.locks > 1 && k.mtxs[m].locks == 1 && k.mtxs[m].protocol == VINHERIT
    ensures LocksOk(ClearOwnership(k.(virt := k.virt.(locks := k.virt.locks - 1)), m))
  {
    assert MtxOk(k, m) && VirtOk(k);
    var k' := ClearOwnership(k.(virt := k.virt.(locks := k.virt.locks - 1)), m);
    CountUpdate(k.mtxs, m, k'.mtxs[m]);
    forall j | 0 <= j < |k'.mtxs| ensures MtxOk(k', j) { assert MtxOk(k, j); }
    forall s | 0 <= s < |k'.sems| ensures SemOk(k', s) { assert SemOk(k, s); }
  }
}
