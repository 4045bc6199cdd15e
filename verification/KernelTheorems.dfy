/** Safety of whole runs of the kernel: every run of calls and time-slice expiries, in any order. */
module KernelTheorems {
  import opened Bitmaps
  import opened KernelState
  import opened KernelCalls
  import opened KernelRun
  import opened LockInvariants

  // ---- Semaphores ------------------------------------------------------------------------------

  lemma SetSemOk(k: KState, s: nat, sm: Semaphore)
    requires LocksOk(k) && s < |k.sems| && SemOk(SetSem(k, s, sm), s)
    ensures LocksOk(SetSem(k, s, sm))
  {
    var k' := SetSem(k, s, sm);
    forall m | 0 <= m < |k'.mtxs| ensures MtxOk(k', m) { assert MtxOk(k, m); }
    forall i | 0 <= i < |k'.sems| ensures SemOk(k', i) { assert SemOk(k, i); }
  }

  lemma WaitSemOk(k: KState, s: nat)
    requires OutOf(k) && LocksOk(k) && s < |k.sems| && k.sems[s].value < 1
    ensures LocksOk(WaitOn(k, SemQ(s), WAIT_SEMAPHORE, OnSemaphore(s)))
  {
    var k' := WaitOn(k, SemQ(s), WAIT_SEMAPHORE, OnSemaphore(s));
    assert SemOk(k, s) && VirtOk(k);
    OutOfNoQueue(k, VirtQ);
    forall m | 0 <= m < |k'.mtxs| ensures MtxOk(k', m) { assert MtxOk(k, m); }
    forall i | 0 <= i < |k'.sems| ensures SemOk(k', i) { assert SemOk(k, i); }
  }

  lemma WaiSemOk(k: KState, s: nat)
    requires OutOf(k) && LocksOk(k) && s < |k.sems|
    ensures var k' := KernelCalls.WaiSem(k, s).k; LocksOk(k') && k'.halted == k.halted && k'.high == k.high
  {
    PutCurrentSame(k);
    SameLocksOk(k, PutCurrent(k));
    assert SemOk(k, s);
    if k.sems[s].value >= 1 {
      assert SemOk(PutCurrent(k), s);
      SetSemOk(PutCurrent(k), s, k.sems[s].(value := k.sems[s].value - 1));
    } else {
      WaitSemOk(k, s);
    }
  }

  lemma PolSemOk(k: KState, s: nat)
    requires OutOf(k) && LocksOk(k) && s < |k.sems|
    ensures var k' := KernelCalls.PolSem(k, s).k; LocksOk(k') && k'.halted == k.halted && k'.high == k.high
  {
    PutCurrentSame(k);
    SameLocksOk(k, PutCurrent(k));
    assert SemOk(k, s);
    if k.sems[s].value >= 1 {
      assert SemOk(PutCurrent(k), s);
      SetSemOk(PutCurrent(k), s, k.sems[s].(value := k.sems[s].value - 1));
    }
  }

  lemma SigSemOk(k: KState, s: nat)
    requires OutOf(k) && LocksOk(k) && s < |k.sems|
    ensures var k' := KernelCalls.SigSem(k, s).k; LocksOk(k') && k'.halted == k.halted && k'.high == k.high
  {
    PutCurrentSame(k);
    PutCurrentRests(k);
    var k1 := PutCurrent(k);
    SameLocksOk(k, k1);
    assert SemOk(k, s);
    if k1.q[SemQ(s)] != [] {
      WakePut(k1, SemQ(s), k.sems[s].order);
      OneWokenKeeps(k1, SemQ(s), k.sems[s].order, PutCurrent(Wake(k1, SemQ(s), k.sems[s].order)));
    } else if k.sems[s].value == 0 || k.sems[s].value < k.sems[s].max {
      assert SemOk(k1, s);
      SetSemOk(k1, s, k.sems[s].(value := k.sems[s].value + 1));
    }
  }

  // ---- Every step ------------------------------------------------------------------------------

  /** What holds between steps. */
  ghost predicate Good(k: KState) {
    Runnable(k) && LocksOk(k)
  }

  lemma LocMtxCallOk(k: KState, m: nat)
    requires OutOf(k) && LocksOk(k) && !k.halted && Admits(k, LocMtx(m))
    ensures var k' := LocMtxCall(k, m).k; LocksOk(k') && !k'.halted
  {
    PutCurrentSame(k);
    SameLocksOk(k, PutCurrent(k));
    if Reaches(k, m) {
      match k.mtxs[m].protocol
      case VOIDPCL => LocVoidOk(k, m);
      case INHERIT => LocInherOk(k, m);
      case VINHERIT => LocVinherOk(k, m);
      case IMHIGHLOC => LocImHighOk(k, m);
    }
  }

  lemma UnlMtxCallOk(k: KState, m: nat)
    requires OutOf(k) && LocksOk(k) && !k.halted
    ensures var k' := UnlMtxCall(k, m).k; LocksOk(k') && !k'.halted
  {
    PutCurrentSame(k);
    SameLocksOk(k, PutCurrent(k));
    if Reaches(k, m) {
      match k.mtxs[m].protocol
      case VOIDPCL => UnlVoidOk(k, m);
      case INHERIT => UnlInherOk(k, m);
      case VINHERIT => UnlVinherOk(k, m);
      case IMHIGHLOC => UnlImHighOk(k, m);
    }
  }

  lemma ChgPriOk(k: KState, t: nat, p: int)
    requires OutOf(k) && LocksOk(k) && t < |k.tasks| && p != PRIORITY_NUM
    ensures SameLocks(k, KernelCalls.ChgPri(k, t, p).k) && LocksOk(KernelCalls.ChgPri(k, t, p).k)
  {
    PutCurrentSame(k);
    PutCurrentRests(k);
    var k' := KernelCalls.ChgPri(k, t, p).k;
    if PriInRange(p) && k.tasks[t].state != {DORMANT} {
      if t == k.cur {
        SetPriSame(k, t, p);
        SetPriOutOf(k, t, p);
        PutCurrentSame(SetPri(k, t, p));
        SameTrans(k, SetPri(k, t, p), k');
      } else if READY in k.tasks[t].state {
        MoveReadySame(PutCurrent(k), t, p);
        SameTrans(k, PutCurrent(k), k');
      } else {
        SetPriSame(PutCurrent(k), t, p);
        SameTrans(k, PutCurrent(k), k');
      }
    }
    SameLocksOk(k, k');
  }

  lemma StaTskOk(k: KState, t: nat)
    requires OutOf(k) && LocksOk(k) && t < |k.tasks|
    ensures SameLocks(k, KernelCalls.StaTsk(k, t).k) && LocksOk(KernelCalls.StaTsk(k, t).k)
  {
    hide LocksOk;
    PutCurrentSame(k);
    PutCurrentRests(k);
    var k1 := PutCurrent(k).(cur := t);
    if k1.tasks[t].state == {DORMANT} {
      var k2 := SetRecord(k1, t, WithState(k1.tasks[t], {}));
      PutCurrentSame(k2);
    }
    SameLocksOk(k, KernelCalls.StaTsk(k, t).k);
  }

  /** The calls that reach no mutex keep the lock invariants. */
  lemma OtherCallOk(k: KState, c: Call)
    requires OutOf(k) && LocksOk(k) && CallOk(c)
    requires (c.LocMtx? || c.UnlMtx?) ==> !Reaches(k, c.m)
    ensures var k' := Dispatch(k, c).k; LocksOk(k') && k'.halted == k.halted && k'.high == k.high
  {
    PutCurrentSame(k);
    SameLocksOk(k, PutCurrent(k));
    match c
    case LocMtx(m) =>
    case UnlMtx(m) =>
    case WaiSem(_) => SemCallOk(k, c);
    case PolSem(_) => SemCallOk(k, c);
    case SigSem(_) => SemCallOk(k, c);
    case ChgPri(t, p) => if t < |k.tasks| { ChgPriOk(k, t, p); }
    case StaTsk(t) => if t < |k.tasks| { StaTskOk(k, t); }
  }

  lemma SemCallOk(k: KState, c: Call)
    requires OutOf(k) && LocksOk(k) && (c.WaiSem? || c.PolSem? || c.SigSem?)
    ensures var k' := Dispatch(k, c).k; LocksOk(k') && k'.halted == k.halted && k'.high == k.high
  {
    if k.ids.sem <= c.s || |k.sems| <= c.s {
      PutCurrentSame(k);
      SameLocksOk(k, PutCurrent(k));
    }
    else if c.WaiSem? { WaiSemOk(k, c.s); }
    else if c.PolSem? { PolSemOk(k, c.s); }
    else { SigSemOk(k, c.s); }
  }

  lemma DispatchOk(k: KState, c: Call)
    requires OutOf(k) && LocksOk(k) && !k.halted && Admits(k, c)
    ensures var k' := Dispatch(k, c).k; LocksOk(k') && !k'.halted
  {
    if c.LocMtx? && Reaches(k, c.m) { LocMtxCallOk(k, c.m); }
    else if c.UnlMtx? && Reaches(k, c.m) { UnlMtxCallOk(k, c.m); }
    else { OtherCallOk(k, c); }
  }

  // ---- What no step changes --------------------------------------------------------------------

  /** The parts of the state that are fixed when the kernel starts. */
  ghost predicate SameSetup(k: KState, k': KState) {
    && |k'.tasks| == |k.tasks| && |k'.mtxs| == |k.mtxs| && |k'.sems| == |k.sems|
    && (forall t | 0 <= t < |k.tasks| :: k'.tasks[t].initPri == k.tasks[t].initPri)
    && (forall m | 0 <= m < |k.mtxs| :: SameKind(k.mtxs[m], k'.mtxs[m]))
    && (forall s | 0 <= s < |k.sems| :: k'.sems[s].order == k.sems[s].order && k'.sems[s].max == k.sems[s].max)
    && SameKind(k.virt, k'.virt)
    && k'.ids == k.ids
  }

  predicate SameKind(mx: Mutex, mx': Mutex) {
    mx'.protocol == mx.protocol && mx'.order == mx.order && mx'.maxlocks == mx.maxlocks && mx'.ceiling == mx.ceiling
  }

  lemma SetupTrans(k1: KState, k2: KState, k3: KState)
    requires SameSetup(k1, k2) && SameSetup(k2, k3)
    ensures SameSetup(k1, k3)
  {
    forall m | 0 <= m < |k1.mtxs| ensures SameKind(k1.mtxs[m], k3.mtxs[m]) {
      assert SameKind(k1.mtxs[m], k2.mtxs[m]);
    }
  }

  /** A step that touches no semaphore and no semaphore's queue. */
  ghost predicate MutexOnly(k: KState, k': KState) {
    && SameSetup(k, k')
    && k'.sems == k.sems
    && (forall s: nat | SemQ(s) in k.q :: SemQ(s) in k'.q && k'.q[SemQ(s)] == k.q[SemQ(s)])
  }

  lemma MutexTrans(k1: KState, k2: KState, k3: KState)
    requires MutexOnly(k1, k2) && MutexOnly(k2, k3)
    ensures MutexOnly(k1, k3)
  {
    SetupTrans(k1, k2, k3);
  }

  lemma PutCurrentSetup(k: KState)
    requires WF(k) && (READY in k.tasks[k.cur].state || k.tasks[k.cur].state == {})
    ensures MutexOnly(k, PutCurrent(k))
  {
  }

  lemma LocFirstSetup(k: KState, m: nat)
    requires OutOf(k) && m < |k.mtxs|
    ensures MutexOnly(k, LocFirst(k, m))
  {
    PutCurrentSetup(k);
  }

  lemma CountedSetup(k: KState, m: nat)
    requires OutOf(k) && m < |k.mtxs|
    ensures MutexOnly(k, LocMultipl(k, m).k) && MutexOnly(k, NotLockFirst(k, m).k)
  {
    PutCurrentSetup(k);
  }

  lemma WakeSetup(k: KState, id: QueueId, order: Order)
    requires AtRest(k) && id in k.q && !id.ReadyQ? && k.q[id] != []
    ensures SameSetup(k, Wake(k, id, order))
    ensures !id.SemQ? ==> MutexOnly(k, Wake(k, id, order))
  {
    assert QueueOk(k.tasks, k.q[id], id);
  }

  lemma PutMtxWaitSetup(k: KState, m: nat)
    requires AtRest(k) && m < |k.mtxs| && k.q[MtxQ(m)] != []
    ensures MutexOnly(k, PutMtxWait(k, m))
  {
    WakeSetup(k, MtxQ(m), k.mtxs[m].order);
    var k2 := Wake(k, MtxQ(m), k.mtxs[m].order);
    PutCurrentSetup(k2);
    MutexTrans(k, k2, PutCurrent(k2));
  }

  lemma ReleaseSetup(k: KState, m: nat)
    requires OutOf(k) && m < |k.mtxs|
    ensures MutexOnly(k, Release(k, m))
  {
    PutCurrentSetup(k);
    PutCurrentRests(k);
    if k.q[MtxQ(m)] != [] {
      PutMtxWaitSetup(PutCurrent(k), m);
      MutexTrans(k, PutCurrent(k), Release(k, m));
    }
  }

  lemma WaitOnSetup(k: KState, id: QueueId, b: StateBit, o: WaitObject)
    requires OutOf(k) && id in k.q
    requires o.OnMutex? ==> o.m < |k.mtxs|
    requires || (b == WAIT_SEMAPHORE && o.OnSemaphore? && id == SemQ(o.s))
             || (b == WAIT_MUTEX && o.OnMutex? && id == MtxQ(o.m))
             || (b == WAIT_VIRTUAL_MUTEX && o.OnMutex? && id == VirtQ)
    ensures SameSetup(k, WaitOn(k, id, b, o))
    ensures !id.SemQ? ==> MutexOnly(k, WaitOn(k, id, b, o))
  {
  }

  lemma BoostSetup(k: KState, owner: nat)
    requires OutOf(k) && owner < |k.tasks|
    ensures MutexOnly(k, BoostOwner(k, owner))
  {
    BoostSame(k, owner);
  }

  lemma RestoreSetup(k: KState)
    requires OutOf(k)
    ensures MutexOnly(k, RestorePri(k))
  {
    RestoreSame(k);
  }

  lemma IchgPriSetup(k: KState, t: nat, p: int)
    requires OutOf(k) && t < |k.tasks| && p != PRIORITY_NUM
    ensures MutexOnly(k, IchgPri(k, t, p))
  {
    IchgPriSame(k, t, p);
  }

  lemma LocVoidSetup(k: KState, m: nat)
    requires OutOf(k) && m < |k.mtxs|
    ensures MutexOnly(k, LocVoid(k, m).k)
  {
    CountedSetup(k, m);
    LocFirstSetup(k, m);
    WaitOnSetup(k, MtxQ(m), WAIT_MUTEX, OnMutex(m));
  }

  lemma LocInherSetup(k: KState, m: nat)
    requires OutOf(k) && m < |k.mtxs|
    ensures MutexOnly(k, LocInher(k, m).k)
  {
    var owner := k.mtxs[m].owner;
    if owner == NO_OWNER { LocFirstSetup(k, m); }
    else if owner == k.cur { CountedSetup(k, m); }
    else {
      var k1 := BoostOwner(k, owner);
      BoostSetup(k, owner);
      WaitOnSetup(k1, MtxQ(m), WAIT_MUTEX, OnMutex(m));
      MutexTrans(k, k1, WaitMtx(k1, m));
    }
  }

  lemma LocImHighSetup(k: KState, m: nat)
    requires OutOf(k) && m < |k.mtxs| && !Relists(k, m)
    ensures MutexOnly(k, LocImHigh(k, m).k)
  {
    var owner := k.mtxs[m].owner;
    if owner == k.cur { CountedSetup(k, m); }
    else if owner != NO_OWNER { WaitOnSetup(k, MtxQ(m), WAIT_MUTEX, OnMutex(m)); }
    else if k.tasks[k.cur].pri > k.mtxs[m].ceiling {
      var k1 := PutHigh(k, m);
      IchgPriSetup(k1, k.cur, k.mtxs[m].ceiling);
      IchgPriOutOf(k1, k.cur, k.mtxs[m].ceiling);
      var k2 := IchgPri(k1, k.cur, k.mtxs[m].ceiling);
      LocFirstSetup(k2, m);
      MutexTrans(k, k2, LocFirst(k2, m));
    } else { LocFirstSetup(k, m); }
  }

  lemma WaitVirtualSetup(k: KState, m: nat, owner: nat)
    requires OutOf(k) && m < |k.mtxs| && owner < |k.tasks|
    ensures MutexOnly(k, WaitOn(BoostOwner(k, owner), VirtQ, WAIT_VIRTUAL_MUTEX, OnMutex(m)))
  {
    var k1 := BoostOwner(k, owner);
    BoostSetup(k, owner);
    WaitOnSetup(k1, VirtQ, WAIT_VIRTUAL_MUTEX, OnMutex(m));
    MutexTrans(k, k1, WaitOn(k1, VirtQ, WAIT_VIRTUAL_MUTEX, OnMutex(m)));
  }

  lemma FirstVirtualSetup(k: KState, m: nat, v: Mutex)
    requires OutOf(k) && m < |k.mtxs| && SameKind(k.virt, v) && OwnerOk(|k.tasks|, v.owner)
    ensures MutexOnly(k, LocFirst(k.(virt := v), m))
  {
    var k1 := k.(virt := v);
    LocFirstSetup(k1, m);
    MutexTrans(k, k1, LocFirst(k1, m));
  }

  lemma LocVinherSetup(k: KState, m: nat)
    requires OutOf(k) && m < |k.mtxs|
    ensures MutexOnly(k, LocVinher(k, m).k)
  {
    if k.virt.owner == NO_OWNER {
      if k.virt.value == 0 { FirstVirtualSetup(k, m, LocVirtual(k).virt); }
    } else if k.virt.owner != k.cur { WaitVirtualSetup(k, m, k.virt.owner); }
    else { NextVirtualSetup(k, m); }
  }

  lemma NextVirtualSetup(k: KState, m: nat)
    requires OutOf(k) && m < |k.mtxs| && k.virt.owner == k.cur
    ensures MutexOnly(k, LocVinher(k, m).k)
  {
    if k.mtxs[m].owner != NO_OWNER {
      CountedSetup(k, m);
    } else {
      NestedVirtualSetup(k, m);
    }
  }

  lemma NestedVirtualSetup(k: KState, m: nat)
    requires OutOf(k) && m < |k.mtxs| && k.virt.owner == k.cur && k.mtxs[m].owner == NO_OWNER
    ensures MutexOnly(k, LocVinher(k, m).k)
  {
    var v := k.virt.(locks := k.virt.locks + 1);
    FirstVirtualSetup(k, m, v);
    assert LocVinher(k, m).k == LocFirst(k.(virt := v), m);
  }

  lemma LocMtxSetup(k: KState, m: nat)
    requires OutOf(k) && Admits(k, LocMtx(m))
    ensures MutexOnly(k, LocMtxCall(k, m).k)
  {
    PutCurrentSetup(k);
    if Reaches(k, m) {
      match k.mtxs[m].protocol
      case VOIDPCL => LocVoidSetup(k, m);
      case INHERIT => LocInherSetup(k, m);
      case VINHERIT => LocVinherSetup(k, m);
      case IMHIGHLOC => LocImHighSetup(k, m);
    }
  }

  lemma LowerSetup(k: KState, m: nat)
    requires OutOf(k) && m < |k.mtxs|
    ensures MutexOnly(k, LowerHigh(k, m))
  {
    var tk := k.tasks[k.cur];
    if tk.pri != tk.initPri {
      var k1 := k.(high := Unlist(k.high, m));
      ListedPriBound(k1, k.cur, k1.high);
      IchgPriSetup(k1, k.cur, ListedPri(k1, k.cur, k1.high));
    }
  }

  lemma UnlVoidSetup(k: KState, m: nat)
    requires OutOf(k) && m < |k.mtxs|
    ensures MutexOnly(k, UnlVoid(k, m).k)
  {
    PutCurrentSetup(k);
    CountedSetup(k, m);
    ReleaseSetup(k, m);
  }

  lemma UnlInherSetup(k: KState, m: nat)
    requires OutOf(k) && m < |k.mtxs|
    ensures MutexOnly(k, UnlInher(k, m).k)
  {
    PutCurrentSetup(k);
    CountedSetup(k, m);
    if k.mtxs[m].owner == k.cur && k.mtxs[m].locks == 1 {
      RestoreSetup(k);
      ReleaseSetup(RestorePri(k), m);
      MutexTrans(k, RestorePri(k), Release(RestorePri(k), m));
    }
  }

  lemma UnlImHighSetup(k: KState, m: nat)
    requires OutOf(k) && m < |k.mtxs|
    ensures MutexOnly(k, UnlImHigh(k, m).k)
  {
    PutCurrentSetup(k);
    CountedSetup(k, m);
    if k.mtxs[m].owner == k.cur && k.mtxs[m].locks == 1 {
      LowerSetup(k, m);
      ReleaseSetup(LowerHigh(k, m), m);
      MutexTrans(k, LowerHigh(k, m), Release(LowerHigh(k, m), m));
    }
  }

  lemma PutVirtualWaitSetup(k: KState, m: nat)
    requires AtRest(k) && m < |k.mtxs| && k.q[VirtQ] != []
    ensures MutexOnly(k, PutVirtualWait(k, m))
  {
    var k2, w := Wake(k, VirtQ, k.virt.order), WokenWants(k);
    WakeSetup(k, VirtQ, k.virt.order);
    var k3 := HandOver(k2, w, m);
    HandOverSetup(k2, w, m);
    LocFirstSetup(k3, w);
    MutexTrans(k, k2, k3);
    MutexTrans(k, k3, LocFirst(k3, w));
  }

  lemma HandOverSetup(k: KState, w: nat, m: nat)
    requires OutOf(k) && w < |k.mtxs| && m < |k.mtxs|
    ensures MutexOnly(k, HandOver(k, w, m))
  {
  }

  lemma RestorePutSetup(k: KState)
    requires OutOf(k)
    ensures MutexOnly(k, PutCurrent(RestorePri(k)))
  {
    RestoreSetup(k);
    PutCurrentSetup(RestorePri(k));
    MutexTrans(k, RestorePri(k), PutCurrent(RestorePri(k)));
  }

  lemma GiveUpBothSetup(k: KState, m: nat)
    requires OutOf(k) && m < |k.mtxs|
    ensures MutexOnly(k, GiveUpBoth(k, m))
  {
    var k1 := PutCurrent(RestorePri(k));
    RestorePutSetup(k);
    PutCurrentRests(RestorePri(k));
    RestorePriQueue(k, VirtQ);
    if k.q[VirtQ] != [] {
      PutVirtualWaitSetup(k1, m);
      MutexTrans(k, k1, PutVirtualWait(k1, m));
    } else {
      MutexTrans(k, k1, ClearOwnership(ClearVirtual(k1), m));
    }
  }

  lemma DroppedSetup(k: KState, m: nat)
    requires OutOf(k) && m < |k.mtxs|
    ensures AtRest(PutCurrent(k)) && MutexOnly(k, DropVirtual(PutCurrent(k), m).k)
  {
    PutCurrentSetup(k);
    PutCurrentRests(k);
  }

  lemma UnlVinherSetup(k: KState, m: nat)
    requires OutOf(k) && m < |k.mtxs|
    ensures MutexOnly(k, UnlVinher(k, m).k)
  {
    PutCurrentSetup(k);
    PutCurrentRests(k);
    if k.virt.owner == k.cur {
      if k.mtxs[m].locks != 1 { CountedSetup(k, m); }
      else if k.virt.locks == 1 { GiveUpBothSetup(k, m); }
      else { DroppedSetup(k, m); }
    }
  }

  lemma UnlMtxSetup(k: KState, m: nat)
    requires OutOf(k)
    ensures MutexOnly(k, UnlMtxCall(k, m).k)
  {
    PutCurrentSetup(k);
    if Reaches(k, m) {
      match k.mtxs[m].protocol
      case VOIDPCL => UnlVoidSetup(k, m);
      case INHERIT => UnlInherSetup(k, m);
      case VINHERIT => UnlVinherSetup(k, m);
      case IMHIGHLOC => UnlImHighSetup(k, m);
    }
  }

  lemma WaiSemSetup(k: KState, s: nat)
    requires OutOf(k) && s < |k.sems|
    ensures SameSetup(k, KernelCalls.WaiSem(k, s).k) && SameSetup(k, KernelCalls.PolSem(k, s).k)
  {
    PutCurrentSetup(k);
    if k.sems[s].value < 1 { WaitOnSetup(k, SemQ(s), WAIT_SEMAPHORE, OnSemaphore(s)); }
  }

  lemma SigSemSetup(k: KState, s: nat)
    requires OutOf(k) && s < |k.sems|
    ensures SameSetup(k, KernelCalls.SigSem(k, s).k)
  {
    PutCurrentSetup(k);
    PutCurrentRests(k);
    var k1 := PutCurrent(k);
    if k1.q[SemQ(s)] != [] {
      var k2 := Wake(k1, SemQ(s), k.sems[s].order);
      WakeSetup(k1, SemQ(s), k.sems[s].order);
      PutCurrentSetup(k2);
      SetupTrans(k, k1, k2);
      SetupTrans(k, k2, PutCurrent(k2));
    }
  }

  lemma SemCallSetup(k: KState, c: Call)
    requires OutOf(k) && (c.WaiSem? || c.PolSem? || c.SigSem?)
    ensures SameSetup(k, Dispatch(k, c).k)
  {
    if k.ids.sem <= c.s || |k.sems| <= c.s { PutCurrentSetup(k); }
    else if c.SigSem? { SigSemSetup(k, c.s); }
    else { WaiSemSetup(k, c.s); }
  }

  lemma DispatchSetup(k: KState, c: Call)
    requires OutOf(k) && LocksOk(k) && Admits(k, c)
    ensures SameSetup(k, Dispatch(k, c).k)
  {
    if c.WaiSem? || c.PolSem? || c.SigSem? { SemCallSetup(k, c); }
    else if c.LocMtx? { LocMtxSetup(k, c.m); }
    else if c.UnlMtx? { UnlMtxSetup(k, c.m); }
    else { TaskCallSetup(k, c); }
  }

  lemma TaskCallSetup(k: KState, c: Call)
    requires OutOf(k) && LocksOk(k) && (c.ChgPri? || c.StaTsk?) && CallOk(c)
    ensures SameSetup(k, Dispatch(k, c).k)
  {
    PutCurrentSetup(k);
    match c
    case ChgPri(t, p) => if t < |k.tasks| { ChgPriOk(k, t, p); }
    case StaTsk(t) => if t < |k.tasks| { StaTskOk(k, t); }
  }

  /** A step keeps the invariants and the setup, and halts only if no task at all is ready. */
  lemma StepKeepsGood(k: KState, s: Step)
    requires Good(k) && StepOk(k, s)
    ensures StepGood(k, StepTo(k, s))
  {
    match s
    case Syscall(c) => CallKeepsGood(k, c);
    case RoundRobinExpiry => ExpiryKeepsGood(k);
    case FeedbackExpiry => FeedbackKeepsGood(k);
  }

  ghost predicate StepGood(k: KState, k': KState) {
    && SameSetup(k, k') && LocksOk(k')
    && (!k'.halted ==> Good(k'))
    && (k'.halted ==> forall t | 0 <= t < |k.tasks| :: READY !in k'.tasks[t].state)
  }

  lemma CallKeepsGood(k: KState, c: Call)
    requires Good(k) && Admits(k, c)
    ensures StepGood(k, SyscallStep(k, c).k)
  {
    hide LocksOk, Dispatch;
    GetCurrentOut(k);
    var out := GetCurrent(k);
    GetCurrentSame(k);
    SameLocksOk(k, out);
    DispatchOk(out, c);
    DispatchSetup(out, c);
    SetupTrans(k, out, Dispatch(out, c).k);
    ScheduleGood(k, Dispatch(out, c).k);
  }

  lemma RequeueGood(k: KState, out: KState)
    requires Good(k) && OutOf(out) && LocksOk(out) && SameSetup(k, out) && !out.halted
    ensures AtRest(PutCurrent(out)) && StepGood(k, Schedule(PutCurrent(out)))
  {
    PutCurrentRests(out);
    PutCurrentSame(out);
    SameLocksOk(out, PutCurrent(out));
    SetupTrans(k, out, PutCurrent(out));
    ScheduleGood(k, PutCurrent(out));
  }

  /** Inside a step: the caller is out of its queue and nothing else has changed. */
  lemma TakeOut(k: KState)
    requires Good(k)
    ensures var out := GetCurrent(k);
            OutOf(out) && LocksOk(out) && SameSetup(k, out) && !out.halted
  {
    GetCurrentOut(k);
    GetCurrentSame(k);
    SameLocksOk(k, GetCurrent(k));
  }

  lemma ExpiryKeepsGood(k: KState)
    requires Good(k)
    ensures StepGood(k, RoundRobin(k))
  {
    TakeOut(k);
    RequeueGood(k, GetCurrent(k));
  }

  lemma FeedbackKeepsGood(k: KState)
    requires Good(k)
    ensures StepGood(k, Feedback(k))
  {
    TakeOut(k);
    DemoteGood(k, GetCurrent(k));
  }

  lemma DemoteGood(k: KState, out: KState)
    requires Good(k) && OutOf(out) && LocksOk(out) && SameSetup(k, out) && !out.halted
    ensures AtRest(PutCurrent(Demote(out))) && StepGood(k, Schedule(PutCurrent(Demote(out))))
  {
    DemoteOk(out);
    SetupTrans(k, out, Demote(out));
    RequeueGood(k, Demote(out));
  }

  lemma DemoteOk(k: KState)
    requires OutOf(k) && LocksOk(k)
    ensures LocksOk(Demote(k)) && SameSetup(k, Demote(k))
    ensures Demote(k).high == k.high && Demote(k).halted == k.halted
  {
    DemoteSame(k);
    SameLocksOk(k, Demote(k));
  }

  lemma DemoteSame(k: KState)
    requires OutOf(k)
    ensures SameLocks(k, Demote(k))
  {
    if k.tasks[k.cur].pri != PRIORITY_NUM - 1 { SetPriSame(k, k.cur, k.tasks[k.cur].pri + 1); }
  }

  lemma ScheduleGood(k: KState, k1: KState)
    requires Good(k) && AtRest(k1) && LocksOk(k1) && SameSetup(k, k1) && !k1.halted
    ensures StepGood(k, Schedule(k1))
  {
    var k2 := Schedule(k1);
    ScheduleLocks(k1);
    if k2.halted {
      forall t | 0 <= t < |k.tasks| ensures READY !in k2.tasks[t].state {
        assert Placed(k1.tasks, k1.q, t);
      }
    }
  }

  lemma ScheduleLocks(k: KState)
    requires AtRest(k) && LocksOk(k)
    ensures LocksOk(Schedule(k))
  {
    var k' := Schedule(k);
    forall m | 0 <= m < |k'.mtxs| ensures MtxOk(k', m) { assert MtxOk(k, m); }
    forall s | 0 <= s < |k'.sems| ensures SemOk(k', s) { assert SemOk(k, s); }
  }

  // ---- Runs ------------------------------------------------------------------------------------

  /** The state after a step; a halted kernel takes no more.  None when the step is a call that the
      model does not cover. */
  ghost function Next(k: KState, s: Step): (r: Option<KState>)
    requires LocksOk(k) && (k.halted || Good(k))
    ensures r.Some? ==> SameSetup(k, r.value) && LocksOk(r.value) && (r.value.halted || Good(r.value))
  {
    if k.halted then Some(k)
    else if StepOk(k, s) then
      StepKeepsGood(k, s);
      Some(StepTo(k, s))
    else None
  }

  /** The state after some steps. */
  ghost function Run(k: KState, steps: seq<Step>): (r: Option<KState>)
    requires Good(k)
    ensures r.Some? ==> SameSetup(k, r.value) && LocksOk(r.value) && (r.value.halted || Good(r.value))
    decreases |steps|
  {
    if steps == [] then Some(k)
    else
      var last := |steps| - 1;
      match Run(k, steps[..last])
      case None => None
      case Some(k1) =>
        var r := Next(k1, steps[last]);
        if r.Some? then SetupTrans(k, k1, r.value); r else None
  }

  lemma RunNext(k: KState, steps: seq<Step>, i: nat)
    requires Good(k) && i < |steps| && Run(k, steps[..i]).Some?
    ensures Run(k, steps[..i + 1]) == Next(Run(k, steps[..i]).value, steps[i])
  {
    hide Good, Next;
    assert steps[..i + 1][..i] == steps[..i];
  }

  lemma RunInit(k: KState, steps: seq<Step>)
    requires Good(k) && steps != [] && Run(k, steps).Some?
    ensures Run(k, steps[..|steps| - 1]).Some?
  {
  }

  /** A run that the model covers is covered at every point of it. */
  lemma {:induction false} RunPrefix(k: KState, steps: seq<Step>, i: nat)
    requires Good(k) && i <= |steps| && Run(k, steps).Some?
    ensures Run(k, steps[..i]).Some?
    decreases |steps|
  {
    if i == |steps| {
      assert steps[..i] == steps;
    } else {
      var init := steps[..|steps| - 1];
      assert init[..i] == steps[..i];
      RunInit(k, steps);
      RunPrefix(k, init, i);
    }
  }

  // ---- Kernels whose runs are all covered ------------------------------------------------------

  predicate CallsOk(steps: seq<Step>) {
    forall i | 0 <= i < |steps| :: steps[i].Syscall? ==> CallOk(steps[i].c)
  }

  /** Without immediate-highest-locker mutexes every run is covered. */
  lemma {:induction false} RunCovered(k: KState, steps: seq<Step>)
    requires Good(k) && NoHighLocker(k) && CallsOk(steps)
    ensures Run(k, steps).Some?
    decreases |steps|
  {
    if steps != [] {
      var last := |steps| - 1;
      RunCovered(k, steps[..last]);
      SetupCovers(k, Run(k, steps[..last]).value, steps[last]);
    }
  }

  lemma SetupCovers(k: KState, k1: KState, s: Step)
    requires NoHighLocker(k) && SameSetup(k, k1) && LocksOk(k1) && (k1.halted || Good(k1))
    requires s.Syscall? ==> CallOk(s.c)
    ensures Next(k1, s).Some?
  {
    assert forall m | 0 <= m < |k.mtxs| :: SameKind(k.mtxs[m], k1.mtxs[m]);
  }
}
