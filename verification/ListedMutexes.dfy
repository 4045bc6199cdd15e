/** The list of raised immediate-highest-locker mutexes in kernels with any mix of protocols: when a
    mutex is given up but stays on the list, and why it can then be put there a second time. */
module ListedMutexes {
  import opened Bitmaps
  import opened KernelState
  import opened KernelCalls
  import opened KernelRun
  import opened LockInvariants
  import opened KernelTheorems

  /** Every mutex on the list has an owner and uses the protocol. */
  predicate ListedOwned(k: KState) {
    forall m | m in k.high :: m < |k.mtxs| && k.mtxs[m].protocol == IMHIGHLOC && k.mtxs[m].owner != NO_OWNER
  }

  /** The call gives up a listed mutex that nobody waits for, by a task that is back at its initial
      priority: the source then skips the list. */
  ghost predicate Strands(k: KState, c: Call)
    requires WF(k)
  {
    && c.UnlMtx? && Reaches(k, c.m) && k.mtxs[c.m].protocol == IMHIGHLOC
    && k.mtxs[c.m].owner == k.cur && k.mtxs[c.m].locks == 1
    && c.m in k.high && k.tasks[k.cur].pri == k.tasks[k.cur].initPri && k.q[MtxQ(c.m)] == []
  }

  // ---- Unlocking a mutex with a ceiling --------------------------------------------------------

  /** The list and the control blocks after the last unlock of m. */
  lemma LastUnlockList(k: KState, m: nat)
    requires OutOf(k) && m < |k.mtxs| && k.mtxs[m].owner == k.cur && k.mtxs[m].locks == 1
    ensures var k', tk := UnlImHigh(k, m).k, k.tasks[k.cur];
            && k'.high == (if tk.pri == tk.initPri then k.high else Unlist(k.high, m))
            && |k'.mtxs| == |k.mtxs| && k'.mtxs[m].protocol == k.mtxs[m].protocol
            && (forall i | 0 <= i < |k.mtxs| && i != m :: k'.mtxs[i] == k.mtxs[i])
            && (k'.mtxs[m].owner == NO_OWNER <==> k.q[MtxQ(m)] == [])
  {
    LowerKeeps(k, m);
    ReleaseKeeps(LowerHigh(k, m), m);
  }

  lemma LowerKeeps(k: KState, m: nat)
    requires OutOf(k) && m < |k.mtxs|
    ensures var k', tk := LowerHigh(k, m), k.tasks[k.cur];
            && k'.high == (if tk.pri == tk.initPri then k.high else Unlist(k.high, m))
            && k'.mtxs == k.mtxs && k'.q.Keys == k.q.Keys && k'.q[MtxQ(m)] == k.q[MtxQ(m)]
  {
    if k.tasks[k.cur].pri != k.tasks[k.cur].initPri {
      var k1 := k.(high := Unlist(k.high, m));
      var p := ListedPri(k1, k.cur, k1.high);
      ListedPriBound(k1, k.cur, k1.high);
      IchgPriSame(k1, k.cur, p);
    }
  }

  lemma ReleaseKeeps(k: KState, m: nat)
    requires OutOf(k) && m < |k.mtxs|
    ensures var k' := Release(k, m);
            && k'.high == k.high && |k'.mtxs| == |k.mtxs| && k'.mtxs[m].protocol == k.mtxs[m].protocol
            && (forall i | 0 <= i < |k.mtxs| && i != m :: k'.mtxs[i] == k.mtxs[i])
            && (k'.mtxs[m].owner == NO_OWNER <==> k.q[MtxQ(m)] == [])
  {
    PutCurrentSame(k);
    PutCurrentRests(k);
    if k.q[MtxQ(m)] != [] { WakeFrame(PutCurrent(k), MtxQ(m), k.mtxs[m].order); }
  }

  /** The last unlock leaves every listed mutex owned if and only if the mutex was not on the list,
      or its owner ran at another priority than its initial one, or somebody waited for it. */
  lemma UnlockKeepsListed(k: KState, m: nat)
    requires OutOf(k) && ListedOwned(k) && Reaches(k, m) && k.mtxs[m].protocol == IMHIGHLOC
    requires k.mtxs[m].owner == k.cur && k.mtxs[m].locks == 1
    ensures ListedOwned(UnlImHigh(k, m).k) <==> !Strands(k, UnlMtx(m))
  {
    LastUnlockList(k, m);
  }

  // ---- Every other call ------------------------------------------------------------------------

  /** The list is the same, and so is every control block of the protocol. */
  ghost predicate ListKept(k: KState, k': KState) {
    && k'.high == k.high && |k'.mtxs| == |k.mtxs|
    && (forall i | 0 <= i < |k.mtxs| && k.mtxs[i].protocol == IMHIGHLOC :: k'.mtxs[i] == k.mtxs[i])
  }

  lemma FirstKeeps(k: KState, m: nat)
    requires OutOf(k) && m < |k.mtxs|
    ensures var k' := LocFirst(k, m);
            && k'.high == k.high && |k'.mtxs| == |k.mtxs|
            && (forall i | 0 <= i < |k.mtxs| && i != m :: k'.mtxs[i] == k.mtxs[i])
            && k'.mtxs[m].protocol == k.mtxs[m].protocol
            && (k'.mtxs[m].owner == k.cur || k'.mtxs == k.mtxs)
  {
    PutCurrentSame(k);
  }

  lemma CountedKeeps(k: KState, m: nat)
    requires OutOf(k) && m < |k.mtxs|
    ensures forall k' | k' == LocMultipl(k, m).k || k' == NotLockFirst(k, m).k ::
              && k'.high == k.high && |k'.mtxs| == |k.mtxs|
              && (forall i | 0 <= i < |k.mtxs| && i != m :: k'.mtxs[i] == k.mtxs[i])
              && k'.mtxs[m].protocol == k.mtxs[m].protocol && k'.mtxs[m].owner == k.mtxs[m].owner
  {
    PutCurrentSame(k);
  }

  lemma PlainLockKept(k: KState, m: nat)
    requires OutOf(k) && m < |k.mtxs| && k.mtxs[m].protocol != IMHIGHLOC
    ensures ListKept(k, LocVoid(k, m).k) && ListKept(k, LocInher(k, m).k)
  {
    var owner := k.mtxs[m].owner;
    if owner == NO_OWNER { FirstKeeps(k, m); }
    else if owner == k.cur { CountedKeeps(k, m); }
    else { BoostSame(k, owner); }
  }

  lemma PlainUnlockKept(k: KState, m: nat)
    requires OutOf(k) && m < |k.mtxs| && k.mtxs[m].protocol != IMHIGHLOC
    ensures ListKept(k, UnlVoid(k, m).k)
  {
    PutCurrentSame(k);
    CountedKeeps(k, m);
    ReleaseKeeps(k, m);
  }

  lemma InheritUnlockKept(k: KState, m: nat)
    requires OutOf(k) && m < |k.mtxs| && k.mtxs[m].protocol != IMHIGHLOC
    ensures ListKept(k, UnlInher(k, m).k)
  {
    PutCurrentSame(k);
    CountedKeeps(k, m);
    if k.mtxs[m].owner == k.cur && k.mtxs[m].locks == 1 {
      RestoreSame(k);
      ReleaseKeeps(RestorePri(k), m);
    }
  }

  lemma VirtualLockKept(k: KState, m: nat)
    requires OutOf(k) && m < |k.mtxs| && k.mtxs[m].protocol != IMHIGHLOC
    ensures ListKept(k, LocVinher(k, m).k)
  {
    if k.virt.owner == NO_OWNER {
      if k.virt.value == 0 { FirstKeeps(LocVirtual(k), m); }
    } else if k.virt.owner != k.cur {
      BoostSame(k, k.virt.owner);
    } else if k.mtxs[m].owner != NO_OWNER {
      CountedKeeps(k, m);
    } else {
      FirstKeeps(k.(virt := k.virt.(locks := k.virt.locks + 1)), m);
    }
  }

  lemma VirtualUnlockKept(k: KState, m: nat)
    requires OutOf(k) && LocksOk(k) && m < |k.mtxs| && k.mtxs[m].protocol == VINHERIT
    ensures ListKept(k, UnlVinher(k, m).k)
  {
    PutCurrentSame(k);
    CountedKeeps(k, m);
    if k.virt.owner == k.cur && k.virt.locks == 1 && k.mtxs[m].locks == 1 { GiveUpBothKept(k, m); }
  }

  lemma GiveUpBothKept(k: KState, m: nat)
    requires OutOf(k) && LocksOk(k) && m < |k.mtxs| && k.mtxs[m].protocol == VINHERIT
    ensures ListKept(k, GiveUpBoth(k, m))
  {
    RestoreSame(k);
    var k1 := RestorePri(k);
    PutCurrentSame(k1);
    PutCurrentRests(k1);
    RestorePriQueue(k, VirtQ);
    if k.q[VirtQ] != [] {
      SameLocksOk(k, k1);
      SameLocksOk(k1, PutCurrent(k1));
      HandOverKept(PutCurrent(k1), m);
    }
  }

  lemma HandOverKept(k: KState, m: nat)
    requires AtRest(k) && LocksOk(k) && m < |k.mtxs| && k.q[VirtQ] != [] && k.mtxs[m].protocol == VINHERIT
    ensures ListKept(k, PutVirtualWait(k, m))
  {
    WantsVirtual(k);
    WakeFrame(k, VirtQ, k.virt.order);
    FirstKeeps(HandOver(Wake(k, VirtQ, k.virt.order), WokenWants(k), m), WokenWants(k));
  }

  lemma HighLockListed(k: KState, m: nat)
    requires OutOf(k) && LocksOk(k) && ListedOwned(k) && m < |k.mtxs| && k.mtxs[m].protocol == IMHIGHLOC
    ensures !Relists(k, m) && ListedOwned(LocImHigh(k, m).k)
  {
    var owner := k.mtxs[m].owner;
    if owner == k.cur { CountedKeeps(k, m); }
    else if owner == NO_OWNER {
      if k.tasks[k.cur].pri > k.mtxs[m].ceiling { RaiseListed(k, m); } else { FirstKeeps(k, m); }
    }
  }

  lemma RaiseListed(k: KState, m: nat)
    requires OutOf(k) && LocksOk(k) && ListedOwned(k) && m < |k.mtxs| && k.mtxs[m].protocol == IMHIGHLOC
    requires k.mtxs[m].owner == NO_OWNER && k.tasks[k.cur].pri > k.mtxs[m].ceiling
    ensures !Relists(k, m) && ListedOwned(LocImHigh(k, m).k)
  {
    var k1 := PutHigh(k, m);
    RaiseKeeps(k1, k.mtxs[m].ceiling);
    assert MtxOk(k, m);
    RaisedListed(k, m, IchgPri(k1, k.cur, k.mtxs[m].ceiling));
  }

  lemma RaiseKeeps(k: KState, p: int)
    requires OutOf(k) && p != PRIORITY_NUM
    ensures var k' := IchgPri(k, k.cur, p);
            OutOf(k') && k'.high == k.high && k'.mtxs == k.mtxs && k'.cur == k.cur
  {
    IchgPriSame(k, k.cur, p);
    IchgPriOutOf(k, k.cur, p);
  }

  lemma RaisedListed(k: KState, m: nat, k2: KState)
    requires ListedOwned(k) && m < |k.mtxs| && k.mtxs[m].protocol == IMHIGHLOC && k.mtxs[m].value == 0
    requires OutOf(k2) && k2.high == [m] + k.high && k2.mtxs == k.mtxs
    ensures ListedOwned(LocFirst(k2, m))
  {
    PutCurrentSame(k2);
  }

  lemma OtherListKept(k: KState, c: Call)
    requires OutOf(k) && LocksOk(k) && CallOk(c)
    requires (c.LocMtx? || c.UnlMtx?) ==> !Reaches(k, c.m)
    ensures ListKept(k, Dispatch(k, c).k)
  {
    if c.WaiSem? || c.PolSem? || c.SigSem? { SemListKept(k, c); } else { TaskListKept(k, c); }
  }

  lemma SemListKept(k: KState, c: Call)
    requires OutOf(k) && (c.WaiSem? || c.PolSem? || c.SigSem?)
    ensures ListKept(k, Dispatch(k, c).k)
  {
    PutCurrentSame(k);
    if c.SigSem? && c.s < k.ids.sem && c.s < |k.sems| {
      PutCurrentRests(k);
      SignalListKept(PutCurrent(k), c.s);
    }
  }

  lemma SignalListKept(k: KState, s: nat)
    requires AtRest(k) && s < |k.sems|
    ensures ListKept(k, SigSemIsr(k, s).k)
  {
    if k.q[SemQ(s)] != [] { WakeFrame(k, SemQ(s), k.sems[s].order); }
  }

  lemma TaskListKept(k: KState, c: Call)
    requires OutOf(k) && LocksOk(k) && CallOk(c) && !c.WaiSem? && !c.PolSem? && !c.SigSem?
    requires (c.LocMtx? || c.UnlMtx?) ==> !Reaches(k, c.m)
    ensures ListKept(k, Dispatch(k, c).k)
  {
    PutCurrentSame(k);
    if c.ChgPri? && c.t < |k.tasks| { ChgPriOk(k, c.t, c.p); }
    if c.StaTsk? && c.t < |k.tasks| { StaTskOk(k, c.t); }
  }

  /** Whatever the call and the protocol: it leaves every listed mutex owned unless it strands one. */
  lemma CallKeepsListed(k: KState, c: Call)
    requires OutOf(k) && LocksOk(k) && ListedOwned(k) && CallOk(c)
    ensures Admits(k, c)
    ensures ListedOwned(Dispatch(k, c).k) <==> !Strands(k, c)
  {
    if c.LocMtx? && Reaches(k, c.m) { LockListed(k, c.m); }
    else if c.UnlMtx? && Reaches(k, c.m) { UnlockListed(k, c.m); }
    else { OtherListKept(k, c); }
  }

  lemma LockListed(k: KState, m: nat)
    requires OutOf(k) && LocksOk(k) && ListedOwned(k) && Reaches(k, m)
    ensures ListedOwned(Dispatch(k, LocMtx(m)).k)
  {
    match k.mtxs[m].protocol
    case VOIDPCL => PlainLockKept(k, m);
    case INHERIT => PlainLockKept(k, m);
    case VINHERIT => VirtualLockKept(k, m);
    case IMHIGHLOC => HighLockListed(k, m);
  }

  lemma UnlockListed(k: KState, m: nat)
    requires OutOf(k) && LocksOk(k) && ListedOwned(k) && Reaches(k, m)
    ensures ListedOwned(Dispatch(k, UnlMtx(m)).k) <==> !Strands(k, UnlMtx(m))
  {
    match k.mtxs[m].protocol
    case VOIDPCL => PlainUnlockKept(k, m);
    case INHERIT => InheritUnlockKept(k, m);
    case VINHERIT => VirtualUnlockKept(k, m);
    case IMHIGHLOC =>
      PutCurrentSame(k);
      CountedKeeps(k, m);
      if k.mtxs[m].owner == k.cur && k.mtxs[m].locks == 1 { UnlockKeepsListed(k, m); }
  }

  // ---- Runs ------------------------------------------------------------------------------------

  ghost predicate StepStrands(k: KState, s: Step)
    requires WF(k)
  {
    s.Syscall? && Strands(k, s.c)
  }

  lemma TakenOutStrands(k: KState, c: Call)
    requires Good(k)
    ensures OutOf(GetCurrent(k)) && LocksOk(GetCurrent(k)) && GetCurrent(k).cur == k.cur
    ensures ListedOwned(GetCurrent(k)) <==> ListedOwned(k)
    ensures Strands(GetCurrent(k), c) <==> Strands(k, c)
  {
    TakeOut(k);
    GetCurrentSame(k);
  }

  /** A step leaves every listed mutex owned if and only if it does not strand one. */
  lemma StepKeepsListed(k: KState, s: Step)
    requires Good(k) && ListedOwned(k) && (s.Syscall? ==> CallOk(s.c))
    ensures StepOk(k, s)
    ensures ListedOwned(StepTo(k, s)) <==> !StepStrands(k, s)
  {
    TakeOut(k);
    GetCurrentSame(k);
    var out := GetCurrent(k);
    match s
    case Syscall(c) =>
      TakenOutStrands(k, c);
      CallKeepsListed(out, c);
      DispatchOk(out, c);
    case RoundRobinExpiry => PutCurrentSame(out);
    case FeedbackExpiry =>
      DemoteSame(out);
      PutCurrentSame(Demote(out));
  }

  /** No step of the run strands a mutex. */
  ghost predicate NoneStranded(k: KState, steps: seq<Step>)
    requires Good(k)
  {
    if steps == [] then true
    else
      var last := |steps| - 1;
      var r := Run(k, steps[..last]);
      NoneStranded(k, steps[..last]) && (r.Some? && !r.value.halted ==> !StepStrands(r.value, steps[last]))
  }

  /** Whatever protocols the mutexes use and whatever priorities the calls set: as long as no unlock
      strands a mutex, the whole run is covered, and every listed mutex always has an owner. */
  lemma {:induction false} ListedRun(k: KState, steps: seq<Step>)
    requires Good(k) && ListedOwned(k) && CallsOk(steps) && NoneStranded(k, steps)
    ensures Run(k, steps).Some? && ListedOwned(Run(k, steps).value)
    decreases |steps|
  {
    hide Good, Next;
    if steps != [] {
      var last := |steps| - 1;
      ListedRun(k, steps[..last]);
      ListedNext(Run(k, steps[..last]).value, steps[last]);
    }
  }

  lemma ListedNext(k: KState, s: Step)
    requires LocksOk(k) && (k.halted || Good(k)) && ListedOwned(k) && (s.Syscall? ==> CallOk(s.c))
    requires k.halted || !StepStrands(k, s)
    ensures Next(k, s).Some? && ListedOwned(Next(k, s).value)
  {
    if !k.halted { StepKeepsListed(k, s); }
  }
}
