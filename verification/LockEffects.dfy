/** What lock and unlock calls do under each protocol, told by the state before and the state after. */
module LockEffects {
  import opened Bitmaps
  import opened KernelState
  import opened KernelCalls
  import opened KernelRun
  import opened LockInvariants
  import opened RunTheorems
  import opened CallEffects

  // ---- Mutexes: the steps of the calls ---------------------------------------------------------

  lemma CallerPri(k: KState, p: int)
    requires OutOf(k) && p != PRIORITY_NUM
    ensures CallerAt(k, IchgPri(k, k.cur, p), if PriInRange(p) then p else k.tasks[k.cur].pri)
    ensures IchgPri(k, k.cur, p).high == k.high
  {
    IchgPriOutOf(k, k.cur, p);
    IchgPriTasks(k, k.cur, p);
  }

  lemma CallerBackFrom(k: KState, k1: KState, k': KState, p: int)
    requires k.cur < |k.tasks| && CallerAt(k, k1, p) && CallerBack(k1, k', p)
    ensures CallerBack(k, k', p)
  {
    SamePlaces(k, k1, k', k', k.cur, k.cur);
  }

  lemma RestoreCaller(k: KState)
    requires OutOf(k)
    ensures CallerAt(k, RestorePri(k), k.tasks[k.cur].initPri) && RestorePri(k).high == k.high
  {
    assert RecordOk(|k.mtxs|, k.tasks[k.cur]);
    CallerPri(k, k.tasks[k.cur].initPri);
  }

  lemma FirstEffect(k: KState, m: nat)
    requires OutOf(k) && m < |k.mtxs| && k.mtxs[m].value == 0
    ensures var k', mx := LocFirst(k, m), k.mtxs[m];
            && k'.mtxs == k.mtxs[m := mx.(value := 1, locks := mx.locks + 1, owner := k.cur)]
            && Untouched(k, k'.(mtxs := k.mtxs))
  {
    PutBackEffect(k);
  }

  /** The owner of the lock, raised: last in its new queue if it is ready, otherwise where it was. */
  lemma BoostedEffect(k: KState, o: nat)
    requires OutOf(k) && Awake(k, o) && o != k.cur
    ensures var k1, p := BoostOwner(k, o), k.tasks[k.cur].pri;
            && OutOf(k1) && k1.cur == k.cur && SameMtxs(k, k1) && SameSems(k, k1)
            && if p >= k.tasks[o].pri then k1 == k
               else
                 && k1.tasks == k.tasks[o := k.tasks[o].(pri := p)]
                 && if k.tasks[o].state == {READY} then Requeued(k, k1, o, o) else k1.q == k.q
  {
    var p := k.tasks[k.cur].pri;
    assert RecordOk(|k.mtxs|, k.tasks[k.cur]) && Settled(k.tasks[o]);
    BoostSame(k, o);
    if p < k.tasks[o].pri {
      IchgPriTasks(k, o, p);
      if k.tasks[o].state == {READY} {
        MovedEffect(k, o, p);
        SamePlaces(k, k, MoveReady(k, o, p), BoostOwner(k, o), o, o);
      }
    }
  }

  /** Task o stands last in a ready queue, then t goes to a wait queue. */
  lemma WaitAfterMove(k: KState, k1: KState, k2: KState, t: nat, o: nat)
    requires OutOf(k1) && t == k1.cur && o < |k1.tasks| == |k2.tasks| && t != o
    requires Requeued(k, k1, o, o) && Requeued(k1, k2, t, t) && k2.tasks[o] == k1.tasks[o]
    requires Place(t, k2.tasks[t]) != Place(o, k2.tasks[o])
    ensures Requeued(k, k2, t, o)
  {
    hide Place, Others, QueuesOk;
    PutBackEffect(k1);
    forall id | id in k.q ensures k2.q[id] == Others(k.q[id], o) + Tail(k2, t, id) + Tail(k2, o, id) {
      var s, a, b := Others(k.q[id], o), Tail(k1, o, id), Tail(k2, t, id);
      OthersAbsent(k1.q[id], t);
      assert k1.q[id] == s + a;
      assert k2.q[id] == s + a + b;
      assert a == [] || b == [];
    }
  }

  // ---- Locks -----------------------------------------------------------------------------------

  /** Whoever has to release something before the caller can have mutex m. */
  function Holder(k: KState, m: nat): (r: int)
    requires m < |k.mtxs|
  {
    if k.mtxs[m].protocol == VINHERIT then k.virt.owner else k.mtxs[m].owner
  }

  predicate Blocked(k: KState, m: nat)
    requires m < |k.mtxs|
  {
    Holder(k, m) != NO_OWNER && Holder(k, m) != k.cur
  }

  /** The caller waits for mutex m, last in the queue; an inheritance protocol has raised the holder to the
      caller's priority if that is better. */
  ghost predicate QueuedFor(k: KState, m: nat, k': KState)
    requires m < |k.mtxs| && Blocked(k, m) && 0 <= Holder(k, m) < |k.tasks| && k.cur < |k.tasks|
  {
    var mx, o, tk := k.mtxs[m], Holder(k, m), k.tasks[k.cur];
    var raised := (mx.protocol == INHERIT || mx.protocol == VINHERIT) && tk.pri < k.tasks[o].pri;
    var b := if mx.protocol == VINHERIT then WAIT_VIRTUAL_MUTEX else WAIT_MUTEX;
    && k'.tasks == (if raised then k.tasks[o := k.tasks[o].(pri := tk.pri)] else k.tasks)
                   [k.cur := tk.(state := {b}, wobj := OnMutex(m))]
    && Requeued(k, k', k.cur, if raised && k.tasks[o].state == {READY} then o else k.cur)
    && SameMtxs(k, k') && SameSems(k, k')
  }

  /** Mutex m is the caller's, locked once.  The virtual mutex counts it; a better ceiling puts it on the list
      and, unless it is negative, raises the caller. */
  ghost predicate Acquired(k: KState, m: nat, k': KState)
    requires m < |k.mtxs| && k.cur < |k.tasks|
  {
    var mx, tk, v := k.mtxs[m], k.tasks[k.cur], k.virt;
    var raised := mx.protocol == IMHIGHLOC && tk.pri > mx.ceiling;
    && k'.mtxs == k.mtxs[m := mx.(value := 1, locks := 1, owner := k.cur)]
    && k'.virt == (if mx.protocol == VINHERIT then v.(value := 1, locks := v.locks + 1, owner := k.cur) else v)
    && k'.high == (if raised then [m] + k.high else k.high)
    && CallerBack(k, k', if raised && mx.ceiling >= 0 then mx.ceiling else tk.pri)
    && SameSems(k, k')
  }

  /** Only the count of mutex m changed: it is n. */
  ghost predicate Recounted(k: KState, m: nat, n: int, k': KState)
    requires m < |k.mtxs| && k.cur < |k.tasks|
  {
    k'.mtxs == k.mtxs[m := k.mtxs[m].(locks := n)] && Untouched(k, k'.(mtxs := k.mtxs))
  }

  lemma CountEffect(k: KState, m: nat)
    requires OutOf(k) && m < |k.mtxs|
    ensures var r, mx := LocMultipl(k, m), k.mtxs[m];
            if mx.locks < mx.maxlocks then r.er == E_OK && Recounted(k, m, mx.locks + 1, r.k)
            else r.er == E_ILUSE && Untouched(k, r.k)
    ensures var r, mx := NotLockFirst(k, m), k.mtxs[m];
            if mx.locks > 1 then r.er == E_OK && Recounted(k, m, mx.locks - 1, r.k)
            else r.er == E_ILUSE && Untouched(k, r.k)
  {
    PutBackEffect(k);
  }

  /** An owner is a started task. */
  lemma HolderAwake(k: KState, m: nat)
    requires LocksOk(k) && m < |k.mtxs| && Holder(k, m) != NO_OWNER
    ensures Awake(k, Holder(k, m))
  {
    if k.mtxs[m].protocol == VINHERIT {
      CountZero(k.mtxs);
      assert VirtOk(k);
      var w :| 0 <= w < |k.mtxs| && Counted(k.mtxs[w]) != 0;
      assert MtxOk(k, w);
    } else {
      assert MtxOk(k, m);
    }
  }

  lemma PlainWaitEffect(k: KState, m: nat)
    requires OutOf(k) && LocksOk(k) && m < |k.mtxs| && Blocked(k, m) && Awake(k, Holder(k, m))
    ensures k.mtxs[m].protocol == VOIDPCL || k.mtxs[m].protocol == IMHIGHLOC ==> QueuedFor(k, m, WaitMtx(k, m))
  {
    WaitsEffect(k, MtxQ(m), WAIT_MUTEX, OnMutex(m));
  }

  lemma BoostWaitEffect(k: KState, m: nat)
    requires OutOf(k) && LocksOk(k) && m < |k.mtxs| && Blocked(k, m) && Awake(k, Holder(k, m))
    ensures k.mtxs[m].protocol == INHERIT ==> QueuedFor(k, m, WaitMtx(BoostOwner(k, Holder(k, m)), m))
    ensures k.mtxs[m].protocol == VINHERIT ==>
              QueuedFor(k, m, WaitOn(BoostOwner(k, Holder(k, m)), VirtQ, WAIT_VIRTUAL_MUTEX, OnMutex(m)))
  {
    hide QueuesOk, Requeued, LocksOk;
    var o := Holder(k, m);
    BoostedEffect(k, o);
    var k1 := BoostOwner(k, o);
    LockQueues(k1, m);
    WaitsEffect(k1, MtxQ(m), WAIT_MUTEX, OnMutex(m));
    WaitsEffect(k1, VirtQ, WAIT_VIRTUAL_MUTEX, OnMutex(m));
    BoostedPlaces(k, k1, WaitMtx(k1, m), o, WAIT_MUTEX, OnMutex(m));
    BoostedPlaces(k, k1, WaitOn(k1, VirtQ, WAIT_VIRTUAL_MUTEX, OnMutex(m)), o, WAIT_VIRTUAL_MUTEX, OnMutex(m));
  }

  lemma LockQueues(k: KState, m: nat)
    requires WF(k) && m < |k.mtxs|
    ensures MtxQ(m) in k.q && VirtQ in k.q
  {
  }

  lemma BoostedPlaces(k: KState, k1: KState, k2: KState, o: nat, b: StateBit, w: WaitObject)
    requires OutOf(k1) && k1.cur == k.cur < |k.tasks| && o < |k.tasks| && o != k.cur && w.OnMutex?
    requires (b == WAIT_MUTEX || b == WAIT_VIRTUAL_MUTEX) && CallerWaits(k1, k2, b, w)
    requires if k.tasks[k.cur].pri >= k.tasks[o].pri then k1 == k
             else
               && k1.tasks == k.tasks[o := k.tasks[o].(pri := k.tasks[k.cur].pri)]
               && if k.tasks[o].state == {READY} then Requeued(k, k1, o, o) else k1.q == k.q
    ensures Requeued(k, k2, k.cur,
                     if k.tasks[k.cur].pri < k.tasks[o].pri && k.tasks[o].state == {READY} then o else k.cur)
  {
    hide QueuesOk, Requeued;
    if k.tasks[k.cur].pri < k.tasks[o].pri && k.tasks[o].state == {READY} { WaitAfterMove(k, k1, k2, k.cur, o); }
    else { SamePlaces(k, k1, k2, k2, k.cur, k.cur); }
  }

  lemma TakeFreeEffect(k: KState, m: nat)
    requires OutOf(k) && LocksOk(k) && m < |k.mtxs| && k.mtxs[m].owner == NO_OWNER
    ensures k.mtxs[m].protocol == VOIDPCL || k.mtxs[m].protocol == INHERIT ==> Acquired(k, m, LocFirst(k, m))
    ensures k.mtxs[m].protocol == IMHIGHLOC && !Relists(k, m) ==> Acquired(k, m, LocImHigh(k, m).k)
  {
    hide QueuesOk, Requeued, Place, PutCurrent;
    assert MtxOk(k, m);
    FirstEffect(k, m);
    FirstPlaces(k, m);
    if k.mtxs[m].protocol == IMHIGHLOC && !Relists(k, m) && k.tasks[k.cur].pri > k.mtxs[m].ceiling {
      RaiseEffect(k, m);
    }
  }

  lemma FirstPlaces(k: KState, m: nat)
    requires OutOf(k) && m < |k.mtxs| && k.mtxs[m].value == 0
    ensures CallerBack(k, LocFirst(k, m), k.tasks[k.cur].pri)
  {
    hide QueuesOk, Requeued, Place, PutCurrent;
    FirstEffect(k, m);
    SamePlaces(k, k, LocFirst(k, m).(mtxs := k.mtxs), LocFirst(k, m), k.cur, k.cur);
  }

  lemma RaiseEffect(k: KState, m: nat)
    requires OutOf(k) && m < |k.mtxs| && k.mtxs[m].owner == NO_OWNER && k.mtxs[m].protocol == IMHIGHLOC
    requires k.mtxs[m].value == 0 && k.mtxs[m].locks == 0
    requires !Relists(k, m) && k.tasks[k.cur].pri > k.mtxs[m].ceiling
    ensures Acquired(k, m, LocImHigh(k, m).k)
  {
    hide QueuesOk, Place, Others;
    var k1, c := PutHigh(k, m), k.mtxs[m].ceiling;
    assert c < PRIORITY_NUM by { assert RecordOk(|k.mtxs|, k.tasks[k.cur]) by { CallerInRange(k); } }
    CallerPri(k1, c);
    var k2 := IchgPri(k1, k.cur, c);
    FirstEffect(k2, m);
    CallerBackFrom(k1, k2, LocFirst(k2, m), k2.tasks[k.cur].pri);
    SamePlaces(k, k1, LocFirst(k2, m), LocFirst(k2, m), k.cur, k.cur);
  }

  lemma TakeVirtualEffect(k: KState, m: nat)
    requires OutOf(k) && LocksOk(k) && m < |k.mtxs| && k.mtxs[m].protocol == VINHERIT
    requires k.mtxs[m].owner == NO_OWNER && !Blocked(k, m) && !k.halted
    ensures Acquired(k, m, LocVinher(k, m).k)
  {
    hide QueuesOk, Requeued;
    assert MtxOk(k, m) && VirtOk(k);
    var v := k.virt.(value := 1, locks := k.virt.locks + 1, owner := k.cur);
    var k1 := k.(virt := v);
    if k.virt.owner == k.cur { assert v == k.virt.(locks := k.virt.locks + 1); }
    assert LocVinher(k, m).k == LocFirst(k1, m);
    FirstEffect(k1, m);
    SamePlaces(k, k1, LocFirst(k1, m).(mtxs := k.mtxs), LocFirst(k1, m), k.cur, k.cur);
  }

  /** A lock call, whatever the protocol, on a mutex that exists: the caller waits if another task holds it;
      it counts one lock more, up to the limit, if it is the owner; and it becomes the owner if there is none. */
  lemma LockEffect(k: KState, m: nat)
    requires OutOf(k) && LocksOk(k) && !k.halted && Reaches(k, m) && Admits(k, LocMtx(m))
    ensures Blocked(k, m) ==> 0 <= Holder(k, m) < |k.tasks|
    ensures var r, mx := Dispatch(k, LocMtx(m)), k.mtxs[m];
            && r.er == (if !Blocked(k, m) && mx.owner == k.cur && mx.maxlocks <= mx.locks then E_ILUSE else E_OK)
            && (Blocked(k, m) ==> QueuedFor(k, m, r.k))
            && (!Blocked(k, m) ==>
                  && (mx.owner == NO_OWNER ==> Acquired(k, m, r.k))
                  && (mx.owner != NO_OWNER ==> mx.owner == k.cur)
                  && (mx.owner != NO_OWNER && r.er == E_OK ==> Recounted(k, m, mx.locks + 1, r.k))
                  && (mx.owner != NO_OWNER && r.er != E_OK ==> Untouched(k, r.k)))
  {
    hide QueuesOk, Requeued, Place, QueuedFor, Acquired, Untouched, Recounted;
    CountEffect(k, m);
    LockOwner(k, m);
    if Blocked(k, m) {
      HolderAwake(k, m);
      PlainWaitEffect(k, m);
      BoostWaitEffect(k, m);
    } else if k.mtxs[m].owner == NO_OWNER {
      TakeFreeEffect(k, m);
      if k.mtxs[m].protocol == VINHERIT { TakeVirtualEffect(k, m); }
    }
  }

  /** A mutex that blocks nobody is free or the caller's. */
  lemma LockOwner(k: KState, m: nat)
    requires LocksOk(k) && m < |k.mtxs| && k.cur < |k.tasks|
    ensures !Blocked(k, m) ==> k.mtxs[m].owner == NO_OWNER || k.mtxs[m].owner == k.cur
    ensures k.mtxs[m].owner == k.cur ==> !Blocked(k, m)
    ensures k.mtxs[m].owner == NO_OWNER <==> k.mtxs[m].locks == 0
    ensures k.mtxs[m].owner == NO_OWNER || k.mtxs[m].value == 1
  {
    assert MtxOk(k, m) && VirtOk(k);
    assert k.mtxs[m].protocol == VINHERIT && k.mtxs[m].owner != NO_OWNER ==> Counted(k.mtxs[m]) == 1;
  }

  // ---- Unlocks ---------------------------------------------------------------------------------

  /** The list of raised mutexes after the caller gave up mutex m for good. */
  ghost function ListLeft(k: KState, m: nat): (r: seq<nat>)
    requires WF(k) && m < |k.mtxs|
    ensures forall i | 0 <= i < |r| :: r[i] < |k.mtxs|
  {
    var tk := k.tasks[k.cur];
    UnlistOthers(k.high, m);
    if k.mtxs[m].protocol == IMHIGHLOC && tk.pri != tk.initPri then Others(k.high, m) else k.high
  }

  lemma UnlistOthers(list: seq<nat>, m: nat)
    requires NoDup(list)
    ensures Unlist(list, m) == Others(list, m)
    ensures forall x | x in Others(list, m) :: x in list
  {
    if m in list { WithoutIsOthers(list, IndexOf(list, m)); } else { OthersAbsent(list, m); }
  }

  /** The priority that leaves the caller at: its initial one with an inheritance protocol, the best over what
      is left of the list with a ceiling. */
  ghost function ResetTo(k: KState, m: nat): (p: int)
    requires WF(k) && m < |k.mtxs|
  {
    var tk := k.tasks[k.cur];
    match k.mtxs[m].protocol
    case VOIDPCL => tk.pri
    case INHERIT => tk.initPri
    case VINHERIT => tk.initPri
    case IMHIGHLOC =>
      if tk.pri == tk.initPri then tk.pri
      else
        var best := ListedPri(k, k.cur, ListLeft(k, m));
        if best >= 0 then best else tk.pri
  }

  /** The caller owns VINHERIT mutexes beside m, so the virtual mutex stays its own. */
  predicate KeepsVirtual(k: KState, m: nat)
    requires m < |k.mtxs|
  {
    k.mtxs[m].protocol == VINHERIT && k.virt.locks > 1
  }

  /** The waiters that the last unlock of m serves, and in which order. */
  function Waiters(k: KState, m: nat): (r: (QueueId, Order))
    requires m < |k.mtxs|
  {
    if k.mtxs[m].protocol == VINHERIT then (VirtQ, k.virt.order) else (MtxQ(m), k.mtxs[m].order)
  }

  /** Mutex m is free, and with it the virtual mutex. */
  ghost predicate Freed(k: KState, m: nat, k': KState)
    requires WF(k) && m < |k.mtxs|
  {
    && k'.mtxs == k.mtxs[m := Free(k.mtxs[m])]
    && k'.virt == (if k.mtxs[m].protocol == VINHERIT then Free(k.virt) else k.virt)
    && k'.high == ListLeft(k, m) && CallerBack(k, k', ResetTo(k, m)) && SameSems(k, k')
  }

  /** Mutex w is task u's, locked once. */
  function GivenTo(mtxs: seq<Mutex>, w: nat, u: nat): (r: seq<Mutex>)
    requires w < |mtxs|
  {
    mtxs[w := mtxs[w].(value := 1, locks := 1, owner := u)]
  }

  /** Task u has the mutex that it was waiting for, and with it the virtual mutex; m is free unless it is the
      same one. */
  ghost predicate HandedTo(k: KState, m: nat, u: nat, k': KState)
    requires WF(k) && m < |k.mtxs| && u < |k.tasks|
  {
    && k.tasks[u].wobj.OnMutex? && k.tasks[u].wobj.m < |k.mtxs|
    && (k.mtxs[m].protocol != VINHERIT ==> k.tasks[u].wobj.m == m)
    && k'.mtxs == GivenTo(k.mtxs[m := Free(k.mtxs[m])], k.tasks[u].wobj.m, u)
    && k'.virt == (if k.mtxs[m].protocol == VINHERIT then k.virt.(owner := u) else k.virt)
    && k'.high == ListLeft(k, m) && BothReady(k, k', ResetTo(k, m), u) && SameSems(k, k')
  }

  /** k1 is k with the caller at the priority it has after giving up m. */
  ghost predicate Lowered(k: KState, m: nat, k1: KState)
    requires WF(k) && m < |k.mtxs|
  {
    CallerAt(k, k1, ResetTo(k, m)) && k1.high == ListLeft(k, m)
  }

  lemma LoweredEffect(k: KState, m: nat)
    requires OutOf(k) && m < |k.mtxs|
    ensures k.mtxs[m].protocol == VOIDPCL ==> Lowered(k, m, k)
    ensures k.mtxs[m].protocol == INHERIT || k.mtxs[m].protocol == VINHERIT ==> Lowered(k, m, RestorePri(k))
    ensures k.mtxs[m].protocol == IMHIGHLOC ==> Lowered(k, m, LowerHigh(k, m))
  {
    hide QueuesOk, RestorePri, LowerHigh;
    RestoreCaller(k);
    var tk := k.tasks[k.cur];
    assert tk.(pri := tk.pri) == tk;
    if k.mtxs[m].protocol == IMHIGHLOC { HighLowered(k, m); }
  }

  lemma HighLowered(k: KState, m: nat)
    requires OutOf(k) && m < |k.mtxs| && k.mtxs[m].protocol == IMHIGHLOC
    ensures Lowered(k, m, LowerHigh(k, m))
  {
    hide QueuesOk, IchgPri, ListedPri, Settled;
    var tk := k.tasks[k.cur];
    assert tk.(pri := tk.pri) == tk;
    if tk.pri != tk.initPri {
      UnlistOthers(k.high, m);
      var k1 := k.(high := Unlist(k.high, m));
      SameListed(k, k1, k1.high);
      ListedPriBound(k1, k1.cur, k1.high);
      CallerInRange(k);
      CallerPri(k1, ListedPri(k1, k1.cur, k1.high));
    }
  }

  lemma {:induction false} SameListed(k: KState, k1: KState, list: seq<nat>)
    requires k.cur < |k.tasks| && forall i | 0 <= i < |list| :: list[i] < |k.mtxs|
    requires k1.tasks == k.tasks && k1.mtxs == k.mtxs && k1.cur == k.cur
    ensures ListedPri(k1, k1.cur, list) == ListedPri(k, k.cur, list)
  {
    if list != [] { SameListed(k, k1, list[..|list| - 1]); }
  }

  /** The release of a mutex that is not VINHERIT. */
  lemma ReleaseEffect(k: KState, m: nat, k1: KState, i: nat)
    requires OutOf(k) && LocksOk(k) && m < |k.mtxs| && k.mtxs[m].protocol != VINHERIT && Lowered(k, m, k1)
    requires k.mtxs[m].owner == k.cur && k.mtxs[m].locks == 1
    ensures k.q[MtxQ(m)] == [] ==> Freed(k, m, Release(k1, m))
    ensures i < |k.q[MtxQ(m)]| && Serves(k.tasks, k.mtxs[m].order, k.q[MtxQ(m)], i) ==>
              k.q[MtxQ(m)][i] < |k.tasks| && HandedTo(k, m, k.q[MtxQ(m)][i], Release(k1, m))
  {
    hide QueuesOk, Requeued, LocksOk, Place, Serves, Wake, PutCurrent;
    LockOwner(k, m);
    LockQueues(k, m);
    PutBackEffect(k1);
    CallerBackFrom(k, k1, PutCurrent(k1), ResetTo(k, m));
    if i < |k.q[MtxQ(m)]| && Serves(k.tasks, k.mtxs[m].order, k.q[MtxQ(m)], i) {
      BothReadyEffect(k, PutCurrent(k1), ResetTo(k, m), MtxQ(m), i, k.mtxs[m].order);
      MtxWaiter(k, m, i);
      var k2 := PutCurrent(Wake(PutCurrent(k1), MtxQ(m), k.mtxs[m].order));
      StillReady(k, k2, Release(k1, m), ResetTo(k, m), k2.cur);
      GivenOn(k.mtxs, m, k2.cur);
    }
    if k.q[MtxQ(m)] == [] {
      QueueKept(k, PutCurrent(k1), ResetTo(k, m), MtxQ(m));
      SamePlaces(k, k, PutCurrent(k1), Release(k1, m), k.cur, k.cur);
    }
  }

  /** Handed straight on, a mutex differs in its owner alone. */
  lemma GivenOn(mtxs: seq<Mutex>, m: nat, u: nat)
    requires m < |mtxs| && mtxs[m].value == 1 && mtxs[m].locks == 1
    ensures GivenTo(mtxs[m := Free(mtxs[m])], m, u) == mtxs[m := mtxs[m].(owner := u)]
  {
    assert Free(mtxs[m]).(value := 1, locks := 1, owner := u) == mtxs[m].(owner := u);
  }

  lemma MtxWaiter(k: KState, m: nat, i: nat)
    requires WF(k) && MtxQ(m) in k.q && i < |k.q[MtxQ(m)]|
    ensures k.q[MtxQ(m)][i] < |k.tasks| && k.tasks[k.q[MtxQ(m)][i]].wobj == OnMutex(m)
  {
    assert QueueOk(k.tasks, k.q[MtxQ(m)], MtxQ(m));
  }

  /** PutCurrent does not look at the locks. */
  lemma PutCurrentElse(k: KState, k': KState)
    requires OutOf(k) && OutOf(k') && k' == k.(mtxs := k'.mtxs, virt := k'.virt) && |k'.mtxs| == |k.mtxs|
    ensures PutCurrent(k') == PutCurrent(k).(mtxs := k'.mtxs, virt := k'.virt)
  {
  }

  /** The release of the virtual mutex together with m. */
  lemma GiveUpEffect(k: KState, m: nat, i: nat)
    requires OutOf(k) && LocksOk(k) && m < |k.mtxs| && k.mtxs[m].protocol == VINHERIT && !KeepsVirtual(k, m)
    requires k.mtxs[m].owner == k.cur && k.mtxs[m].locks == 1 && VirtQ in k.q
    ensures k.q[VirtQ] == [] ==> Freed(k, m, GiveUpBoth(k, m))
    ensures i < |k.q[VirtQ]| && Serves(k.tasks, k.virt.order, k.q[VirtQ], i) ==>
              k.q[VirtQ][i] < |k.tasks| && HandedTo(k, m, k.q[VirtQ][i], GiveUpBoth(k, m))
  {
    hide QueuesOk, Requeued, LocksOk, Place, Serves, Wake, PutCurrent, RestorePri;
    LockOwner(k, m);
    LockQueues(k, m);
    RestoreCaller(k);
    var k1 := RestorePri(k);
    PutBackEffect(k1);
    var k2 := PutCurrent(k1);
    CallerBackFrom(k, k1, k2, ResetTo(k, m));
    QueueKept(k, k2, ResetTo(k, m), VirtQ);
    if k.q[VirtQ] == [] {
      VirtualHeld(k, m);
      SamePlaces(k, k, k2, GiveUpBoth(k, m), k.cur, k.cur);
    } else if i < |k.q[VirtQ]| && Serves(k.tasks, k.virt.order, k.q[VirtQ], i) {
      BothReadyEffect(k, k2, ResetTo(k, m), VirtQ, i, k.virt.order);
      WaitersKept(k, k2, ResetTo(k, m), VirtQ, i, k.virt.order);
      HandedEffect(k, m, k2, i);
    }
  }

  lemma VirtualHeld(k: KState, m: nat)
    requires LocksOk(k) && m < |k.mtxs| && k.mtxs[m].protocol == VINHERIT && k.mtxs[m].owner != NO_OWNER
    ensures k.virt.value == 1 && k.virt.locks >= 1 && k.virt.owner == k.mtxs[m].owner
  {
    assert VirtOk(k) && Counted(k.mtxs[m]) == 1;
    CountUpdate(k.mtxs, m, k.mtxs[m]);
  }

  /** k2 is k with the caller back at its initial priority; u is the waiter served. */
  lemma HandedEffect(k: KState, m: nat, k2: KState, i: nat)
    requires OutOf(k) && LocksOk(k) && m < |k.mtxs| && k.mtxs[m].protocol == VINHERIT
    requires AtRest(k2) && SameMtxs(k, k2) && SameSems(k, k2)
    requires VirtQ in k.q && VirtQ in k2.q && k2.q[VirtQ] == k.q[VirtQ] && i < |k2.q[VirtQ]|
    requires Serves(k2.tasks, k2.virt.order, k2.q[VirtQ], i)
    requires k.q[VirtQ][i] < |k.tasks| == |k2.tasks| && k2.tasks[k.q[VirtQ][i]] == k.tasks[k.q[VirtQ][i]]
    requires var k3 := Wake(k2, VirtQ, k2.virt.order); OutOf(k3) && SameMtxs(k, k3) && k3.cur == k.q[VirtQ][i]
    requires var k3 := PutCurrent(Wake(k2, VirtQ, k2.virt.order));
             k3.cur == k.q[VirtQ][i] && BothReady(k, k3, ResetTo(k, m), k3.cur) && SameMtxs(k, k3) && SameSems(k, k3)
    ensures HandedTo(k, m, k.q[VirtQ][i], PutVirtualWait(k2, m))
  {
    hide QueuesOk, BothReady, LocksOk, Serves, PutCurrent, Wake, HandOver, LocFirst, WokenWants;
    var u := k.q[VirtQ][i];
    ServedWants(k2, i);
    var k3 := Wake(k2, VirtQ, k2.virt.order);
    GivenFirst(k3, WokenWants(k2), m);
    StillReady(k, PutCurrent(k3), PutVirtualWait(k2, m), ResetTo(k, m), u);
  }

  /** The waiter that is served gets the mutex that it was waiting for, whichever was released. */
  lemma GivenWaiter(k: KState, m: nat, i: nat)
    requires AtRest(k) && m < |k.mtxs| && VirtQ in k.q && i < |k.q[VirtQ]|
    requires Serves(k.tasks, k.virt.order, k.q[VirtQ], i)
    ensures var k', u := PutVirtualWait(k, m), k.q[VirtQ][i];
            && k.tasks[u].wobj.OnMutex? && k.tasks[u].wobj.m < |k.mtxs|
            && k'.mtxs == GivenTo(k.mtxs[m := Free(k.mtxs[m])], k.tasks[u].wobj.m, u)
            && k'.virt == k.virt.(owner := u)
            && k'.tasks == k.tasks[u := k.tasks[u].(state := {READY}, wobj := NoObject)]
  {
    hide QueuesOk, Serves, PutCurrent, Wake, HandOver, LocFirst, WokenWants;
    ServedWants(k, i);
    WokenEffect(k, VirtQ, i, k.virt.order);
    GivenFirst(Wake(k, VirtQ, k.virt.order), WokenWants(k), m);
  }

  /** Current, just woken, locks mutex w in place of m. */
  lemma GivenFirst(k: KState, w: nat, m: nat)
    requires OutOf(k) && w < |k.mtxs| && m < |k.mtxs|
    ensures var k', k1 := LocFirst(HandOver(k, w, m), w), PutCurrent(k);
            && k'.tasks == k1.tasks && k'.q == k1.q && SameSems(k1, k') && k'.high == k1.high
            && k'.mtxs == GivenTo(k.mtxs[m := Free(k.mtxs[m])], w, k.cur) && k'.virt == k.virt.(owner := k.cur)
  {
    hide QueuesOk, PutCurrent;
    var k4 := HandOver(k, w, m);
    PutCurrentElse(k, k4);
    GivenOver(k, m, w, k.cur, k4.mtxs);
  }

  /** The writes of a hand-over. */
  lemma GivenOver(k: KState, m: nat, w: nat, u: nat, mtxs: seq<Mutex>)
    requires m < |k.mtxs| && w < |k.mtxs|
    requires var ready := k.mtxs[w := k.mtxs[w].(value := 0, locks := 0)];
             mtxs == if w != m then ready[m := Free(ready[m])] else ready
    ensures GivenTo(k.mtxs[m := Free(k.mtxs[m])], w, u) == mtxs[w := mtxs[w].(value := 1, locks := 1, owner := u)]
  {
    assert k.mtxs[m := Free(k.mtxs[m])][w].(value := 1, locks := 1, owner := u)
        == mtxs[w].(value := 1, locks := 1, owner := u);
  }

  lemma ServedWants(k: KState, i: nat)
    requires AtRest(k) && VirtQ in k.q && i < |k.q[VirtQ]| && Serves(k.tasks, k.virt.order, k.q[VirtQ], i)
    ensures k.q[VirtQ][i] < |k.tasks| && k.tasks[k.q[VirtQ][i]].wobj == OnMutex(WokenWants(k))
  {
    WaitersExist(k, VirtQ);
    assert QueueOk(k.tasks, k.q[VirtQ], VirtQ);
    ServesPick(k.tasks, k.virt.order, k.q[VirtQ], i);
  }

  /** Mutex m is free, the virtual mutex counts one less. */
  ghost predicate OneLess(k: KState, m: nat, k': KState)
    requires k.cur < |k.tasks| && m < |k.mtxs|
  {
    && k'.mtxs == k.mtxs[m := Free(k.mtxs[m])] && k'.virt == k.virt.(locks := k.virt.locks - 1)
    && Untouched(k, k'.(mtxs := k.mtxs, virt := k.virt))
  }

  /** Mutex m is handed to the waiter of w that is to be served, or is free if there is none. */
  ghost predicate HandedOn(k: KState, m: nat, w: seq<nat>, k': KState)
    requires WF(k) && m < |k.mtxs|
  {
    && (w == [] ==> Freed(k, m, k'))
    && forall i | 0 <= i < |w| && Serves(k.tasks, Waiters(k, m).1, w, i) :: HandedTo(k, m, w[i], k')
  }

  lemma PlainUnlockEffect(k: KState, m: nat)
    requires OutOf(k) && LocksOk(k) && m < |k.mtxs| && k.mtxs[m].protocol != VINHERIT && MtxQ(m) in k.q
    requires k.mtxs[m].owner == k.cur && k.mtxs[m].locks == 1
    ensures k.mtxs[m].protocol == VOIDPCL ==> HandedOn(k, m, k.q[MtxQ(m)], UnlVoid(k, m).k)
    ensures k.mtxs[m].protocol == INHERIT ==> HandedOn(k, m, k.q[MtxQ(m)], UnlInher(k, m).k)
    ensures k.mtxs[m].protocol == IMHIGHLOC ==> HandedOn(k, m, k.q[MtxQ(m)], UnlImHigh(k, m).k)
  {
    hide QueuesOk, LocksOk, Freed, HandedTo, Serves, RestorePri, LowerHigh, Release;
    LoweredEffect(k, m);
    var k1 := if k.mtxs[m].protocol == VOIDPCL then k
              else if k.mtxs[m].protocol == INHERIT then RestorePri(k) else LowerHigh(k, m);
    ReleaseEffect(k, m, k1, 0);
    forall i | 0 <= i < |k.q[MtxQ(m)]| && Serves(k.tasks, Waiters(k, m).1, k.q[MtxQ(m)], i)
      ensures k.q[MtxQ(m)][i] < |k.tasks| && HandedTo(k, m, k.q[MtxQ(m)][i], Release(k1, m))
    {
      ReleaseEffect(k, m, k1, i);
    }
  }

  lemma VirtualUnlockEffect(k: KState, m: nat)
    requires OutOf(k) && LocksOk(k) && m < |k.mtxs| && k.mtxs[m].protocol == VINHERIT && VirtQ in k.q
    requires k.mtxs[m].owner == k.cur && k.mtxs[m].locks == 1
    ensures UnlVinher(k, m).er == E_OK
    ensures if KeepsVirtual(k, m) then OneLess(k, m, UnlVinher(k, m).k)
            else HandedOn(k, m, k.q[VirtQ], UnlVinher(k, m).k)
  {
    hide QueuesOk, LocksOk, Freed, HandedTo, Serves, GiveUpBoth, Requeued, PutCurrent;
    VirtualHeld(k, m);
    LockOwner(k, m);
    if KeepsVirtual(k, m) {
      PutBackEffect(k);
      SamePlaces(k, k, PutCurrent(k), UnlVinher(k, m).k.(mtxs := k.mtxs, virt := k.virt), k.cur, k.cur);
    } else {
      GiveUpEffect(k, m, 0);
      forall i | 0 <= i < |k.q[VirtQ]| && Serves(k.tasks, k.virt.order, k.q[VirtQ], i)
        ensures k.q[VirtQ][i] < |k.tasks| && HandedTo(k, m, k.q[VirtQ][i], GiveUpBoth(k, m))
      {
        GiveUpEffect(k, m, i);
      }
    }
  }

  lemma CountedUnlockEffect(k: KState, m: nat)
    requires OutOf(k) && LocksOk(k) && Reaches(k, m) && (k.mtxs[m].owner != k.cur || k.mtxs[m].locks > 1)
    ensures var r, mx := Dispatch(k, UnlMtx(m)), k.mtxs[m];
            if mx.owner != k.cur then r.er == E_ILUSE && Untouched(k, r.k)
            else r.er == E_OK && Recounted(k, m, mx.locks - 1, r.k)
  {
    hide QueuesOk, LocksOk, Requeued;
    PutBackEffect(k);
    CountEffect(k, m);
    LockOwner(k, m);
    if k.mtxs[m].protocol == VINHERIT && k.mtxs[m].owner != NO_OWNER { VirtualHeld(k, m); }
  }

  lemma LocksRange(k: KState, m: nat)
    requires LocksOk(k) && m < |k.mtxs|
    ensures 0 <= k.mtxs[m].locks <= k.mtxs[m].maxlocks
  {
    assert MtxOk(k, m);
  }

  /** An unlock call, whatever the protocol, on a mutex that exists: refused unless the caller owns it; one lock
      less, or, at the last one, the mutex is handed to the waiter to be served or is free. */
  lemma UnlockEffect(k: KState, m: nat)
    requires OutOf(k) && LocksOk(k) && !k.halted && Reaches(k, m)
    ensures Waiters(k, m).0 in k.q
    ensures var r, mx := Dispatch(k, UnlMtx(m)), k.mtxs[m];
            && r.er == (if mx.owner == k.cur then E_OK else E_ILUSE)
            && (mx.owner != k.cur ==> Untouched(k, r.k))
            && (mx.owner == k.cur && mx.locks > 1 ==> Recounted(k, m, mx.locks - 1, r.k))
            && (mx.owner == k.cur && mx.locks <= 1 ==>
                  mx.locks == 1 && if KeepsVirtual(k, m) then OneLess(k, m, r.k)
                                   else HandedOn(k, m, k.q[Waiters(k, m).0], r.k))
  {
    hide QueuesOk, LocksOk, Untouched, Recounted, OneLess, HandedOn, PutCurrent, GiveUpBoth, Release;
    LockQueues(k, m);
    LockOwner(k, m);
    LocksRange(k, m);
    if k.mtxs[m].owner != k.cur || k.mtxs[m].locks > 1 { CountedUnlockEffect(k, m); }
    else if k.mtxs[m].protocol == VINHERIT { VirtualUnlockEffect(k, m); }
    else { PlainUnlockEffect(k, m); }
  }

  /** The last unlock of the virtual mutex, in particular: the waiter that is served owns the mutex it asked
      for, locked once, and is ready, and the mutex that was unlocked is free unless it is the same one. */
  lemma HandOverNames(k: KState, m: nat)
    requires OutOf(k) && LocksOk(k) && !k.halted && Reaches(k, m) && k.mtxs[m].protocol == VINHERIT
    requires k.virt.owner == k.cur && k.virt.locks == 1 && k.mtxs[m].locks == 1 && k.q[VirtQ] != []
    ensures forall i | 0 <= i < |k.q[VirtQ]| :: k.q[VirtQ][i] < |k.tasks|
    ensures var t, k' := k.q[VirtQ][Pick(k.tasks, k.virt.order, k.q[VirtQ])], UnlVinher(k, m).k;
            && |k'.mtxs| == |k.mtxs| && |k'.tasks| == |k.tasks| && k.tasks[t].wobj.OnMutex?
            && var w := k.tasks[t].wobj.m;
               w < |k.mtxs| && k'.mtxs[w] == k.mtxs[w].(value := 1, locks := 1, owner := t)
               && (w != m ==> FreshMutex(k'.mtxs[m])) && k'.tasks[t].state == {READY} && k'.virt.owner == t
  {
    hide QueuesOk, LocksOk, Requeued, Freed, HandedTo, UnlVinher;
    LockQueues(k, m);
    WaitersExist(k, VirtQ);
    LockOwner(k, m);
    VirtualHeld(k, m);
    var i := Pick(k.tasks, k.virt.order, k.q[VirtQ]);
    ServesPick(k.tasks, k.virt.order, k.q[VirtQ], i);
    UnlockEffect(k, m);
    HandedFields(k, m, k.q[VirtQ][i], UnlVinher(k, m).k);
  }

  lemma HandedFields(k: KState, m: nat, u: nat, k': KState)
    requires WF(k) && m < |k.mtxs| && k.mtxs[m].protocol == VINHERIT && u < |k.tasks| && HandedTo(k, m, u, k')
    ensures k.tasks[u].wobj.OnMutex?
    ensures var w := k.tasks[u].wobj.m;
            && |k'.mtxs| == |k.mtxs| && |k'.tasks| == |k.tasks| && w < |k.mtxs|
            && k'.mtxs[w] == k.mtxs[w].(value := 1, locks := 1, owner := u) && (w != m ==> FreshMutex(k'.mtxs[m]))
            && k'.tasks[u].state == {READY} && k'.virt.owner == u
  {
  }
}
