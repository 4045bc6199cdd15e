/** Immediate highest locker: the priority a task runs at while it holds mutexes with ceilings. */
module HighestLocker {
  import opened KernelState
  import opened KernelCalls
  import opened LockInvariants
  import opened PriorityFrames

  // ---- What the list of raised mutexes says ----------------------------------------------------

  ghost predicate Owns(k: KState, t: nat, m: nat) {
    m < |k.mtxs| && k.mtxs[m].owner == t
  }

  /** p is the best of the initial priority of t and the ceilings of the mutexes in list it owns. */
  ghost predicate IsListedBest(k: KState, t: nat, list: seq<nat>, p: int)
    requires t < |k.tasks|
  {
    && p <= k.tasks[t].initPri
    && (forall m | m in list && Owns(k, t, m) :: p <= k.mtxs[m].ceiling)
    && (p == k.tasks[t].initPri || exists m :: m in list && Owns(k, t, m) && k.mtxs[m].ceiling == p)
  }

  /** The loop over the list computes exactly that. */
  lemma {:induction false} ListedPriBest(k: KState, t: nat, list: seq<nat>)
    requires t < |k.tasks| && forall i | 0 <= i < |list| :: list[i] < |k.mtxs|
    ensures IsListedBest(k, t, list, ListedPri(k, t, list))
  {
    if list != [] {
      var n := |list| - 1;
      ListedPriBest(k, t, list[..n]);
      assert list == list[..n] + [list[n]];
    }
  }

  /** The mutexes on the list are owned, and each raised its owner when it was locked; every task runs
      at the best of its initial priority and the ceilings of its listed mutexes. */
  ghost predicate ListLaw(k: KState) {
    && (forall m | m in k.high :: m < |k.mtxs| && 0 <= k.mtxs[m].owner < |k.tasks|
                                  && k.mtxs[m].ceiling < k.tasks[k.mtxs[m].owner].initPri)
    && (forall t | 0 <= t < |k.tasks| :: IsListedBest(k, t, k.high, k.tasks[t].pri))
  }

  predicate AllHigh(k: KState) {
    forall m | 0 <= m < |k.mtxs| :: k.mtxs[m].protocol == IMHIGHLOC
  }

  /** A lock of m is not the first lock of a mutex with a negative ceiling: to that no task is raised. */
  predicate CanRaise(k: KState, m: nat)
    requires m < |k.mtxs|
  {
    k.mtxs[m].owner == NO_OWNER ==> k.mtxs[m].ceiling >= 0
  }

  lemma ListFrame(k: KState, k': KState)
    requires ListLaw(k) && SamePris(k.(mtxs := k'.mtxs), k') && |k'.mtxs| == |k.mtxs|
    requires forall m | 0 <= m < |k.mtxs| ::
               k'.mtxs[m].ceiling == k.mtxs[m].ceiling && (m in k.high ==> k'.mtxs[m].owner == k.mtxs[m].owner)
    ensures ListLaw(k')
  {
    forall t | 0 <= t < |k'.tasks| ensures IsListedBest(k', t, k'.high, k'.tasks[t].pri) {
      assert SamePri(k.tasks[t], k'.tasks[t]) && IsListedBest(k, t, k.high, k.tasks[t].pri);
      if k.tasks[t].pri != k.tasks[t].initPri {
        var m :| m in k.high && Owns(k, t, m) && k.mtxs[m].ceiling == k.tasks[t].pri;
        assert m in k'.high && Owns(k', t, m);
      }
    }
    forall m | m in k'.high
      ensures m < |k'.mtxs| && 0 <= k'.mtxs[m].owner < |k'.tasks|
      ensures k'.mtxs[m].ceiling < k'.tasks[k'.mtxs[m].owner].initPri
    {
      assert SamePri(k.tasks[k.mtxs[m].owner], k'.tasks[k.mtxs[m].owner]);
    }
  }

  // ---- Lock ------------------------------------------------------------------------------------

  /** Locking keeps the law if and only if it is not the first lock of a mutex with a negative ceiling. */
  lemma LocImHighList(k: KState, m: nat)
    requires OutOf(k) && LocksOk(k) && ListLaw(k) && m < |k.mtxs|
    ensures k.mtxs[m].owner == NO_OWNER ==> m !in k.high
    ensures !Relists(k, m) && (ListLaw(LocImHigh(k, m).k) <==> CanRaise(k, m))
  {
    if CanRaise(k, m) { LockKeepsList(k, m); } else { NegativeFails(k, m); }
  }

  /** A negative ceiling is listed, but the priority stays what it was. */
  lemma NegativeFails(k: KState, m: nat)
    requires OutOf(k) && LocksOk(k) && m < |k.mtxs| && !CanRaise(k, m) && m !in k.high
    ensures !ListLaw(LocImHigh(k, m).k) && !HeldLaw(LocImHigh(k, m).k)
  {
    assert RecordOk(|k.mtxs|, k.tasks[k.cur]) && MtxOk(k, m);
    var k1 := PutHigh(k, m);
    IchgPriTasks(k1, k.cur, k.mtxs[m].ceiling);
    var k2 := IchgPri(k1, k.cur, k.mtxs[m].ceiling);
    LocFirstPris(k2, m);
    var k' := LocFirst(k2, m);
    assert SamePri(k2.tasks[k.cur], k'.tasks[k.cur]);
    assert Owns(k', k.cur, m) && m == k'.high[0];
    assert k'.tasks[k.cur].pri >= 0 > k'.mtxs[m].ceiling;
    assert !IsListedBest(k', k.cur, k'.high, k'.tasks[k.cur].pri);
  }

  lemma LockKeepsList(k: KState, m: nat)
    requires OutOf(k) && LocksOk(k) && ListLaw(k) && m < |k.mtxs| && CanRaise(k, m)
    ensures ListLaw(LocImHigh(k, m).k)
  {
    hide LocksOk;
    var owner := k.mtxs[m].owner;
    var k' := LocImHigh(k, m).k;
    if owner == k.cur {
      RecursivePris(k, m);
      ListFrame(k, k');
    } else if owner != NO_OWNER {
      WaitOnEffect(k, MtxQ(m), WAIT_MUTEX, OnMutex(m));
      WaitList(k, k');
    } else if k.tasks[k.cur].pri > k.mtxs[m].ceiling {
      RaiseList(k, m);
    } else {
      FirstUnraised(k, m);
    }
  }

  lemma FirstUnraised(k: KState, m: nat)
    requires OutOf(k) && LocksOk(k) && ListLaw(k) && m < |k.mtxs|
    requires k.mtxs[m].owner == NO_OWNER && k.tasks[k.cur].pri <= k.mtxs[m].ceiling
    ensures ListLaw(LocImHigh(k, m).k)
  {
    assert MtxOk(k, m);
    LocFirstPris(k, m);
    ListFrame(k, LocImHigh(k, m).k);
  }

  lemma WaitList(k: KState, k': KState)
    requires ListLaw(k) && k'.mtxs == k.mtxs && k'.high == k.high && |k'.tasks| == |k.tasks|
    requires forall t | 0 <= t < |k.tasks| :: SamePri(k.tasks[t], k'.tasks[t])
    ensures ListLaw(k')
  {
    forall t | 0 <= t < |k'.tasks| ensures IsListedBest(k', t, k'.high, k'.tasks[t].pri) {
      assert SamePri(k.tasks[t], k'.tasks[t]) && IsListedBest(k, t, k.high, k.tasks[t].pri);
      if k.tasks[t].pri != k.tasks[t].initPri {
        var m :| m in k.high && Owns(k, t, m) && k.mtxs[m].ceiling == k.tasks[t].pri;
        assert m in k'.high && Owns(k', t, m);
      }
    }
    forall m | m in k'.high ensures k'.mtxs[m].ceiling < k'.tasks[k'.mtxs[m].owner].initPri {
      assert SamePri(k.tasks[k.mtxs[m].owner], k'.tasks[k.mtxs[m].owner]);
    }
  }

  /** k' is k after cur first-locked m, raised to its ceiling. */
  ghost predicate Raised(k: KState, m: nat, k': KState)
    requires k.cur < |k.tasks| && m < |k.mtxs|
  {
    && |k'.tasks| == |k.tasks| && k'.high == [m] + k.high
    && (forall t | 0 <= t < |k.tasks| :: k'.tasks[t].initPri == k.tasks[t].initPri)
    && (forall t | 0 <= t < |k.tasks| && t != k.cur :: k'.tasks[t].pri == k.tasks[t].pri)
    && k'.tasks[k.cur].pri == k.mtxs[m].ceiling
    && |k'.mtxs| == |k.mtxs| && k'.mtxs[m].owner == k.cur
    && (forall i | 0 <= i < |k.mtxs| :: k'.mtxs[i].ceiling == k.mtxs[i].ceiling)
    && (forall i | 0 <= i < |k.mtxs| && i != m :: k'.mtxs[i].owner == k.mtxs[i].owner)
  }

  lemma RaiseEffect(k: KState, m: nat)
    requires OutOf(k) && LocksOk(k) && m < |k.mtxs| && k.mtxs[m].owner == NO_OWNER && m !in k.high
    requires 0 <= k.mtxs[m].ceiling < k.tasks[k.cur].pri
    ensures Raised(k, m, LocImHigh(k, m).k)
  {
    var k1 := PutHigh(k, m);
    assert MtxOk(k, m) && RecordOk(|k.mtxs|, k.tasks[k.cur]);
    IchgPriEffect(k1, k.cur, k.mtxs[m].ceiling);
    var k2 := IchgPri(k1, k.cur, k.mtxs[m].ceiling);
    LocFirstPris(k2, m);
    var k' := LocFirst(k2, m);
    forall t | 0 <= t < |k.tasks|
      ensures k'.tasks[t].initPri == k2.tasks[t].initPri && k'.tasks[t].pri == k2.tasks[t].pri
    {
      assert SamePri(k2.tasks[t], k'.tasks[t]);
    }
  }

  lemma RaiseList(k: KState, m: nat)
    requires OutOf(k) && LocksOk(k) && ListLaw(k) && m < |k.mtxs|
    requires k.mtxs[m].owner == NO_OWNER && 0 <= k.mtxs[m].ceiling < k.tasks[k.cur].pri
    ensures m !in k.high && ListLaw(LocImHigh(k, m).k)
  {
    assert IsListedBest(k, k.cur, k.high, k.tasks[k.cur].pri);
    RaiseEffect(k, m);
    RaisedList(k, m, LocImHigh(k, m).k);
  }

  lemma RaisedList(k: KState, m: nat, k': KState)
    requires k.cur < |k.tasks| && m < |k.mtxs| && ListLaw(k) && Raised(k, m, k')
    requires k.mtxs[m].owner == NO_OWNER && m !in k.high && k.mtxs[m].ceiling < k.tasks[k.cur].pri
    ensures ListLaw(k')
  {
    forall t | 0 <= t < |k'.tasks| ensures IsListedBest(k', t, k'.high, k'.tasks[t].pri) {
      assert IsListedBest(k, t, k.high, k.tasks[t].pri);
      assert k'.high[0] == m;
      if t != k.cur && k.tasks[t].pri != k.tasks[t].initPri {
        var i :| i in k.high && Owns(k, t, i) && k.mtxs[i].ceiling == k.tasks[t].pri;
        assert i in k'.high && Owns(k', t, i);
      }
      if t == k.cur { assert Owns(k', t, m) && m in k'.high; }
      forall i | i in k'.high && Owns(k', t, i) ensures k'.tasks[t].pri <= k'.mtxs[i].ceiling {
        if i != m { assert i in k.high && Owns(k, t, i); }
      }
    }
    assert IsListedBest(k, k.cur, k.high, k.tasks[k.cur].pri);
  }

  // ---- Unlock ----------------------------------------------------------------------------------

  /** The priority that unlocking m leaves the caller at. */
  function PriAfter(k: KState, m: nat): (r: int)
    requires WF(k)
  {
    var tk := k.tasks[k.cur];
    if tk.pri == tk.initPri then tk.pri else ListedPri(k, k.cur, Unlist(k.high, m))
  }

  /** k' is k after cur gave up m: at priority p, m off the list and owned by w or free. */
  ghost predicate GivenUp(k: KState, m: nat, p: int, w: Option<nat>, k': KState)
    requires k.cur < |k.tasks| && m < |k.mtxs| && NoDup(k.high)
  {
    && |k'.tasks| == |k.tasks| && k'.high == Unlist(k.high, m)
    && (forall t | 0 <= t < |k.tasks| :: k'.tasks[t].initPri == k.tasks[t].initPri)
    && (forall t | 0 <= t < |k.tasks| && t != k.cur :: k'.tasks[t].pri == k.tasks[t].pri)
    && k'.tasks[k.cur].pri == p
    && |k'.mtxs| == |k.mtxs| && k'.mtxs[m].owner == (if w.Some? then w.value else NO_OWNER)
    && (forall i | 0 <= i < |k.mtxs| :: k'.mtxs[i].ceiling == k.mtxs[i].ceiling)
    && (forall i | 0 <= i < |k.mtxs| && i != m :: k'.mtxs[i].owner == k.mtxs[i].owner)
  }

  lemma {:induction false} ListedPriFrame(k: KState, k': KState, t: nat, list: seq<nat>)
    requires t < |k.tasks| && forall i | 0 <= i < |list| :: list[i] < |k.mtxs|
    requires k'.tasks == k.tasks && k'.mtxs == k.mtxs
    ensures ListedPri(k', t, list) == ListedPri(k, t, list)
  {
    if list != [] { ListedPriFrame(k, k', t, list[..|list| - 1]); }
  }

  lemma ListedPriInRange(k: KState, t: nat, list: seq<nat>)
    requires WF(k) && t < |k.tasks| && (forall i | 0 <= i < |list| :: list[i] < |k.mtxs| && list[i] in k.high)
    requires ListLaw(k)
    ensures PriInRange(ListedPri(k, t, list))
  {
    ListedPriBest(k, t, list);
    assert RecordOk(|k.mtxs|, k.tasks[t]) && IsListedBest(k, t, k.high, k.tasks[t].pri);
  }

  lemma LowerRaised(k: KState, m: nat)
    requires OutOf(k) && ListLaw(k) && m < |k.mtxs| && k.tasks[k.cur].pri != k.tasks[k.cur].initPri
    ensures OutOf(LowerHigh(k, m)) && LowerHigh(k, m).high == Unlist(k.high, m)
    ensures OnlyPri(k.(high := Unlist(k.high, m)), k.cur, PriAfter(k, m), LowerHigh(k, m))
  {
    var k1 := k.(high := Unlist(k.high, m));
    ListedPriFrame(k, k1, k.cur, k1.high);
    ListedPriInRange(k, k.cur, k1.high);
    IchgPriEffect(k1, k.cur, ListedPri(k1, k.cur, k1.high));
  }

  lemma LowerEffect(k: KState, m: nat)
    requires OutOf(k) && LocksOk(k) && ListLaw(k) && m < |k.mtxs| && k.mtxs[m].owner == k.cur
    ensures OutOf(LowerHigh(k, m)) && LowerHigh(k, m).high == Unlist(k.high, m)
    ensures OnlyPri(k.(high := Unlist(k.high, m)), k.cur, PriAfter(k, m), LowerHigh(k, m))
  {
    assert IsListedBest(k, k.cur, k.high, k.tasks[k.cur].pri);
    if k.tasks[k.cur].pri != k.tasks[k.cur].initPri {
      LowerRaised(k, m);
    } else {
      assert Owns(k, k.cur, m);
      assert m !in k.high;
    }
  }

  lemma UnlImHighEffect(k: KState, m: nat)
    requires OutOf(k) && LocksOk(k) && ListLaw(k) && m < |k.mtxs|
    requires k.mtxs[m].owner == k.cur && k.mtxs[m].locks == 1
    ensures GivenUp(k, m, PriAfter(k, m), Served(k, m), UnlImHigh(k, m).k)
  {
    LowerEffect(k, m);
    var k1 := LowerHigh(k, m);
    PutCurrentPris(k1);
    PutCurrentRests(k1);
    var k2 := PutCurrent(k1);
    LoweredFrame(k, m, k1, k2);
    if k.q[MtxQ(m)] == [] {
      ClearGivesUp(k, m, k2);
    } else {
      OutOfNoQueue(k, MtxQ(m));
      WokenGivesUp(k, m, k2);
    }
  }

  /** cur has its new priority and m is off the list; owners and wait queues are as they were. */
  ghost predicate Lowered(k: KState, m: nat, k': KState)
    requires WF(k)
  {
    && |k'.tasks| == |k.tasks| && k'.mtxs == k.mtxs && k'.high == Unlist(k.high, m)
    && (forall t | 0 <= t < |k.tasks| :: k'.tasks[t].initPri == k.tasks[t].initPri)
    && (forall t | 0 <= t < |k.tasks| && t != k.cur :: k'.tasks[t].pri == k.tasks[t].pri)
    && k'.tasks[k.cur].pri == PriAfter(k, m)
    && (forall i: nat | MtxQ(i) in k.q :: MtxQ(i) in k'.q && k'.q[MtxQ(i)] == k.q[MtxQ(i)])
  }

  lemma LoweredFrame(k: KState, m: nat, k1: KState, k2: KState)
    requires WF(k) && OnlyPri(k.(high := Unlist(k.high, m)), k.cur, PriAfter(k, m), k1) && SamePris(k1, k2)
    ensures Lowered(k, m, k2)
  {
    forall t | 0 <= t < |k.tasks|
      ensures k2.tasks[t].initPri == k1.tasks[t].initPri && k2.tasks[t].pri == k1.tasks[t].pri
    {
      assert SamePri(k1.tasks[t], k2.tasks[t]);
    }
  }

  lemma ClearGivesUp(k: KState, m: nat, k2: KState)
    requires WF(k) && AtRest(k2) && m < |k.mtxs| && k.q[MtxQ(m)] == [] && Lowered(k, m, k2)
    ensures GivenUp(k, m, PriAfter(k, m), Served(k, m), ClearOwnership(k2, m))
  {
  }

  lemma WokenGivesUp(k: KState, m: nat, k2: KState)
    requires WF(k) && AtRest(k2) && m < |k.mtxs| && k.q[MtxQ(m)] != [] && Lowered(k, m, k2)
    requires k.cur !in k.q[MtxQ(m)]
    ensures GivenUp(k, m, PriAfter(k, m), Served(k, m), PutMtxWait(k2, m))
  {
    var w := k.q[MtxQ(m)];
    assert QueueOk(k.tasks, w, MtxQ(m));
    SamePick(k.tasks, k2.tasks, k.mtxs[m].order, w);
    WokenMtx(k2, m);
    WokenHigh(k2, m);
    var k' := PutMtxWait(k2, m);
    forall t | 0 <= t < |k.tasks|
      ensures k'.tasks[t].initPri == k2.tasks[t].initPri && k'.tasks[t].pri == k2.tasks[t].pri
    {
      assert SamePri(k2.tasks[t], k'.tasks[t]);
    }
  }

  lemma WokenHigh(k: KState, m: nat)
    requires AtRest(k) && m < |k.mtxs| && k.q[MtxQ(m)] != []
    ensures PutMtxWait(k, m).high == k.high
  {
  }

  /** After an unlock every task again runs at the best of its initial priority and the ceilings of
      the listed mutexes it still owns. */
  lemma UnlImHighList(k: KState, m: nat)
    requires OutOf(k) && LocksOk(k) && ListLaw(k) && m < |k.mtxs|
    ensures ListLaw(UnlImHigh(k, m).k)
  {
    if k.mtxs[m].owner == k.cur && k.mtxs[m].locks == 1 {
      UnlImHighEffect(k, m);
      GivenUpList(k, m, Served(k, m), UnlImHigh(k, m).k);
    } else {
      RecursivePris(k, m);
      PutCurrentPris(k);
      ListFrame(k, UnlImHigh(k, m).k);
    }
  }

  lemma GivenUpList(k: KState, m: nat, w: Option<nat>, k': KState)
    requires WF(k) && ListLaw(k) && m < |k.mtxs| && k.mtxs[m].owner == k.cur
    requires GivenUp(k, m, PriAfter(k, m), w, k')
    ensures ListLaw(k')
  {
    hide IsListedBest;
    assert IsListedBest(k, k.cur, k.high, k.tasks[k.cur].pri);
    ListedPriBest(k, k.cur, Unlist(k.high, m));
    forall t | 0 <= t < |k'.tasks| ensures IsListedBest(k', t, k'.high, k'.tasks[t].pri) {
      OtherList(k, m, w, k', t);
    }
  }

  lemma OtherList(k: KState, m: nat, w: Option<nat>, k': KState, t: nat)
    requires WF(k) && ListLaw(k) && m < |k.mtxs| && k.mtxs[m].owner == k.cur && t < |k.tasks|
    requires GivenUp(k, m, PriAfter(k, m), w, k')
    requires IsListedBest(k, k.cur, Unlist(k.high, m), ListedPri(k, k.cur, Unlist(k.high, m)))
    ensures IsListedBest(k', t, k'.high, k'.tasks[t].pri)
  {
    assert IsListedBest(k, t, k.high, k.tasks[t].pri);
    var p := k'.tasks[t].pri;
    if p != k.tasks[t].initPri {
      var list := if t == k.cur then Unlist(k.high, m) else k.high;
      var i :| i in list && Owns(k, t, i) && k.mtxs[i].ceiling == p;
      assert i in k'.high && Owns(k', t, i);
    }
    forall i | i in k'.high && Owns(k', t, i) ensures p <= k'.mtxs[i].ceiling {
      assert i in k.high && Owns(k, t, i);
    }
  }

  // ---- All held mutexes, listed or not ---------------------------------------------------------

  /** No task runs at a worse priority than the ceiling of a mutex it holds. */
  ghost predicate HeldLaw(k: KState) {
    forall t: nat, m: nat | t < |k.tasks| && Owns(k, t, m) :: k.tasks[t].pri <= k.mtxs[m].ceiling
  }

  /** With the list law this makes the priority the best over everything the task holds. */
  lemma HeldIsBest(k: KState, t: nat)
    requires ListLaw(k) && HeldLaw(k) && t < |k.tasks|
    ensures var p := k.tasks[t].pri;
            && p <= k.tasks[t].initPri
            && (forall m: nat | Owns(k, t, m) :: p <= k.mtxs[m].ceiling)
            && (p == k.tasks[t].initPri || exists m: nat :: Owns(k, t, m) && k.mtxs[m].ceiling == p)
  {
    assert IsListedBest(k, t, k.high, k.tasks[t].pri);
  }

  /** Locking keeps the law if and only if it is not the first lock of a mutex with a negative ceiling. */
  lemma LockKeepsHeld(k: KState, m: nat)
    requires OutOf(k) && LocksOk(k) && ListLaw(k) && HeldLaw(k) && m < |k.mtxs|
    ensures k.mtxs[m].owner == NO_OWNER ==> m !in k.high
    ensures HeldLaw(LocImHigh(k, m).k) <==> CanRaise(k, m)
  {
    if !CanRaise(k, m) { NegativeFails(k, m); }
    else if k.mtxs[m].owner == NO_OWNER { FirstKeepsHeld(k, m); } else { NextKeepsHeld(k, m); }
  }

  lemma NextKeepsHeld(k: KState, m: nat)
    requires OutOf(k) && HeldLaw(k) && m < |k.mtxs| && k.mtxs[m].owner != NO_OWNER
    ensures HeldLaw(LocImHigh(k, m).k)
  {
    RecursivePris(k, m);
    if k.mtxs[m].owner != k.cur { WaitOnEffect(k, MtxQ(m), WAIT_MUTEX, OnMutex(m)); }
    HeldFrame(k, m, LocImHigh(k, m).k);
  }

  lemma FirstKeepsHeld(k: KState, m: nat)
    requires OutOf(k) && LocksOk(k) && HeldLaw(k) && m < |k.mtxs|
    requires k.mtxs[m].owner == NO_OWNER && m !in k.high && k.mtxs[m].ceiling >= 0
    ensures HeldLaw(LocImHigh(k, m).k)
  {
    if k.tasks[k.cur].pri > k.mtxs[m].ceiling {
      RaiseEffect(k, m);
      RaisedHeld(k, m, LocImHigh(k, m).k);
    } else {
      assert MtxOk(k, m);
      LocFirstPris(k, m);
      HeldFrame(k, m, LocImHigh(k, m).k);
    }
  }

  lemma RaisedHeld(k: KState, m: nat, k': KState)
    requires k.cur < |k.tasks| && m < |k.mtxs| && HeldLaw(k) && Raised(k, m, k')
    requires k.mtxs[m].ceiling < k.tasks[k.cur].pri
    ensures HeldLaw(k')
  {
    forall t: nat, i: nat | t < |k'.tasks| && Owns(k', t, i) ensures k'.tasks[t].pri <= k'.mtxs[i].ceiling {
      assert Owns(k, t, i) || i == m;
    }
  }

  lemma HeldFrame(k: KState, m: nat, k': KState)
    requires HeldLaw(k) && m < |k.mtxs| && k.cur < |k.tasks|
    requires |k'.tasks| == |k.tasks| && |k'.mtxs| == |k.mtxs|
    requires forall t | 0 <= t < |k.tasks| :: SamePri(k.tasks[t], k'.tasks[t])
    requires forall i | 0 <= i < |k.mtxs| :: k'.mtxs[i].ceiling == k.mtxs[i].ceiling
    requires forall i | 0 <= i < |k.mtxs| && i != m :: k'.mtxs[i].owner == k.mtxs[i].owner
    requires k'.mtxs[m].owner == k.mtxs[m].owner || k'.mtxs[m].owner < 0
             || (k'.mtxs[m].owner == k.cur && k.tasks[k.cur].pri <= k.mtxs[m].ceiling)
    ensures HeldLaw(k')
  {
    forall t: nat, i: nat | t < |k'.tasks| && Owns(k', t, i) ensures k'.tasks[t].pri <= k'.mtxs[i].ceiling {
      assert SamePri(k.tasks[t], k'.tasks[t]);
      assert Owns(k, t, i) || i == m;
    }
  }

  /** The caller was raised, and keeps an unlisted mutex whose ceiling is better than its initial
      priority and than the ceilings of all listed mutexes that it keeps. */
  ghost predicate Uncovered(k: KState, m: nat)
    requires k.cur < |k.tasks|
  {
    var tk := k.tasks[k.cur];
    tk.pri != tk.initPri &&
    exists i: nat ::
      && i != m && Owns(k, k.cur, i) && i !in k.high && k.mtxs[i].ceiling < tk.initPri
      && forall j | j in k.high && j != m && Owns(k, k.cur, j) :: k.mtxs[i].ceiling < k.mtxs[j].ceiling
  }

  /** A mutex the caller keeps has a better ceiling than the priority it falls back to. */
  ghost predicate FallsBelow(k: KState, m: nat)
    requires WF(k)
  {
    exists i: nat :: i != m && Owns(k, k.cur, i) && k.mtxs[i].ceiling < PriAfter(k, m)
  }

  lemma UncoveredFalls(k: KState, m: nat)
    requires WF(k) && HeldLaw(k)
    ensures Uncovered(k, m) <==> FallsBelow(k, m)
  {
    var tk, list := k.tasks[k.cur], Unlist(k.high, m);
    ListedPriBest(k, k.cur, list);
    if FallsBelow(k, m) {
      var i: nat :| i != m && Owns(k, k.cur, i) && k.mtxs[i].ceiling < PriAfter(k, m);
      assert tk.pri != tk.initPri;
      assert i in k.high ==> i in list;
      forall j | j in k.high && j != m && Owns(k, k.cur, j) ensures k.mtxs[i].ceiling < k.mtxs[j].ceiling {
        assert j in list;
      }
    }
  }

  /** The waiter that gets the mutex runs at the ceiling or better already: a hand-over does not
      raise it. */
  ghost predicate HandsOverRaised(k: KState, m: nat)
    requires WF(k) && m < |k.mtxs|
  {
    var w := Served(k, m);
    w.Some? ==> w.value < |k.tasks| && k.tasks[w.value].pri <= k.mtxs[m].ceiling
  }

  /** Unlocking keeps the law if and only if no mutex that the caller keeps without having it listed
      needs more than its initial priority and its other listed mutexes give, and a waiter that gets
      the mutex needs no raise. */
  lemma UnlockKeepsHeld(k: KState, m: nat)
    requires OutOf(k) && LocksOk(k) && ListLaw(k) && HeldLaw(k) && m < |k.mtxs|
    requires k.mtxs[m].owner == k.cur && k.mtxs[m].locks == 1
    ensures HeldLaw(UnlImHigh(k, m).k) <==> !Uncovered(k, m) && HandsOverRaised(k, m)
  {
    UnlImHighEffect(k, m);
    ServedOther(k, m);
    UncoveredFalls(k, m);
    GivenUpHeld(k, m, Served(k, m), UnlImHigh(k, m).k);
  }

  lemma ServedOther(k: KState, m: nat)
    requires OutOf(k) && m < |k.mtxs|
    ensures Served(k, m).Some? ==> Served(k, m).value < |k.tasks| && Served(k, m).value != k.cur
  {
    assert QueueOk(k.tasks, k.q[MtxQ(m)], MtxQ(m));
    OutOfNoQueue(k, MtxQ(m));
  }

  lemma GivenUpHeld(k: KState, m: nat, w: Option<nat>, k': KState)
    requires WF(k) && HeldLaw(k) && m < |k.mtxs| && k.mtxs[m].owner == k.cur
    requires w.Some? ==> w.value < |k.tasks| && w.value != k.cur
    requires GivenUp(k, m, PriAfter(k, m), w, k')
    ensures HeldLaw(k') <==> !FallsBelow(k, m) && (w.Some? ==> k.tasks[w.value].pri <= k.mtxs[m].ceiling)
  {
    if FallsBelow(k, m) {
      var i: nat :| i != m && Owns(k, k.cur, i) && k.mtxs[i].ceiling < PriAfter(k, m);
      assert Owns(k', k.cur, i);
      assert !HeldLaw(k');
    } else if w.Some? && k.tasks[w.value].pri > k.mtxs[m].ceiling {
      assert Owns(k', w.value, m);
      assert !HeldLaw(k');
    } else {
      forall t: nat, i: nat | t < |k'.tasks| && Owns(k', t, i) ensures k'.tasks[t].pri <= k'.mtxs[i].ceiling {
        if i != m { assert Owns(k, t, i); }
      }
    }
  }

  // ---- Last-in-first-out nesting ---------------------------------------------------------------

  /** Stack s holds the mutexes of task t in locking order, and every one that is not listed lies
      over a listed one with a ceiling as good, or has a ceiling no better than the task's own. */
  ghost predicate StackOk(k: KState, t: nat, s: seq<nat>)
    requires t < |k.tasks|
  {
    && NoDup(s)
    && (forall m: nat :: m in s <==> Owns(k, t, m))
    && (forall i | 0 <= i < |s| && s[i] !in k.high :: Covered(k, t, s, i))
  }

  ghost predicate Covered(k: KState, t: nat, s: seq<nat>, i: nat)
    requires t < |k.tasks| && i < |s|
  {
    && s[i] < |k.mtxs|
    && ( || k.tasks[t].initPri <= k.mtxs[s[i]].ceiling
         || (exists j :: 0 <= j < i && s[j] in k.high && s[j] < |k.mtxs|
                        && k.mtxs[s[j]].ceiling <= k.mtxs[s[i]].ceiling))
  }

  ghost predicate StacksOk(k: KState, h: seq<seq<nat>>) {
    |h| == |k.tasks| && forall t {:trigger StackOk(k, t, h[t])} | 0 <= t < |h| :: StackOk(k, t, h[t])
  }

  /** Giving up the last mutex locked never uncovers another one. */
  lemma LastInCovered(k: KState, h: seq<seq<nat>>, m: nat)
    requires WF(k) && ListLaw(k) && HeldLaw(k) && StacksOk(k, h) && m < |k.mtxs| && k.mtxs[m].owner == k.cur
    requires h[k.cur] != [] && h[k.cur][|h[k.cur]| - 1] == m
    ensures !Uncovered(k, m)
  {
    TopCovered(k, h[k.cur], m);
    UncoveredFalls(k, m);
  }

  lemma TopCovered(k: KState, s: seq<nat>, m: nat)
    requires WF(k) && HeldLaw(k) && StackOk(k, k.cur, s) && s != [] && s[|s| - 1] == m
    ensures !FallsBelow(k, m)
  {
    var list := Unlist(k.high, m);
    ListedPriBest(k, k.cur, list);
    forall i: nat | i != m && Owns(k, k.cur, i) ensures PriAfter(k, m) <= k.mtxs[i].ceiling {
      FallbackCovers(k, s, m, i);
    }
  }

  lemma FallbackCovers(k: KState, s: seq<nat>, m: nat, i: nat)
    requires WF(k) && HeldLaw(k) && StackOk(k, k.cur, s) && s != [] && s[|s| - 1] == m
    requires i != m && Owns(k, k.cur, i)
    requires IsListedBest(k, k.cur, Unlist(k.high, m), ListedPri(k, k.cur, Unlist(k.high, m)))
    ensures PriAfter(k, m) <= k.mtxs[i].ceiling
  {
    if i in k.high {
      assert i in Unlist(k.high, m);
    } else if k.tasks[k.cur].pri != k.tasks[k.cur].initPri {
      CoveredBy(k, s, i, m);
    }
  }

  /** An unlisted mutex below the top of the stack has a ceiling no better than the fallback. */
  lemma CoveredBy(k: KState, s: seq<nat>, i: nat, m: nat)
    requires WF(k) && k.cur < |k.tasks| && StackOk(k, k.cur, s) && s != [] && s[|s| - 1] == m
    requires Owns(k, k.cur, i) && i != m && i !in k.high
    requires IsListedBest(k, k.cur, Unlist(k.high, m), ListedPri(k, k.cur, Unlist(k.high, m)))
    ensures ListedPri(k, k.cur, Unlist(k.high, m)) <= k.mtxs[i].ceiling
  {
    var a :| 0 <= a < |s| && s[a] == i;
    assert Covered(k, k.cur, s, a);
    if k.tasks[k.cur].initPri > k.mtxs[i].ceiling {
      var b :| 0 <= b < a && s[b] in k.high && s[b] < |k.mtxs| && k.mtxs[s[b]].ceiling <= k.mtxs[i].ceiling;
      assert s[b] in Unlist(k.high, m) && Owns(k, k.cur, s[b]);
    }
  }

  lemma StackFrame(k: KState, k': KState, t: nat, s: seq<nat>)
    requires t < |k.tasks| && StackOk(k, t, s) && |k'.tasks| == |k.tasks| && |k'.mtxs| == |k.mtxs|
    requires k'.tasks[t].initPri == k.tasks[t].initPri
    requires forall i: nat :: Owns(k', t, i) <==> Owns(k, t, i)
    requires forall i: nat | i < |k.mtxs| :: k'.mtxs[i].ceiling == k.mtxs[i].ceiling
    requires forall i: nat | Owns(k, t, i) :: i in k'.high <==> i in k.high
    ensures StackOk(k', t, s)
  {
    forall i | 0 <= i < |s| && s[i] !in k'.high ensures Covered(k', t, s, i) {
      assert Owns(k, t, s[i]) && Covered(k, t, s, i);
      if k.tasks[t].initPri > k.mtxs[s[i]].ceiling {
        var j :| 0 <= j < i && s[j] in k.high && s[j] < |k.mtxs| && k.mtxs[s[j]].ceiling <= k.mtxs[s[i]].ceiling;
        assert s[j] in s && Owns(k, t, s[j]);
      }
    }
  }

  /** Task t comes to own m: on top of its stack. */
  lemma StackPush(k: KState, k': KState, t: nat, s: seq<nat>, m: nat)
    requires t < |k.tasks| && StackOk(k, t, s) && |k'.tasks| == |k.tasks| && |k'.mtxs| == |k.mtxs|
    requires m < |k.mtxs| && !Owns(k, t, m)
    requires k'.tasks[t].initPri == k.tasks[t].initPri
    requires forall i: nat :: Owns(k', t, i) <==> i == m || Owns(k, t, i)
    requires forall i: nat | i < |k.mtxs| :: k'.mtxs[i].ceiling == k.mtxs[i].ceiling
    requires forall i: nat | i != m :: i in k'.high <==> i in k.high
    requires m in k'.high || (IsListedBest(k, t, k.high, k.tasks[t].pri) && k.tasks[t].pri <= k.mtxs[m].ceiling)
    ensures StackOk(k', t, s + [m])
  {
    var s' := s + [m];
    assert m !in s;
    forall i: nat ensures i in s' <==> Owns(k', t, i) {
      assert i in s' <==> i in s || i == m;
    }
    forall i | 0 <= i < |s'| && s'[i] !in k'.high ensures Covered(k', t, s', i) {
      if i < |s| {
        assert s'[i] == s[i];
        assert Owns(k, t, s[i]) && Covered(k, t, s, i);
        if k.tasks[t].initPri > k.mtxs[s[i]].ceiling {
          var j :| 0 <= j < i && s[j] in k.high && s[j] < |k.mtxs| && k.mtxs[s[j]].ceiling <= k.mtxs[s[i]].ceiling;
          assert s'[j] == s[j] && s[j] in s;
        }
      } else if k.tasks[t].pri != k.tasks[t].initPri {
        var a :| a in k.high && Owns(k, t, a) && k.mtxs[a].ceiling == k.tasks[t].pri;
        assert a in s;
        var j :| 0 <= j < |s| && s[j] == a;
        assert s'[j] == a;
      }
    }
  }

  /** Task t gives up the mutex on top of its stack. */
  lemma StackPop(k: KState, k': KState, t: nat, s: seq<nat>)
    requires t < |k.tasks| && StackOk(k, t, s) && |k'.tasks| == |k.tasks| && |k'.mtxs| == |k.mtxs| && s != []
    requires k'.tasks[t].initPri == k.tasks[t].initPri
    requires forall i: nat :: Owns(k', t, i) <==> i != s[|s| - 1] && Owns(k, t, i)
    requires forall i: nat | i < |k.mtxs| :: k'.mtxs[i].ceiling == k.mtxs[i].ceiling
    requires forall i: nat | i != s[|s| - 1] :: i in k'.high <==> i in k.high
    ensures StackOk(k', t, s[..|s| - 1])
  {
    var n := |s| - 1;
    var s' := s[..n];
    assert s == s' + [s[n]];
    forall i: nat ensures i in s' <==> Owns(k', t, i) {
      assert i in s <==> i in s' || i == s[n];
      assert s[n] !in s';
    }
    forall i | 0 <= i < |s'| && s'[i] !in k'.high ensures Covered(k', t, s', i) {
      assert s'[i] == s[i] && s[i] != s[n] && Covered(k, t, s, i);
      if k.tasks[t].initPri > k.mtxs[s[i]].ceiling {
        var j :| 0 <= j < i && s[j] in k.high && s[j] < |k.mtxs| && k.mtxs[s[j]].ceiling <= k.mtxs[s[i]].ceiling;
        assert s'[j] == s[j] && s[j] != s[n];
      }
    }
  }
}
