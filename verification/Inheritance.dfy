/** Plain priority inheritance: every task runs at the best of its initial priority and the
    priorities of the tasks that wait for its mutexes.  When a call keeps that, and runs without nesting. */
module Inheritance {
  import opened TaskQueues
  import opened KernelState
  import opened KernelCalls
  import opened KernelRun
  import opened LockInvariants
  import opened KernelTheorems
  import opened RunTheorems
  import opened PriorityFrames

  // ---- The law ---------------------------------------------------------------------------------

  /** Task u waits for mutex m, which t owns. */
  ghost predicate BlockedBy(k: KState, u: nat, t: nat, m: nat) {
    && m < |k.mtxs| && k.mtxs[m].owner == t
    && MtxQ(m) in k.q && u in k.q[MtxQ(m)] && u < |k.tasks|
  }

  ghost predicate TaskLaw(k: KState, t: nat)
    requires t < |k.tasks|
  {
    var p := k.tasks[t].pri;
    && p <= k.tasks[t].initPri
    && (forall u: nat, m: nat :: BlockedBy(k, u, t, m) ==> p <= k.tasks[u].pri)
    && (p == k.tasks[t].initPri || exists u: nat, m: nat :: BlockedBy(k, u, t, m) && k.tasks[u].pri == p)
  }

  ghost predicate InheritLaw(k: KState) {
    forall t: nat | t < |k.tasks| :: TaskLaw(k, t)
  }

  predicate AllInherit(k: KState) {
    forall m | 0 <= m < |k.mtxs| :: k.mtxs[m].protocol == INHERIT
  }

  /** Owners, waiters and priorities are the same in both states. */
  ghost predicate SameBlocking(k: KState, k': KState) {
    && |k'.tasks| == |k.tasks| && |k'.mtxs| == |k.mtxs|
    && (forall t | 0 <= t < |k.tasks| :: SamePri(k.tasks[t], k'.tasks[t]))
    && (forall u: nat, t: nat, m: nat :: t < |k.tasks| ==> (BlockedBy(k, u, t, m) <==> BlockedBy(k', u, t, m)))
  }

  lemma BlockingFrame(k: KState, k': KState)
    requires SamePris(k.(mtxs := k'.mtxs), k') && |k'.mtxs| == |k.mtxs|
    requires forall m | 0 <= m < |k.mtxs| :: k'.mtxs[m].owner == k.mtxs[m].owner
                                             || (MtxQ(m) in k.q && k.q[MtxQ(m)] == [])
    ensures SameBlocking(k, k')
  {
    forall u: nat, t: nat, m: nat | t < |k.tasks| ensures BlockedBy(k, u, t, m) <==> BlockedBy(k', u, t, m) {
      if m < |k.mtxs| && MtxQ(m) in k.q { assert k'.q[MtxQ(m)] == k.q[MtxQ(m)]; }
    }
    forall t | 0 <= t < |k.tasks| ensures SamePri(k.tasks[t], k'.tasks[t]) {
      assert SamePri(k.(mtxs := k'.mtxs).tasks[t], k'.tasks[t]);
    }
  }

  lemma LawTransfers(k: KState, k': KState)
    requires SameBlocking(k, k') && InheritLaw(k)
    ensures InheritLaw(k')
  {
    forall t: nat | t < |k'.tasks| ensures TaskLaw(k', t) {
      assert TaskLaw(k, t) && SamePri(k.tasks[t], k'.tasks[t]);
      forall u: nat, m: nat | BlockedBy(k', u, t, m) ensures k'.tasks[t].pri <= k'.tasks[u].pri {
        assert BlockedBy(k, u, t, m) && SamePri(k.tasks[u], k'.tasks[u]);
      }
      if k.tasks[t].pri != k.tasks[t].initPri {
        var u: nat, m: nat :| BlockedBy(k, u, t, m) && k.tasks[u].pri == k.tasks[t].pri;
        assert BlockedBy(k', u, t, m) && SamePri(k.tasks[u], k'.tasks[u]);
      }
    }
  }

  // ---- Waiting ---------------------------------------------------------------------------------

  /** k' is k with cur appended to the waiters of mutex m and its owner o raised to cur if it was
      worse. */
  ghost predicate Joined(k: KState, m: nat, o: nat, k': KState)
    requires k.cur < |k.tasks| && o < |k.tasks|
  {
    var p := k.tasks[k.cur].pri;
    && |k'.tasks| == |k.tasks| && k'.mtxs == k.mtxs
    && (forall t | 0 <= t < |k.tasks| :: k'.tasks[t].initPri == k.tasks[t].initPri)
    && (forall t | 0 <= t < |k.tasks| && t != o :: k'.tasks[t].pri == k.tasks[t].pri)
    && k'.tasks[o].pri == (if p < k.tasks[o].pri then p else k.tasks[o].pri)
    && (forall u: nat, t: nat, i: nat ::
          BlockedBy(k', u, t, i) <==> BlockedBy(k, u, t, i) || (u == k.cur && t == o && i == m))
  }

  lemma LocInherJoins(k: KState, m: nat)
    requires OutOf(k) && LocksOk(k) && m < |k.mtxs|
    requires k.mtxs[m].owner != NO_OWNER && k.mtxs[m].owner != k.cur
    ensures Joined(k, m, k.mtxs[m].owner, LocInher(k, m).k)
  {
    var o := k.mtxs[m].owner;
    assert MtxOk(k, m);
    BoostEffect(k, o);
    var k1 := BoostOwner(k, o);
    WaitOnEffect(k1, MtxQ(m), WAIT_MUTEX, OnMutex(m));
    var k' := LocInher(k, m).k;
    forall t | 0 <= t < |k.tasks|
      ensures k'.tasks[t].initPri == k.tasks[t].initPri && k'.tasks[t].pri == k1.tasks[t].pri
    {
      assert SamePri(k1.tasks[t], k'.tasks[t]);
    }
    JoinBlocking(k, k1, m, k');
  }

  lemma JoinBlocking(k: KState, k1: KState, m: nat, k': KState)
    requires OutOf(k) && m < |k.mtxs| && |k'.tasks| == |k1.tasks| == |k.tasks| && k1.cur == k.cur
    requires k'.mtxs == k.mtxs && k.mtxs[m].owner != NO_OWNER
    requires k1.q.Keys == k.q.Keys && forall id | id in k.q && !id.ReadyQ? :: k1.q[id] == k.q[id]
    requires k'.q == k1.q[MtxQ(m) := k1.q[MtxQ(m)] + [k.cur]]
    ensures forall u: nat, t: nat, i: nat ::
              BlockedBy(k', u, t, i) <==>
                BlockedBy(k, u, t, i) || (u == k.cur && t == k.mtxs[m].owner && i == m)
  {
  }

  /** The raised owner is itself waiting for a task that is worse than the new waiter. */
  ghost predicate ChainTooDeep(k: KState, o: nat)
    requires k.cur < |k.tasks| && o < |k.tasks|
  {
    k.tasks[k.cur].pri < k.tasks[o].pri &&
    exists v: nat, i: nat :: v < |k.tasks| && BlockedBy(k, o, v, i) && k.tasks[v].pri > k.tasks[k.cur].pri
  }

  /** Waiting keeps the law if and only if inheritance does not have to go further than one owner. */
  lemma WaitKeepsLaw(k: KState, m: nat)
    requires OutOf(k) && LocksOk(k) && InheritLaw(k) && m < |k.mtxs|
    requires k.mtxs[m].owner != NO_OWNER && k.mtxs[m].owner != k.cur
    ensures InheritLaw(LocInher(k, m).k) <==> !ChainTooDeep(k, k.mtxs[m].owner)
  {
    LocInherJoins(k, m);
    WaitsNowhere(k);
    forall i: nat ensures !BlockedBy(k, k.mtxs[m].owner, k.mtxs[m].owner, i) {
      if i < |k.mtxs| { assert MtxOk(k, i); }
    }
    JoinedLaw(k, m, k.mtxs[m].owner, LocInher(k, m).k);
  }

  lemma WaitsNowhere(k: KState)
    requires OutOf(k)
    ensures forall v: nat, i: nat :: !BlockedBy(k, k.cur, v, i)
  {
    forall v: nat, i: nat ensures !BlockedBy(k, k.cur, v, i) {
      if i < |k.mtxs| { OutOfNoQueue(k, MtxQ(i)); }
    }
  }

  lemma JoinedLaw(k: KState, m: nat, o: nat, k': KState)
    requires k.cur < |k.tasks| && o < |k.tasks| && o != k.cur && m < |k.mtxs| && k.mtxs[m].owner == o
    requires MtxQ(m) in k.q
    requires InheritLaw(k) && Joined(k, m, o, k')
    requires forall v: nat, i: nat :: !BlockedBy(k, k.cur, v, i)
    requires forall i: nat :: !BlockedBy(k, o, o, i)
    ensures InheritLaw(k') <==> !ChainTooDeep(k, o)
  {
    if ChainTooDeep(k, o) {
      var v: nat, i: nat :| v < |k.tasks| && BlockedBy(k, o, v, i) && k.tasks[v].pri > k.tasks[k.cur].pri;
      assert TaskLaw(k, v) && BlockedBy(k', o, v, i);
      assert !TaskLaw(k', v);
    } else {
      forall t: nat | t < |k'.tasks| ensures TaskLaw(k', t) { JoinedTaskLaw(k, m, o, k', t); }
    }
  }

  lemma JoinedTaskLaw(k: KState, m: nat, o: nat, k': KState, t: nat)
    requires k.cur < |k.tasks| && o < |k.tasks| && o != k.cur && m < |k.mtxs| && k.mtxs[m].owner == o
    requires InheritLaw(k) && Joined(k, m, o, k') && !ChainTooDeep(k, o) && t < |k.tasks|
    requires MtxQ(m) in k.q
    requires forall v: nat, i: nat :: !BlockedBy(k, k.cur, v, i)
    ensures TaskLaw(k', t)
  {
    assert TaskLaw(k, t);
    assert BlockedBy(k', k.cur, o, m);
    if k'.tasks[t].pri != k'.tasks[t].initPri && k'.tasks[t].pri == k.tasks[t].pri {
      var u: nat, i: nat :| BlockedBy(k, u, t, i) && k.tasks[u].pri == k.tasks[t].pri;
      assert BlockedBy(k', u, t, i);
    }
  }

  // ---- Unlocking -------------------------------------------------------------------------------

  /** k' is k with cur back at its initial priority and mutex m, once cur's, given to the waiter w,
      or set free when there is none. */
  ghost predicate Passed(k: KState, m: nat, w: Option<nat>, k': KState)
    requires k.cur < |k.tasks|
  {
    && |k'.tasks| == |k.tasks|
    && (forall t | 0 <= t < |k.tasks| :: k'.tasks[t].initPri == k.tasks[t].initPri)
    && (forall t | 0 <= t < |k.tasks| && t != k.cur :: k'.tasks[t].pri == k.tasks[t].pri)
    && k'.tasks[k.cur].pri == k.tasks[k.cur].initPri
    && (forall u: nat, t: nat, i: nat | i != m :: BlockedBy(k', u, t, i) <==> BlockedBy(k, u, t, i))
    && (forall u: nat, t: nat ::
          BlockedBy(k', u, t, m) <==> w == Some(t) && u != t && BlockedBy(k, u, k.cur, m))
  }

  lemma UnlInherPasses(k: KState, m: nat)
    requires OutOf(k) && LocksOk(k) && m < |k.mtxs|
    requires k.mtxs[m].owner == k.cur && k.mtxs[m].locks == 1
    ensures Passed(k, m, Served(k, m), UnlInher(k, m).k)
  {
    RestoreEffect(k);
    var k1 := RestorePri(k);
    PutCurrentPris(k1);
    PutCurrentRests(k1);
    var k2 := PutCurrent(k1);
    RestoredFrame(k, k1, k2);
    if k.q[MtxQ(m)] == [] {
      ClearedPasses(k, m, k2);
    } else {
      OutOfNoQueue(k, MtxQ(m));
      WokenPasses(k, m, k2);
    }
  }

  /** cur is at its initial priority; owners and wait queues are as they were. */
  ghost predicate PriRestored(k: KState, k': KState)
    requires k.cur < |k.tasks|
  {
    && |k'.tasks| == |k.tasks| && k'.mtxs == k.mtxs
    && (forall t | 0 <= t < |k.tasks| :: k'.tasks[t].initPri == k.tasks[t].initPri)
    && (forall t | 0 <= t < |k.tasks| && t != k.cur :: k'.tasks[t].pri == k.tasks[t].pri)
    && k'.tasks[k.cur].pri == k.tasks[k.cur].initPri
    && (forall m: nat | MtxQ(m) in k.q :: MtxQ(m) in k'.q && k'.q[MtxQ(m)] == k.q[MtxQ(m)])
  }

  lemma RestoredFrame(k: KState, k1: KState, k2: KState)
    requires k.cur < |k.tasks| && OnlyPri(k, k.cur, k.tasks[k.cur].initPri, k1) && SamePris(k1, k2)
    ensures PriRestored(k, k2)
  {
    forall t | 0 <= t < |k.tasks|
      ensures k2.tasks[t].initPri == k1.tasks[t].initPri && k2.tasks[t].pri == k1.tasks[t].pri
    {
      assert SamePri(k1.tasks[t], k2.tasks[t]);
    }
  }

  lemma ClearedPasses(k: KState, m: nat, k2: KState)
    requires WF(k) && AtRest(k2) && m < |k.mtxs| && k.q[MtxQ(m)] == [] && PriRestored(k, k2)
    ensures Passed(k, m, None, ClearOwnership(k2, m))
  {
  }

  lemma WokenPasses(k: KState, m: nat, k2: KState)
    requires WF(k) && AtRest(k2) && m < |k.mtxs| && k.q[MtxQ(m)] != [] && PriRestored(k, k2)
    requires k.mtxs[m].owner == k.cur && k.cur !in k.q[MtxQ(m)]
    ensures Passed(k, m, Served(k, m), PutMtxWait(k2, m))
  {
    var w := k.q[MtxQ(m)];
    assert QueueOk(k.tasks, w, MtxQ(m));
    SamePick(k.tasks, k2.tasks, k.mtxs[m].order, w);
    WokenMtx(k2, m);
    var k' := PutMtxWait(k2, m);
    forall t | 0 <= t < |k.tasks|
      ensures k'.tasks[t].initPri == k2.tasks[t].initPri && k'.tasks[t].pri == k2.tasks[t].pri
    {
      assert SamePri(k2.tasks[t], k'.tasks[t]);
    }
    WokenBlocking(k, m, Pick(k.tasks, k.mtxs[m].order, w), k');
  }

  lemma WokenBlocking(k: KState, m: nat, i: nat, k': KState)
    requires WF(k) && m < |k.mtxs| && i < |k.q[MtxQ(m)]| && |k'.tasks| == |k.tasks|
    requires k.mtxs[m].owner == k.cur && k.cur !in k.q[MtxQ(m)]
    requires k'.mtxs == k.mtxs[m := k.mtxs[m].(owner := k.q[MtxQ(m)][i])]
    requires MtxQ(m) in k'.q && k'.q[MtxQ(m)] == Without(k.q[MtxQ(m)], i)
    requires forall j: nat | MtxQ(j) in k.q && j != m :: MtxQ(j) in k'.q && k'.q[MtxQ(j)] == k.q[MtxQ(j)]
    ensures forall u: nat, t: nat, j: nat | j != m :: BlockedBy(k', u, t, j) <==> BlockedBy(k, u, t, j)
    ensures forall u: nat, t: nat ::
              BlockedBy(k', u, t, m) <==> t == k.q[MtxQ(m)][i] && u != t && BlockedBy(k, u, k.cur, m)
  {
    assert QueueOk(k.tasks, k.q[MtxQ(m)], MtxQ(m));
    WithoutElements(k.q[MtxQ(m)], i);
  }

  /** A task of better priority than the caller's own waits for a mutex that the caller keeps. */
  ghost predicate StillNeeded(k: KState, m: nat)
    requires k.cur < |k.tasks|
  {
    exists u: nat, i: nat :: i != m && BlockedBy(k, u, k.cur, i) && k.tasks[u].pri < k.tasks[k.cur].initPri
  }

  /** The waiter that the release serves is as good as every other. */
  ghost predicate ServesBest(k: KState, m: nat)
    requires WF(k) && m < |k.mtxs|
  {
    var s := Served(k, m);
    s.Some? ==>
      && s.value < |k.tasks|
      && forall u: nat :: BlockedBy(k, u, k.cur, m) ==> k.tasks[s.value].pri <= k.tasks[u].pri
  }

  /** Unlocking keeps the law if and only if no better task waits for a mutex the caller keeps, and
      the waiter that gets the mutex is a best one. */
  lemma UnlockKeepsLaw(k: KState, m: nat)
    requires OutOf(k) && LocksOk(k) && InheritLaw(k) && m < |k.mtxs|
    requires k.mtxs[m].owner == k.cur && k.mtxs[m].locks == 1
    ensures InheritLaw(UnlInher(k, m).k) <==> !StillNeeded(k, m) && ServesBest(k, m)
  {
    UnlInherPasses(k, m);
    WaitsNowhere(k);
    assert QueueOk(k.tasks, k.q[MtxQ(m)], MtxQ(m));
    var s := Served(k, m);
    if s.Some? { assert BlockedBy(k, s.value, k.cur, m); }
    PassedLaw(k, m, s, UnlInher(k, m).k);
  }

  lemma PassedLaw(k: KState, m: nat, w: Option<nat>, k': KState)
    requires k.cur < |k.tasks| && m < |k.mtxs| && k.mtxs[m].owner == k.cur && InheritLaw(k) && Passed(k, m, w, k')
    requires forall v: nat, i: nat :: !BlockedBy(k, k.cur, v, i)
    requires w.Some? ==> BlockedBy(k, w.value, k.cur, m)
    ensures InheritLaw(k') <==>
            !StillNeeded(k, m) &&
            (w.Some? ==> forall u: nat :: BlockedBy(k, u, k.cur, m) ==> k.tasks[w.value].pri <= k.tasks[u].pri)
  {
    if StillNeeded(k, m) {
      var u: nat, i: nat :| i != m && BlockedBy(k, u, k.cur, i) && k.tasks[u].pri < k.tasks[k.cur].initPri;
      assert BlockedBy(k', u, k.cur, i);
      assert !TaskLaw(k', k.cur);
    } else if w.Some? && exists u: nat :: BlockedBy(k, u, k.cur, m) && k.tasks[w.value].pri > k.tasks[u].pri {
      var u: nat :| BlockedBy(k, u, k.cur, m) && k.tasks[w.value].pri > k.tasks[u].pri;
      assert BlockedBy(k', u, w.value, m);
      assert !TaskLaw(k', w.value);
    } else {
      forall t: nat | t < |k'.tasks| ensures TaskLaw(k', t) { PassedTaskLaw(k, m, w, k', t); }
    }
  }

  lemma PassedTaskLaw(k: KState, m: nat, w: Option<nat>, k': KState, t: nat)
    requires k.cur < |k.tasks| && m < |k.mtxs| && k.mtxs[m].owner == k.cur && InheritLaw(k) && Passed(k, m, w, k')
    requires forall v: nat, i: nat :: !BlockedBy(k, k.cur, v, i)
    requires w.Some? ==> BlockedBy(k, w.value, k.cur, m)
    requires !StillNeeded(k, m) && t < |k.tasks|
    requires w.Some? ==> forall u: nat :: BlockedBy(k, u, k.cur, m) ==> k.tasks[w.value].pri <= k.tasks[u].pri
    ensures TaskLaw(k', t)
  {
    assert TaskLaw(k, t);
    if t != k.cur && k.tasks[t].pri != k.tasks[t].initPri {
      var u: nat, i: nat :| BlockedBy(k, u, t, i) && k.tasks[u].pri == k.tasks[t].pri;
      assert BlockedBy(k', u, t, i);
    }
    forall u: nat, i: nat | BlockedBy(k', u, t, i) ensures k'.tasks[t].pri <= k'.tasks[u].pri {
      if i == m { assert BlockedBy(k, u, k.cur, m); } else { assert BlockedBy(k, u, t, i); }
    }
  }

  // ---- Runs without nesting --------------------------------------------------------------------

  /** No task owns two mutexes, and no task that waits for a mutex owns one. */
  ghost predicate Unnested(k: KState) {
    && (forall i: nat, j: nat | i < |k.mtxs| && j < |k.mtxs| ::
          k.mtxs[i].owner == k.mtxs[j].owner != NO_OWNER ==> i == j)
    && (forall u: nat, t: nat, m: nat, i: nat | BlockedBy(k, u, t, m) && i < |k.mtxs| :: k.mtxs[i].owner != u)
  }

  /** The caller owns no mutex but possibly m. */
  predicate OwnsOnly(k: KState, m: nat) {
    forall i | 0 <= i < |k.mtxs| :: k.mtxs[i].owner == k.cur ==> i == m
  }

  ghost predicate LawKept(k: KState) {
    InheritLaw(k) && Unnested(k)
  }

  lemma KeptTransfers(k: KState, k': KState)
    requires LawKept(k) && SamePris(k.(mtxs := k'.mtxs), k') && |k'.mtxs| == |k.mtxs|
    requires forall m | 0 <= m < |k.mtxs| :: k'.mtxs[m].owner == k.mtxs[m].owner
    ensures LawKept(k')
  {
    BlockingFrame(k, k');
    LawTransfers(k, k');
    forall u: nat, t: nat, m: nat, i: nat | BlockedBy(k', u, t, m) && i < |k'.mtxs| ensures k'.mtxs[i].owner != u {
      assert MtxQ(m) in k.q ==> k'.q[MtxQ(m)] == k.q[MtxQ(m)];
      assert BlockedBy(k, u, t, m);
    }
  }

  lemma LocInherKept(k: KState, m: nat)
    requires OutOf(k) && LocksOk(k) && LawKept(k) && m < |k.mtxs| && OwnsOnly(k, m)
    requires k.mtxs[m].protocol == INHERIT
    ensures LawKept(LocInher(k, m).k)
  {
    var owner := k.mtxs[m].owner;
    if owner == NO_OWNER { FirstKept(k, m); }
    else if owner == k.cur {
      RecursivePris(k, m);
      KeptTransfers(k, LocInher(k, m).k);
    } else { JoinKept(k, m); }
  }

  lemma FirstKept(k: KState, m: nat)
    requires OutOf(k) && LocksOk(k) && LawKept(k) && m < |k.mtxs| && OwnsOnly(k, m)
    requires k.mtxs[m].owner == NO_OWNER
    ensures LawKept(LocInher(k, m).k)
  {
    assert MtxOk(k, m);
    LocFirstPris(k, m);
    var k' := LocInher(k, m).k;
    BlockingFrame(k, k');
    LawTransfers(k, k');
    WaitsNowhere(k);
    forall u: nat, t: nat, j: nat, i: nat | BlockedBy(k', u, t, j) && i < |k'.mtxs| ensures k'.mtxs[i].owner != u {
      assert t < |k.tasks| by { assert MtxOk(k, j); }
      assert BlockedBy(k, u, t, j);
    }
  }

  lemma JoinKept(k: KState, m: nat)
    requires OutOf(k) && LocksOk(k) && LawKept(k) && m < |k.mtxs| && OwnsOnly(k, m)
    requires k.mtxs[m].owner != NO_OWNER && k.mtxs[m].owner != k.cur
    ensures LawKept(LocInher(k, m).k)
  {
    var o: nat := k.mtxs[m].owner;
    WaitKeepsLaw(k, m);
    assert !ChainTooDeep(k, o) by {
      forall v: nat, i: nat ensures !BlockedBy(k, o, v, i) {}
    }
    LocInherJoins(k, m);
    JoinedUnnested(k, m, o, LocInher(k, m).k);
  }

  lemma JoinedUnnested(k: KState, m: nat, o: nat, k': KState)
    requires k.cur < |k.tasks| && o < |k.tasks| && Unnested(k) && Joined(k, m, o, k')
    requires m < |k.mtxs| && k.mtxs[m].owner == o != k.cur && OwnsOnly(k, m)
    ensures Unnested(k')
  {
    forall u: nat, t: nat, j: nat, i: nat | BlockedBy(k', u, t, j) && i < |k'.mtxs| ensures k'.mtxs[i].owner != u {
      if u != k.cur { assert BlockedBy(k, u, t, j); }
    }
  }

  lemma UnlInherKept(k: KState, m: nat)
    requires OutOf(k) && LocksOk(k) && LawKept(k) && m < |k.mtxs| && k.mtxs[m].order == TPRI
    requires k.mtxs[m].protocol == INHERIT
    ensures LawKept(UnlInher(k, m).k)
  {
    if k.mtxs[m].owner != k.cur {
      PutCurrentPris(k);
      KeptTransfers(k, UnlInher(k, m).k);
    } else if k.mtxs[m].locks != 1 {
      RecursivePris(k, m);
      KeptTransfers(k, UnlInher(k, m).k);
    } else { LastUnlockKept(k, m); }
  }

  lemma LastUnlockKept(k: KState, m: nat)
    requires OutOf(k) && LocksOk(k) && LawKept(k) && m < |k.mtxs| && k.mtxs[m].order == TPRI
    requires k.mtxs[m].owner == k.cur && k.mtxs[m].locks == 1
    ensures LawKept(UnlInher(k, m).k)
  {
    LastUnlockLaw(k, m);
    PriorityServes(k, m);
    UnlInherPasses(k, m);
    UnlInherOwners(k, m);
    WaitsOnce(k);
    PassedUnnested(k, m, Served(k, m), UnlInher(k, m).k);
  }

  /** A task waits for at most one mutex. */
  lemma WaitsOnce(k: KState)
    requires WF(k)
    ensures forall u: nat, t: nat, v: nat, i: nat, j: nat :: BlockedBy(k, u, t, i) && BlockedBy(k, u, v, j) ==> i == j
  {
    forall u: nat, t: nat, v: nat, i: nat, j: nat | BlockedBy(k, u, t, i) && BlockedBy(k, u, v, j) ensures i == j {
      assert QueueOk(k.tasks, k.q[MtxQ(i)], MtxQ(i)) && QueueOk(k.tasks, k.q[MtxQ(j)], MtxQ(j));
    }
  }

  lemma LastUnlockLaw(k: KState, m: nat)
    requires OutOf(k) && LocksOk(k) && LawKept(k) && m < |k.mtxs| && k.mtxs[m].order == TPRI
    requires k.mtxs[m].owner == k.cur && k.mtxs[m].locks == 1
    ensures InheritLaw(UnlInher(k, m).k)
  {
    UnlockKeepsLaw(k, m);
    assert !StillNeeded(k, m);
    PriorityServes(k, m);
  }

  lemma PriorityServes(k: KState, m: nat)
    requires WF(k) && m < |k.mtxs| && k.mtxs[m].order == TPRI && k.mtxs[m].owner == k.cur
    ensures ServesBest(k, m)
    ensures Served(k, m).Some? ==> BlockedBy(k, Served(k, m).value, k.cur, m)
  {
    assert QueueOk(k.tasks, k.q[MtxQ(m)], MtxQ(m));
  }

  lemma UnlInherOwners(k: KState, m: nat)
    requires OutOf(k) && LocksOk(k) && m < |k.mtxs| && k.mtxs[m].owner == k.cur && k.mtxs[m].locks == 1
    ensures var mtxs, w := UnlInher(k, m).k.mtxs, Served(k, m);
            && |mtxs| == |k.mtxs|
            && mtxs[m].owner == (if w.Some? then w.value else NO_OWNER)
            && forall i | 0 <= i < |k.mtxs| && i != m :: mtxs[i].owner == k.mtxs[i].owner
  {
    RestoreEffect(k);
    var k1 := RestorePri(k);
    PutCurrentPris(k1);
    PutCurrentRests(k1);
    RestoredFrame(k, k1, PutCurrent(k1));
    OutOfNoQueue(k, MtxQ(m));
    RestoredOwners(k, m, PutCurrent(k1));
  }

  lemma RestoredOwners(k: KState, m: nat, k2: KState)
    requires WF(k) && AtRest(k2) && m < |k.mtxs| && PriRestored(k, k2) && k.cur !in k.q[MtxQ(m)]
    ensures k.q[MtxQ(m)] != [] ==>
              PutMtxWait(k2, m).mtxs == k.mtxs[m := k.mtxs[m].(owner := Served(k, m).value)]
    ensures k.q[MtxQ(m)] == [] ==> Served(k, m).None?
  {
    var w := k.q[MtxQ(m)];
    assert QueueOk(k.tasks, w, MtxQ(m));
    if w != [] {
      SamePick(k.tasks, k2.tasks, k.mtxs[m].order, w);
      WokenMtx(k2, m);
    }
  }

  lemma PassedUnnested(k: KState, m: nat, w: Option<nat>, k': KState)
    requires k.cur < |k.tasks| && m < |k.mtxs| && k.mtxs[m].owner == k.cur && Unnested(k) && Passed(k, m, w, k')
    requires w.Some? ==> BlockedBy(k, w.value, k.cur, m)
    requires |k'.mtxs| == |k.mtxs| && k'.mtxs[m].owner == (if w.Some? then w.value else NO_OWNER)
    requires forall i | 0 <= i < |k.mtxs| && i != m :: k'.mtxs[i].owner == k.mtxs[i].owner
    requires forall v: nat, i: nat :: w.Some? && BlockedBy(k, w.value, v, i) ==> i == m
    ensures Unnested(k')
  {
    forall u: nat, t: nat, j: nat, i: nat | BlockedBy(k', u, t, j) && i < |k'.mtxs| ensures k'.mtxs[i].owner != u {
      if j == m { assert BlockedBy(k, u, k.cur, m); } else { assert BlockedBy(k, u, t, j); }
    }
  }

  /** A kernel whose mutexes all inherit, with priority-ordered waiting. */
  predicate PriorityOrdered(k: KState) {
    AllInherit(k) && forall m | 0 <= m < |k.mtxs| :: k.mtxs[m].order == TPRI
  }

  /** A lock call is made only by a task that owns no other mutex. */
  predicate NoNesting(k: KState, step: Step) {
    step.Syscall? && step.c.LocMtx? ==> OwnsOnly(k, step.c.m)
  }

  lemma DispatchKept(k: KState, c: Call)
    requires OutOf(k) && LocksOk(k) && !k.halted && PriorityOrdered(k)
    requires LawKept(k) && !c.ChgPri? && (c.LocMtx? ==> OwnsOnly(k, c.m))
    ensures LawKept(Dispatch(k, c).k)
  {
    if c.LocMtx? && Reaches(k, c.m) { LocInherKept(k, c.m); }
    else if c.UnlMtx? && Reaches(k, c.m) { UnlInherKept(k, c.m); }
    else {
      OtherCallPris(k, c);
      KeptTransfers(k, Dispatch(k, c).k);
    }
  }

  lemma CallKept(k: KState, c: Call)
    requires Good(k) && PriorityOrdered(k) && LawKept(k) && !c.ChgPri? && (c.LocMtx? ==> OwnsOnly(k, c.m))
    ensures LawKept(SyscallStep(k, c).k)
  {
    TakeOut(k);
    GetCurrentPris(k);
    KeptTransfers(k, GetCurrent(k));
    DispatchKept(GetCurrent(k), c);
    DispatchOk(GetCurrent(k), c);
    ScheduleKept(Dispatch(GetCurrent(k), c).k);
  }

  lemma ScheduleKept(k: KState)
    requires AtRest(k) && LawKept(k)
    ensures LawKept(Schedule(k))
  {
    SchedulePris(k);
    KeptTransfers(k, Schedule(k));
  }

  lemma RoundRobinKept(k: KState)
    requires Good(k) && LawKept(k)
    ensures LawKept(RoundRobin(k))
  {
    TakeOut(k);
    var out := GetCurrent(k);
    GetCurrentPris(k);
    PutCurrentRests(out);
    PutCurrentPris(out);
    SamePrisTrans(k, out, PutCurrent(out));
    KeptTransfers(k, PutCurrent(out));
    ScheduleKept(PutCurrent(out));
  }

  lemma StepKept(k: KState, step: Step)
    requires Good(k) && PriorityOrdered(k) && LawKept(k) && KeepsPriorities(step) && NoNesting(k, step)
    ensures LawKept(StepTo(k, step))
  {
    match step
    case Syscall(c) => CallKept(k, c);
    case RoundRobinExpiry => RoundRobinKept(k);
  }

  /** Every step of the run keeps to the discipline: no nesting, no priorities set from outside. */
  ghost predicate Disciplined(k: KState, steps: seq<Step>)
    requires Good(k) && Run(k, steps).Some?
  {
    if steps == [] then true
    else
      var last := |steps| - 1;
      && Disciplined(k, steps[..last])
      && KeepsPriorities(steps[last])
      && NoNesting(Run(k, steps[..last]).value, steps[last])
  }

  /** In every run in which no task locks a mutex while it owns another: every task runs at the best
      of its initial priority and the priorities of the tasks that wait for its mutexes, through
      locking, recursive locking, unlocking and hand-over. */
  lemma InheritancePriorityLaw(k: KState, steps: seq<Step>)
    requires Started(k) && PriorityOrdered(k)
    requires forall t | 0 <= t < |k.tasks| :: k.tasks[t].pri == k.tasks[t].initPri
    requires CallsOk(steps)
    ensures Good(k) && Run(k, steps).Some?
    ensures Disciplined(k, steps) ==> InheritLaw(Run(k, steps).value)
  {
    StartedIsGood(k);
    RunCovered(k, steps);
    StartedKept(k);
    if Disciplined(k, steps) { RunKept(k, steps); }
  }

  lemma StartedKept(k: KState)
    requires Started(k)
    requires forall t | 0 <= t < |k.tasks| :: k.tasks[t].pri == k.tasks[t].initPri
    ensures LawKept(k)
  {
    assert forall m | 0 <= m < |k.mtxs| :: FreshMutex(k.mtxs[m]);
  }

  lemma {:induction false} RunKept(k: KState, steps: seq<Step>)
    requires Good(k) && PriorityOrdered(k) && LawKept(k)
    requires Run(k, steps).Some? && Disciplined(k, steps)
    ensures LawKept(Run(k, steps).value)
    decreases |steps|
  {
    if steps != [] {
      var last := |steps| - 1;
      RunKept(k, steps[..last]);
      PrefixKeeps(k, steps);
      LastKept(k, steps);
    }
  }

  lemma PrefixKeeps(k: KState, steps: seq<Step>)
    requires Good(k) && Run(k, steps).Some? && steps != [] && PriorityOrdered(k) && Disciplined(k, steps)
    requires LawKept(Run(k, steps[..|steps| - 1]).value)
    ensures StepsKeep(Run(k, steps[..|steps| - 1]).value, steps[|steps| - 1])
  {
    RunOrdered(k, steps[..|steps| - 1]);
  }

  lemma LastKept(k: KState, steps: seq<Step>)
    requires Good(k) && Run(k, steps).Some? && steps != []
    requires StepsKeep(Run(k, steps[..|steps| - 1]).value, steps[|steps| - 1])
    ensures LawKept(Run(k, steps).value)
  {
    StepsOn(Run(k, steps[..|steps| - 1]).value, steps[|steps| - 1]);
  }

  ghost predicate StepsKeep(k: KState, step: Step) {
    PriorityOrdered(k) && LawKept(k) && KeepsPriorities(step) && NoNesting(k, step)
  }

  lemma StepsOn(k: KState, step: Step)
    requires LocksOk(k) && (k.halted || Good(k)) && StepsKeep(k, step) && Next(k, step).Some?
    ensures LawKept(Next(k, step).value)
  {
    if !k.halted { StepKept(k, step); }
  }

  lemma RunOrdered(k: KState, steps: seq<Step>)
    requires Good(k) && PriorityOrdered(k) && Run(k, steps).Some?
    ensures PriorityOrdered(Run(k, steps).value)
  {
    var r := Run(k, steps).value;
    forall m | 0 <= m < |r.mtxs| ensures r.mtxs[m].protocol == INHERIT && r.mtxs[m].order == TPRI {
      assert SameKind(k.mtxs[m], r.mtxs[m]);
    }
  }
}
