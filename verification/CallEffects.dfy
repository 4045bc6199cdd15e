/** What each call and each time-slice expiry does, told by the state before it and the state after it: the
    code returned, the control blocks, the records of the tasks, and who stands where in every queue. */
module CallEffects {
  import opened TaskQueues
  import opened Bitmaps
  import opened KernelState
  import opened KernelCalls
  import opened KernelRun
  import opened LockInvariants
  import opened RunTheorems

  // ---- Places in the queues --------------------------------------------------------------------

  /** Task t, if its record names queue id. */
  function Tail(k: KState, t: nat, id: QueueId): (r: seq<nat>)
    requires t < |k.tasks|
  {
    if Place(t, k.tasks[t]) == Some(id) then [t] else []
  }

  /** Tasks t and u have left their places, if they had any, and stand last in the queues that their records
      name now, u behind t; t had none, unless it is u.  All other tasks keep their places. */
  ghost predicate Requeued(k: KState, k': KState, t: nat, u: nat)
    requires t < |k'.tasks| && u < |k'.tasks|
  {
    && k'.q.Keys == k.q.Keys
    && forall id | id in k.q ::
         k'.q[id] == Others(k.q[id], u) + Tail(k', t, id) + if u == t then [] else Tail(k', u, id)
  }

  lemma {:induction false} OthersAbsent(s: seq<nat>, t: nat)
    requires t !in s
    ensures Others(s, t) == s
  {
    if s != [] {
      OthersAbsent(s[1..], t);
      assert s == [s[0]] + s[1..];
    }
  }

  lemma WithoutIsOthers(s: seq<nat>, i: nat)
    requires i < |s| && NoDup(s)
    ensures Without(s, i) == Others(s, s[i])
  {
    WithoutElements(s, i);
    OthersWithout(s, i);
    OthersAbsent(Without(s, i), s[i]);
  }

  lemma ElsewhereAbsent(k: KState, t: nat, id: QueueId)
    requires WF(k) && t < |k.tasks| && id in k.q && Where(k, t) != Some(id)
    ensures t !in k.q[id] && Others(k.q[id], t) == k.q[id]
  {
    assert QueueOk(k.tasks, k.q[id], id);
    OthersAbsent(k.q[id], t);
  }

  /** A task taken out of one queue is gone from every queue. */
  lemma DequeuedOthers(k: KState, id: QueueId, i: nat)
    requires WF(k) && id in k.q && i < |k.q[id]|
    ensures forall id' | id' in k.q :: k.q[id := Without(k.q[id], i)][id'] == Others(k.q[id'], k.q[id][i])
  {
    assert QueueOk(k.tasks, k.q[id], id);
    forall id' | id' in k.q ensures k.q[id := Without(k.q[id], i)][id'] == Others(k.q[id'], k.q[id][i]) {
      if id' == id { WithoutIsOthers(k.q[id], i); } else { ElsewhereAbsent(k, k.q[id][i], id'); }
    }
  }

  /** Task t is back in the ready queue its record names, and u, another task, comes behind it. */
  lemma OneBehindOther(k: KState, k1: KState, k2: KState, t: nat, u: nat)
    requires t < |k1.tasks| == |k2.tasks| && u < |k2.tasks| && t != u
    requires Requeued(k, k1, t, t) && Requeued(k1, k2, u, u) && k2.tasks[t] == k1.tasks[t]
    requires forall id | id in k.q :: t !in k.q[id]
    ensures Requeued(k, k2, t, u)
  {
    hide Place, Others;
    forall id | id in k.q ensures k2.q[id] == Others(k.q[id], u) + Tail(k2, t, id) + Tail(k2, u, id) {
      var s, a, b := k.q[id], Tail(k1, t, id), Tail(k2, u, id);
      OthersAbsent(s, t);
      OthersConcat(s, a, u);
      OthersAbsent(a, u);
      assert k1.q[id] == s + a;
      assert k2.q[id] == Others(s + a, u) + b;
    }
  }

  /** Places depend on nothing but the queues before, and the queues and records after. */
  lemma SamePlaces(k: KState, k1: KState, k2: KState, k': KState, t: nat, u: nat)
    requires t < |k2.tasks| == |k'.tasks| && u < |k2.tasks| && Requeued(k1, k2, t, u)
    requires k1.q == k.q && k'.q == k2.q
    requires forall x | x == t || x == u :: Place(x, k'.tasks[x]) == Place(x, k2.tasks[x])
    ensures Requeued(k, k', t, u)
  {
  }

  // ---- Who is served ---------------------------------------------------------------------------

  /** A release serves position i of the queue s: the head, or with priority order the first of the best. */
  ghost predicate Serves(tasks: seq<Task>, order: Order, s: seq<nat>, i: nat) {
    && i < |s| && (forall j {:trigger s[j]} | 0 <= j < |s| :: s[j] < |tasks|)
    && (order == TFIFO ==> i == 0)
    && (order == TPRI ==>
          && (forall j {:trigger s[j]} | 0 <= j < |s| :: tasks[s[i]].pri <= tasks[s[j]].pri)
          && (forall j {:trigger s[j]} | 0 <= j < i :: tasks[s[i]].pri < tasks[s[j]].pri))
  }

  lemma WaitersExist(k: KState, id: QueueId)
    requires WF(k) && id in k.q
    ensures forall i {:trigger k.q[id][i]} | 0 <= i < |k.q[id]| :: k.q[id][i] < |k.tasks|
  {
    assert QueueOk(k.tasks, k.q[id], id);
  }

  /** There is always exactly one such position. */
  lemma ServesPick(tasks: seq<Task>, order: Order, s: seq<nat>, i: nat)
    requires s != [] && forall j | 0 <= j < |s| :: s[j] < |tasks|
    ensures Serves(tasks, order, s, i) <==> i == Pick(tasks, order, s)
  {
    var b := Pick(tasks, order, s);
    if Serves(tasks, order, s, i) && order == TPRI {
      assert s[b] < |tasks| && s[i] < |tasks|;
    }
  }

  // ---- What the caller's own part does ---------------------------------------------------------

  ghost predicate SameMtxs(k: KState, k': KState) {
    k'.mtxs == k.mtxs && k'.virt == k.virt && k'.high == k.high
  }

  ghost predicate SameSems(k: KState, k': KState) {
    k'.sems == k.sems && k'.ids == k.ids && k'.halted == k.halted
  }

  function Readied(tk: Task, p: int): (r: Task) { tk.(state := {READY}, pri := p) }

  /** Of all tasks only the caller's record changed: it is ready at priority p and stands last there. */
  ghost predicate CallerBack(k: KState, k': KState, p: int)
    requires k.cur < |k.tasks|
  {
    k'.tasks == k.tasks[k.cur := Readied(k.tasks[k.cur], p)] && Requeued(k, k', k.cur, k.cur)
  }

  /** The call did nothing but put the caller back, last in its queue. */
  ghost predicate Untouched(k: KState, k': KState)
    requires k.cur < |k.tasks|
  {
    CallerBack(k, k', k.tasks[k.cur].pri) && SameMtxs(k, k') && SameSems(k, k')
  }

  /** k1 is k with the caller, still out of its queue, at priority p. */
  ghost predicate CallerAt(k: KState, k1: KState, p: int)
    requires k.cur < |k.tasks|
  {
    && OutOf(k1) && k1.cur == k.cur && k1.q == k.q && SameSems(k, k1)
    && k1.tasks == k.tasks[k.cur := k.tasks[k.cur].(pri := p)]
    && k1.mtxs == k.mtxs && k1.virt == k.virt
  }

  lemma CallerInRange(k: KState)
    requires WF(k)
    ensures RecordOk(|k.mtxs|, k.tasks[k.cur])
  {
  }

  lemma PutBackEffect(k: KState)
    requires OutOf(k)
    ensures AtRest(PutCurrent(k)) && Untouched(k, PutCurrent(k)) && PutCurrent(k).cur == k.cur
    ensures forall id | id in k.q :: k.cur !in k.q[id]
  {
    hide Others;
    PutCurrentRests(k);
    assert {} + {READY} == {READY};
    forall id | id in k.q ensures k.cur !in k.q[id] && Others(k.q[id], k.cur) == k.q[id] {
      ElsewhereAbsent(k, k.cur, id);
    }
    assert RecordOk(|k.mtxs|, k.tasks[k.cur]);
  }

  /** The served waiter of queue id, back in its ready queue, its wait forgotten. */
  lemma WokenEffect(k: KState, id: QueueId, i: nat, order: Order)
    requires AtRest(k) && id in k.q && !id.ReadyQ? && i < |k.q[id]| && Serves(k.tasks, order, k.q[id], i)
    ensures var k1, u := PutCurrent(Wake(k, id, order)), k.q[id][i];
            && k1.cur == u < |k.tasks|
            && k1.tasks == k.tasks[u := k.tasks[u].(state := {READY}, wobj := NoObject)]
            && Requeued(k, k1, u, u) && SameMtxs(k, k1) && SameSems(k, k1)
    ensures OutOf(Wake(k, id, order)) && SameMtxs(k, Wake(k, id, order)) && Wake(k, id, order).cur == k.q[id][i]
  {
    hide QueuesOk, Others, Place, Serves;
    WokenRecord(k, id, i, order);
    var k1 := Wake(k, id, order);
    PutBackEffect(k1);
    forall id' | id' in k.q ensures k1.q[id'] == Others(k1.q[id'], k1.cur) {
      OthersAbsent(k1.q[id'], k1.cur);
    }
  }

  lemma WokenRecord(k: KState, id: QueueId, i: nat, order: Order)
    requires AtRest(k) && id in k.q && !id.ReadyQ? && i < |k.q[id]| && Serves(k.tasks, order, k.q[id], i)
    ensures var k1, u := Wake(k, id, order), k.q[id][i];
            && k1.cur == u < |k.tasks| && k1.tasks == k.tasks[u := k.tasks[u].(state := {}, wobj := NoObject)]
            && SameMtxs(k, k1) && SameSems(k, k1)
            && k1.q.Keys == k.q.Keys && forall id' | id' in k.q :: k1.q[id'] == Others(k.q[id'], u)
  {
    hide Others;
    WaitersExist(k, id);
    ServesPick(k.tasks, order, k.q[id], i);
    DequeuedOthers(k, id, i);
  }

  // ---- Calls for what does not exist -----------------------------------------------------------

  /** How many IDs the table in question has, and how many control blocks there are. */
  function Range(k: KState, c: Call): (r: (nat, nat)) {
    match c
    case LocMtx(_) => (k.ids.mtx, |k.mtxs|)
    case UnlMtx(_) => (k.ids.mtx, |k.mtxs|)
    case WaiSem(_) => (k.ids.sem, |k.sems|)
    case PolSem(_) => (k.ids.sem, |k.sems|)
    case SigSem(_) => (k.ids.sem, |k.sems|)
    case ChgPri(_, _) => (k.ids.tsk, |k.tasks|)
    case StaTsk(_) => (k.ids.tsk, |k.tasks|)
  }

  function Subject(c: Call): (r: nat) {
    match c
    case LocMtx(m) => m
    case UnlMtx(m) => m
    case WaiSem(s) => s
    case PolSem(s) => s
    case SigSem(s) => s
    case ChgPri(t, _) => t
    case StaTsk(t) => t
  }

  predicate Exists(k: KState, c: Call) {
    Subject(c) < Range(k, c).0 && Subject(c) < Range(k, c).1
  }

  lemma RefusedEffect(k: KState, c: Call)
    requires OutOf(k) && Admits(k, c) && !Exists(k, c)
    ensures var r := Dispatch(k, c);
            r.er == (if Subject(c) >= Range(k, c).0 then E_ID else E_NOEXS) && Untouched(k, r.k)
  {
    PutBackEffect(k);
  }

  // ---- Semaphores ------------------------------------------------------------------------------

  /** The caller waits, last in queue id. */
  ghost predicate CallerWaits(k: KState, k': KState, b: StateBit, o: WaitObject)
    requires k.cur < |k.tasks|
  {
    && k'.tasks == k.tasks[k.cur := k.tasks[k.cur].(state := {b}, wobj := o)]
    && Requeued(k, k', k.cur, k.cur) && SameMtxs(k, k') && SameSems(k, k')
  }

  lemma WaitsEffect(k: KState, id: QueueId, b: StateBit, o: WaitObject)
    requires OutOf(k) && id in k.q
    requires o.OnMutex? ==> o.m < |k.mtxs|
    requires || (b == WAIT_SEMAPHORE && o.OnSemaphore? && id == SemQ(o.s))
             || (b == WAIT_MUTEX && o.OnMutex? && id == MtxQ(o.m))
             || (b == WAIT_VIRTUAL_MUTEX && o.OnMutex? && id == VirtQ)
    ensures CallerWaits(k, WaitOn(k, id, b, o), b, o)
  {
    hide QueuesOk, Others, PutCurrent, Settled;
    PutBackEffect(k);
    var k' := WaitOn(k, id, b, o);
    assert {} + {b} == {b};
    assert Place(k.cur, k'.tasks[k.cur]) == Some(id);
    forall id' | id' in k.q ensures Others(k.q[id'], k.cur) == k.q[id'] { OthersAbsent(k.q[id'], k.cur); }
  }

  /** Two tasks are ready: the caller, at priority p, and behind it task u, which was waiting. */
  ghost predicate BothReady(k: KState, k': KState, p: int, u: nat)
    requires k.cur < |k.tasks|
  {
    && u < |k.tasks| && u != k.cur
    && k'.tasks == k.tasks[k.cur := Readied(k.tasks[k.cur], p)][u := k.tasks[u].(state := {READY}, wobj := NoObject)]
    && Requeued(k, k', k.cur, u)
  }

  /** k1 is k with the caller back at priority p; then the waiter at position i of queue id is woken. */
  lemma BothReadyEffect(k: KState, k1: KState, p: int, id: QueueId, i: nat, order: Order)
    requires OutOf(k) && AtRest(k1) && CallerBack(k, k1, p)
    requires id in k.q && !id.ReadyQ? && i < |k.q[id]| && Serves(k.tasks, order, k.q[id], i)
    ensures id in k1.q && k1.q[id] == k.q[id]
    ensures var k2 := PutCurrent(Wake(k1, id, order));
            k2.cur == k.q[id][i] && BothReady(k, k2, p, k2.cur) && SameMtxs(k1, k2) && SameSems(k1, k2)
    ensures OutOf(Wake(k1, id, order)) && SameMtxs(k1, Wake(k1, id, order)) && Wake(k1, id, order).cur == k.q[id][i]
  {
    hide QueuesOk, Requeued, Place, Wake, PutCurrent;
    WaitersKept(k, k1, p, id, i, order);
    PutBackEffect(k);
    WokenEffect(k1, id, i, order);
    OneBehindOther(k, k1, PutCurrent(Wake(k1, id, order)), k.cur, k.q[id][i]);
  }

  lemma StillReady(k: KState, k1: KState, k': KState, p: int, u: nat)
    requires k.cur < |k.tasks| && BothReady(k, k1, p, u) && k'.tasks == k1.tasks && k'.q == k1.q
    ensures BothReady(k, k', p, u)
  {
  }

  lemma QueueKept(k: KState, k1: KState, p: int, id: QueueId)
    requires OutOf(k) && CallerBack(k, k1, p) && id in k.q && !id.ReadyQ?
    ensures id in k1.q && k1.q[id] == k.q[id]
  {
    hide QueuesOk, Others;
    ElsewhereAbsent(k, k.cur, id);
    assert Tail(k1, k.cur, id) == [];
  }

  /** The caller back in its ready queue leaves a wait queue, and who is to be served from it, as it was. */
  lemma WaitersKept(k: KState, k1: KState, p: int, id: QueueId, i: nat, order: Order)
    requires OutOf(k) && CallerBack(k, k1, p)
    requires id in k.q && !id.ReadyQ? && i < |k.q[id]| && Serves(k.tasks, order, k.q[id], i)
    ensures id in k1.q && k1.q[id] == k.q[id] && Serves(k1.tasks, order, k1.q[id], i)
    ensures k.q[id][i] != k.cur && k.q[id][i] < |k.tasks|
  {
    hide QueuesOk, Others, Serves;
    QueueKept(k, k1, p, id);
    ElsewhereAbsent(k, k.cur, id);
    StillServes(k.tasks, k1.tasks, order, k.q[id], i);
  }

  lemma StillServes(tasks: seq<Task>, tasks': seq<Task>, order: Order, s: seq<nat>, i: nat)
    requires i < |s| && Serves(tasks, order, s, i) && |tasks'| == |tasks|
    requires forall t | 0 <= t < |tasks| && t in s :: tasks'[t].pri == tasks[t].pri
    ensures Serves(tasks', order, s, i)
  {
    assert forall j {:trigger s[j]} | 0 <= j < |s| :: s[j] in s;
  }

  /** A signal is accepted if and only if somebody waits or the value is below the limit.  It makes the
      waiter ready that is to be served, or else raises the value by one; refused, it does nothing. */
  lemma SignalEffect(k: KState, s: nat)
    requires OutOf(k) && LocksOk(k) && Exists(k, SigSem(s))
    ensures var r, sm, w := Dispatch(k, SigSem(s)), k.sems[s], k.q[SemQ(s)];
            && r.er == (if w != [] || sm.value < sm.max then E_OK else E_QOVR)
            && (r.er == E_QOVR ==> Untouched(k, r.k))
            && (r.er == E_OK && w == [] ==>
                  r.k.sems == k.sems[s := sm.(value := sm.value + 1)] && Untouched(k, r.k.(sems := k.sems)))
            && (forall i | 0 <= i < |w| && Serves(k.tasks, sm.order, w, i) ::
                  BothReady(k, r.k, k.tasks[k.cur].pri, w[i]) && SameMtxs(k, r.k) && SameSems(k, r.k))
  {
    hide QueuesOk, Requeued, Place;
    PutBackEffect(k);
    var k1, sm, w := PutCurrent(k), k.sems[s], k.q[SemQ(s)];
    assert SemOk(k, s);
    if w == [] {
      assert k1.q[SemQ(s)] == [];
    } else {
      WaitersExist(k, SemQ(s));
      var b := Pick(k.tasks, sm.order, w);
      forall i | 0 <= i < |w| ensures Serves(k.tasks, sm.order, w, i) <==> i == b {
        ServesPick(k.tasks, sm.order, w, i);
      }
      BothReadyEffect(k, k1, k.tasks[k.cur].pri, SemQ(s), b, sm.order);
    }
  }

  /** A wait at value 1 or more takes one; at 0 it queues the caller. */
  lemma WaitEffect(k: KState, s: nat)
    requires OutOf(k) && Exists(k, WaiSem(s))
    ensures var r, sm := Dispatch(k, WaiSem(s)), k.sems[s];
            r.er == E_OK &&
            if sm.value >= 1 then
              r.k.sems == k.sems[s := sm.(value := sm.value - 1)] && Untouched(k, r.k.(sems := k.sems))
            else CallerWaits(k, r.k, WAIT_SEMAPHORE, OnSemaphore(s))
  {
    hide QueuesOk, Requeued, Place, WaitOn;
    PutBackEffect(k);
    SemQueue(k, s);
    WaitsEffect(k, SemQ(s), WAIT_SEMAPHORE, OnSemaphore(s));
    SamePlaces(k, k, PutCurrent(k), PutCurrent(k).(sems := k.sems), k.cur, k.cur);
  }

  lemma SemQueue(k: KState, s: nat)
    requires WF(k) && s < |k.sems|
    ensures SemQ(s) in k.q
  {
  }

  /** A poll at value 1 or more takes one; at 0 it is refused. */
  lemma PollEffect(k: KState, s: nat)
    requires OutOf(k) && Exists(k, PolSem(s))
    ensures var r, sm := Dispatch(k, PolSem(s)), k.sems[s];
            if sm.value >= 1 then
              && r.er == E_OK && r.k.sems == k.sems[s := sm.(value := sm.value - 1)]
              && Untouched(k, r.k.(sems := k.sems))
            else r.er == E_TMOUT && Untouched(k, r.k)
  {
    hide QueuesOk, Requeued, Place;
    PutBackEffect(k);
    SamePlaces(k, k, PutCurrent(k), PutCurrent(k).(sems := k.sems), k.cur, k.cur);
  }

  // ---- Tasks -----------------------------------------------------------------------------------

  /** A ready task that is re-queued stands last in its new queue. */
  lemma MovedEffect(k: KState, t: nat, p: int)
    requires WF(k) && t < |k.tasks| && k.tasks[t].state == {READY} && PriInRange(p)
    ensures var k' := MoveReady(k, t, p);
            k'.tasks == k.tasks[t := k.tasks[t].(pri := p)] && Requeued(k, k', t, t)
  {
    hide Others;
    MoveReadyTasks(k, t, p);
    assert Placed(k.tasks, k.q, t);
    forall id | id in k.q && Place(t, k.tasks[t]) != Some(id) ensures Others(k.q[id], t) == k.q[id] {
      ElsewhereAbsent(k, t, id);
    }
    if t != INIT_TASK_ID {
      var from := ReadyQ(k.tasks[t].pri);
      DequeuedOthers(k, from, IndexOf(k.q[from], t));
    }
  }

  /** A priority change: refused for a priority out of range and for a dormant task; otherwise that task
      has that priority, and if it is ready it goes to the end of the queue, the caller before it. */
  lemma ChangeEffect(k: KState, t: nat, p: int)
    requires OutOf(k) && Exists(k, ChgPri(t, p)) && p != PRIORITY_NUM
    ensures var r, ts := Dispatch(k, ChgPri(t, p)), k.tasks[k.cur := Readied(k.tasks[k.cur], k.tasks[k.cur].pri)];
            && r.er == (if p < 0 || PRIORITY_NUM < p then E_PAR
                        else if k.tasks[t].state == {DORMANT} then E_OBJ else E_OK)
            && (r.er != E_OK ==> Untouched(k, r.k))
            && (r.er == E_OK ==>
                  && r.k.tasks == ts[t := ts[t].(pri := p)]
                  && Requeued(k, r.k, k.cur, if k.tasks[t].state == {READY} then t else k.cur)
                  && SameMtxs(k, r.k) && SameSems(k, r.k))
  {
    hide QueuesOk, Requeued;
    PutBackEffect(k);
    var k1 := PutCurrent(k);
    if PriInRange(p) && k.tasks[t].state != {DORMANT} {
      if t == k.cur {
        SetPriOutOf(k, t, p);
        PutBackEffect(SetPri(k, t, p));
        SamePlaces(k, SetPri(k, t, p), PutCurrent(SetPri(k, t, p)), PutCurrent(SetPri(k, t, p)), t, t);
      } else if READY in k.tasks[t].state {
        MovedEffect(k1, t, p);
        MoveReadyQueues(k1, t, p);
        OneBehindOther(k, k1, MoveReady(k1, t, p), k.cur, t);
      } else {
        SamePlaces(k, k, k1, SetPri(k1, t, p), k.cur, k.cur);
      }
    }
  }

  lemma DormantRecord(k: KState, t: nat)
    requires AtRest(k) && t < |k.tasks| && k.tasks[t].state == {DORMANT} && k.cur == t
    ensures Place(t, WithState(k.tasks[t], {})) == Where(k, t) == None && RecordOk(|k.mtxs|, WithState(k.tasks[t], {}))
    ensures OutOf(SetRecord(k, t, WithState(k.tasks[t], {})))
  {
  }

  /** A start: refused unless the task is dormant; otherwise it is ready, last in its queue, the caller
      before it. */
  lemma StartEffect(k: KState, t: nat)
    requires OutOf(k) && Exists(k, StaTsk(t))
    ensures var r, ts := Dispatch(k, StaTsk(t)), k.tasks[k.cur := Readied(k.tasks[k.cur], k.tasks[k.cur].pri)];
            && r.er == (if k.tasks[t].state == {DORMANT} then E_OK else E_OBJ)
            && (r.er != E_OK ==> Untouched(k, r.k))
            && (r.er == E_OK ==>
                  && r.k.tasks == ts[t := ts[t].(state := {READY})]
                  && Requeued(k, r.k, k.cur, t) && SameMtxs(k, r.k) && SameSems(k, r.k))
  {
    hide QueuesOk, Requeued;
    PutBackEffect(k);
    var k1 := PutCurrent(k).(cur := t);
    SamePlaces(k, k, PutCurrent(k), k1, k.cur, k.cur);
    if k1.tasks[t].state == {DORMANT} {
      DormantRecord(k1, t);
      var k2 := SetRecord(k1, t, WithState(k1.tasks[t], {}));
      PutBackEffect(k2);
      SamePlaces(k1, k2, PutCurrent(k2), PutCurrent(k2), t, t);
      OneBehindOther(k, k1, PutCurrent(k2), k.cur, t);
    }
  }

  // ---- Time slices -----------------------------------------------------------------------------

  /** When its time slice runs out, the running task goes to the end of its queue, and nothing else changes
      but who runs. */
  lemma RoundRobinEffect(k: KState)
    requires Runnable(k)
    ensures var k' := StepTo(k, RoundRobinExpiry);
            && k'.tasks == k.tasks && Requeued(k, k', k.cur, k.cur)
            && SameMtxs(k, k') && k'.sems == k.sems && k'.ids == k.ids
  {
    hide QueuesOk, LocksOk, Requeued, Others;
    CallerOut(k);
    var out := GetCurrent(k);
    PutBackEffect(out);
    PlacesBefore(k, out, PutCurrent(out), StepTo(k, RoundRobinExpiry), k.cur);
  }

  /** Under the feedback scheduler it goes to the end of the queue one priority down, unless it has the last
      priority already. */
  lemma FeedbackEffect(k: KState)
    requires Runnable(k)
    ensures var k', p := StepTo(k, FeedbackExpiry), k.tasks[k.cur].pri;
            && k'.tasks == k.tasks[k.cur := k.tasks[k.cur].(pri := if p + 1 < PRIORITY_NUM then p + 1 else p)]
            && Requeued(k, k', k.cur, k.cur)
            && SameMtxs(k, k') && k'.sems == k.sems && k'.ids == k.ids
  {
    hide QueuesOk, LocksOk, Requeued, Others, Demote, Place, PutCurrent, AtHead, Settled, Schedule;
    CallerOut(k);
    var out := GetCurrent(k);
    DemotedCaller(out);
    var k1 := Demote(out);
    PutBackEffect(k1);
    PlacesBefore(k, k1, PutCurrent(k1), StepTo(k, FeedbackExpiry), k.cur);
  }

  lemma DemotedCaller(k: KState)
    requires OutOf(k)
    ensures var p := k.tasks[k.cur].pri; CallerAt(k, Demote(k), if p + 1 < PRIORITY_NUM then p + 1 else p)
    ensures Demote(k).high == k.high
  {
    CallerInRange(k);
    assert k.tasks[k.cur].(pri := k.tasks[k.cur].pri) == k.tasks[k.cur];
  }

  // ---- Whole steps -----------------------------------------------------------------------------

  /** Before its call the running task leaves its ready queue. */
  lemma CallerOut(k: KState)
    requires Runnable(k)
    ensures var out := GetCurrent(k);
            && OutOf(out) && out.cur == k.cur && SameMtxs(k, out) && SameSems(k, out)
            && k.tasks[k.cur].state == {READY} && out.tasks == k.tasks[k.cur := k.tasks[k.cur].(state := {})]
            && out.q.Keys == k.q.Keys && forall id | id in k.q :: out.q[id] == Others(k.q[id], k.cur)
  {
    GetCurrentOut(k);
    assert Settled(k.tasks[k.cur]);
    assert {READY} - {READY} == {};
    if k.cur == INIT_TASK_ID {
      forall id | id in k.q ensures Others(k.q[id], k.cur) == k.q[id] { ElsewhereAbsent(k, k.cur, id); }
    } else {
      DequeuedOthers(k, ReadyQ(k.tasks[k.cur].pri), 0);
    }
  }

  /** Places after a step, seen from before the caller left its queue. */
  lemma PlacesBefore(k: KState, out: KState, k1: KState, k': KState, u: nat)
    requires k.cur < |k1.tasks| == |k'.tasks| && u < |k1.tasks|
    requires out.q.Keys == k.q.Keys && forall id | id in k.q :: out.q[id] == Others(k.q[id], k.cur)
    requires Requeued(out, k1, k.cur, u) && k' == k1.(cur := k'.cur, halted := k'.halted)
    ensures forall id | id in k.q :: k.q.Keys == k'.q.Keys &&
              k'.q[id] == Others(Others(k.q[id], k.cur), u) + Tail(k', k.cur, id)
                          + if u == k.cur then [] else Tail(k', u, id)
    ensures u == k.cur ==> Requeued(k, k', u, u)
  {
    if u == k.cur {
      forall id | id in k.q ensures Others(Others(k.q[id], u), u) == Others(k.q[id], u) { OthersTwice(k.q[id], u); }
    }
  }

  lemma {:induction false} OthersTwice(s: seq<nat>, t: nat)
    ensures t !in Others(s, t) && Others(Others(s, t), t) == Others(s, t)
  {
    if s != [] { OthersTwice(s[1..], t); }
    OthersAbsent(Others(s, t), t);
  }

  /** A whole call is what its body makes of the state with the caller out of its queue, and the pick of the
      next task. */
  lemma WholeCall(k: KState, c: Call)
    requires Runnable(k) && Admits(k, c)
    ensures var out := GetCurrent(k);
            OutOf(out) && Admits(out, c) && Dispatch(out, c).er == SyscallStep(k, c).er
    ensures var k1, k' := Dispatch(GetCurrent(k), c).k, SyscallStep(k, c).k;
            k' == k1.(cur := k'.cur, halted := k'.halted)
  {
    GetCurrentOut(k);
  }
}
