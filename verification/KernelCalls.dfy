/** What each kernel routine makes of the state.  Every function follows the routine of the source
    with the same name, branch by branch. */
module KernelCalls {
  import opened TaskQueues
  import opened Bitmaps
  import opened KernelState

  // ---- Settled states --------------------------------------------------------------------------

  /** The state word of a task that no call is working on. */
  predicate Settled(tk: Task) {
    || tk.state == {READY}
    || tk.state == {DORMANT}
    || (tk.state == {WAIT_SEMAPHORE} && tk.wobj.OnSemaphore?)
    || (tk.state == {WAIT_MUTEX} && tk.wobj.OnMutex?)
    || (tk.state == {WAIT_VIRTUAL_MUTEX} && tk.wobj.OnMutex?)
  }

  /** Between calls: every task is ready, dormant or waiting for one object. */
  ghost predicate AtRest(k: KState) {
    && WF(k)
    && (forall t | 0 <= t < |k.tasks| :: Settled(k.tasks[t]))
    && (k.initQue <==> READY in k.tasks[INIT_TASK_ID].state)
  }

  /** Inside a call: the caller has been taken out of the ready queue, every other task is settled. */
  ghost predicate OutOf(k: KState) {
    && WF(k)
    && k.tasks[k.cur].state == {}
    && (forall t | 0 <= t < |k.tasks| && t != k.cur :: Settled(k.tasks[t]))
    && (k.initQue <==> READY in k.tasks[INIT_TASK_ID].state)
  }

  // ---- Ready queues (ready.c) ------------------------------------------------------------------

  function WithState(tk: Task, state: set<StateBit>): (r: Task) {
    tk.(state := state)
  }

  /** put_current_prique */
  function PutCurrent(k: KState): (r: KState)
    requires WF(k)
    requires READY in k.tasks[k.cur].state || k.tasks[k.cur].state == {}
    ensures WF(r)
  {
    var tk := k.tasks[k.cur];
    assert Placed(k.tasks, k.q, k.cur);
    if READY in tk.state then k
    else if k.cur == INIT_TASK_ID then
      SetRecord(k, k.cur, WithState(tk, tk.state + {READY})).(initQue := true)
    else
      Enqueue(k, ReadyQ(tk.pri), k.cur, WithState(tk, tk.state + {READY}))
  }

  /** The running task is the one the scheduler picks from: the head of its ready queue. */
  ghost predicate AtHead(k: KState)
    requires k.cur < |k.tasks|
  {
    var p := k.tasks[k.cur].pri;
    0 <= p && ReadyQ(p) in k.q && k.q[ReadyQ(p)] != [] && k.q[ReadyQ(p)][0] == k.cur
  }

  /** get_current_prique */
  function GetCurrent(k: KState): (r: KState)
    requires WF(k)
    requires k.tasks[k.cur].state == {READY}
    requires k.cur != INIT_TASK_ID ==> AtHead(k)
    ensures WF(r)
  {
    var tk := k.tasks[k.cur];
    assert Placed(k.tasks, k.q, k.cur);
    if k.cur == INIT_TASK_ID then
      SetRecord(k, k.cur, WithState(tk, tk.state - {READY})).(initQue := false)
    else
      Dequeue(k, ReadyQ(tk.pri), 0, WithState(tk, tk.state - {READY}))
  }

  function IndexOf(s: seq<nat>, t: nat): (i: nat)
    requires t in s
    ensures i < |s| && s[i] == t
  {
    if s[0] == t then 0 else 1 + IndexOf(s[1..], t)
  }

  /** get_tsk_prique: take task t out of its ready queue and make it current.  The init task's
      cell is left filled. */
  function GetReady(k: KState, t: nat): (r: KState)
    requires WF(k) && t < |k.tasks| && k.tasks[t].state == {READY}
    ensures WF(r)
  {
    var tk := k.tasks[t];
    assert Placed(k.tasks, k.q, t);
    var out := WithState(tk, tk.state - {READY});
    if t == INIT_TASK_ID then SetRecord(k, t, out).(cur := t)
    else Dequeue(k, ReadyQ(tk.pri), IndexOf(k.q[ReadyQ(tk.pri)], t), out).(cur := t)
  }

  // ---- Priority change (task_manage.c) ---------------------------------------------------------

  predicate PriInRange(p: int) { 0 <= p < PRIORITY_NUM }

  /** Give task t, in no ready queue, the priority p. */
  function SetPri(k: KState, t: nat, p: int): (r: KState)
    requires WF(k) && t < |k.tasks| && READY !in k.tasks[t].state && PriInRange(p)
    ensures WF(r)
  {
    assert Placed(k.tasks, k.q, t);
    SetRecord(k, t, k.tasks[t].(pri := p))
  }

  /** Re-queue a ready task at a new priority: take out, change, append at the tail. */
  function MoveReady(k: KState, t: nat, p: int): (r: KState)
    requires WF(k) && t < |k.tasks| && k.tasks[t].state == {READY} && PriInRange(p)
    ensures WF(r)
  {
    PutCurrent(SetPri(GetReady(k, t), t, p))
  }

  /** mz_ichg_pri, through chg_pri_isr and chg_pri_isyscall_isr, with current saved and restored. */
  function IchgPri(k: KState, t: nat, p: int): (r: KState)
    requires WF(k) && t < |k.tasks| && p != PRIORITY_NUM
    requires k.tasks[t].state == {READY} || READY !in k.tasks[t].state
    ensures WF(r)
  {
    if !PriInRange(p) || k.tasks[t].state == {DORMANT} then k
    else if READY in k.tasks[t].state then MoveReady(k, t, p).(cur := k.cur)
    else SetPri(k, t, p)
  }

  lemma PutCurrentRests(k: KState)
    requires OutOf(k)
    ensures AtRest(PutCurrent(k))
  {
  }

  lemma SetPriOutOf(k: KState, t: nat, p: int)
    requires OutOf(k) && t < |k.tasks| && READY !in k.tasks[t].state && PriInRange(p)
    ensures OutOf(SetPri(k, t, p))
  {
  }

  lemma SetPriRests(k: KState, t: nat, p: int)
    requires AtRest(k) && t < |k.tasks| && READY !in k.tasks[t].state && PriInRange(p)
    ensures AtRest(SetPri(k, t, p))
  {
  }

  /** Moving a ready task between ready queues touches nothing but its priority and those queues. */
  lemma MoveReadyTasks(k: KState, t: nat, p: int)
    requires WF(k) && t < |k.tasks| && k.tasks[t].state == {READY} && PriInRange(p)
    ensures MoveReady(k, t, p).tasks == k.tasks[t := k.tasks[t].(pri := p)]
  {
    assert {} + {READY} == {READY};
  }

  lemma MoveReadyRests(k: KState, t: nat, p: int)
    requires AtRest(k) && t < |k.tasks| && k.tasks[t].state == {READY} && PriInRange(p)
    ensures AtRest(MoveReady(k, t, p))
  {
    MoveReadyTasks(k, t, p);
  }

  /** A boost inside a call changes one priority and no other part of any task's record. */
  lemma IchgPriTasks(k: KState, t: nat, p: int)
    requires WF(k) && t < |k.tasks| && p != PRIORITY_NUM
    requires k.tasks[t].state == {READY} || READY !in k.tasks[t].state
    ensures IchgPri(k, t, p).tasks ==
            if !PriInRange(p) || k.tasks[t].state == {DORMANT} then k.tasks else k.tasks[t := k.tasks[t].(pri := p)]
  {
    if PriInRange(p) && k.tasks[t].state == {READY} { MoveReadyTasks(k, t, p); }
  }

  lemma IchgPriOutOf(k: KState, t: nat, p: int)
    requires OutOf(k) && t < |k.tasks| && p != PRIORITY_NUM
    ensures OutOf(IchgPri(k, t, p))
  {
    hide QueuesOk;
    IchgPriTasks(k, t, p);
  }

  /** chg_pri_isr with chg_pri_syscall_isr: a task changes the priority of t. */
  function ChgPri(k: KState, t: nat, p: int): (r: Ret)
    requires OutOf(k) && t < |k.tasks|
    requires p != PRIORITY_NUM
    ensures AtRest(r.k)
  {
    PutCurrentRests(k);
    if p < 0 || PRIORITY_NUM < p then Ret(PutCurrent(k), E_PAR)
    else if k.tasks[t].state == {DORMANT} then Ret(PutCurrent(k), E_OBJ)
    else if t == k.cur then
      SetPriOutOf(k, t, p);
      PutCurrentRests(SetPri(k, t, p));
      Ret(PutCurrent(SetPri(k, t, p)), E_OK)
    else if READY in k.tasks[t].state then
      MoveReadyRests(PutCurrent(k), t, p);
      Ret(MoveReady(PutCurrent(k), t, p), E_OK)
    else
      SetPriRests(PutCurrent(k), t, p);
      Ret(SetPri(PutCurrent(k), t, p), E_OK)
  }

  /** sta_tsk_isr, after the caller has been put back. */
  function StaTsk(k: KState, t: nat): (r: Ret)
    requires OutOf(k) && t < |k.tasks|
    ensures AtRest(r.k)
  {
    PutCurrentRests(k);
    var k1 := PutCurrent(k).(cur := t);
    if k1.tasks[t].state == {DORMANT} then
      var k2 := SetRecord(k1, t, WithState(k1.tasks[t], {}));
      PutCurrentRests(k2);
      Ret(PutCurrent(k2), E_OK)
    else Ret(k1, E_OBJ)
  }

  // ---- Wait queues -----------------------------------------------------------------------------

  /** Append current to a wait queue, recording why and for what it waits. */
  function WaitOn(k: KState, id: QueueId, b: StateBit, o: WaitObject): (r: KState)
    requires OutOf(k) && id in k.q
    requires o.OnMutex? ==> o.m < |k.mtxs|
    requires || (b == WAIT_SEMAPHORE && o.OnSemaphore? && id == SemQ(o.s))
             || (b == WAIT_MUTEX && o.OnMutex? && id == MtxQ(o.m))
             || (b == WAIT_VIRTUAL_MUTEX && o.OnMutex? && id == VirtQ)
    ensures AtRest(r)
  {
    var tk := k.tasks[k.cur];
    assert Placed(k.tasks, k.q, k.cur);
    Enqueue(k, id, k.cur, tk.(state := tk.state + {b}, wobj := o))
  }

  /** Take the waiter that a release serves out of wait queue id, clear its wait state and make it
      current; it still has to be put back into a ready queue. */
  function Wake(k: KState, id: QueueId, order: Order): (r: KState)
    requires AtRest(k) && id in k.q && !id.ReadyQ? && k.q[id] != []
    ensures OutOf(r)
  {
    assert QueueOk(k.tasks, k.q[id], id);
    var i := Pick(k.tasks, order, k.q[id]);
    var t := k.q[id][i];
    assert Placed(k.tasks, k.q, t);
    var tk := k.tasks[t];
    Dequeue(k, id, i, tk.(state := {}, wobj := NoObject)).(cur := t)
  }

  // ---- Mutexes without a protocol (mutex.c) ----------------------------------------------------

  /** Replace the control block of mutex m. */
  function SetMtx(k: KState, m: nat, mx: Mutex): (r: KState)
    requires m < |k.mtxs|
  {
    k.(mtxs := k.mtxs[m := mx])
  }

  function Free(mx: Mutex): (r: Mutex) { mx.(value := 0, locks := 0, owner := NO_OWNER) }

  /** loc_first_mtx: current becomes the owner and goes back to its ready queue. */
  function LocFirst(k: KState, m: nat): (r: KState)
    requires OutOf(k) && m < |k.mtxs|
    ensures r.halted || AtRest(r)
  {
    PutCurrentRests(k);
    var mx := k.mtxs[m];
    if mx.value == 0 then
      SetMtx(PutCurrent(k), m, mx.(value := mx.value + 1, locks := mx.locks + 1, owner := k.cur))
    else k.(halted := true)
  }

  /** loc_multipl_mtx: recursive locking up to the limit. */
  function LocMultipl(k: KState, m: nat): (r: Ret)
    requires OutOf(k) && m < |k.mtxs|
    ensures AtRest(r.k)
  {
    PutCurrentRests(k);
    var mx := k.mtxs[m];
    if mx.maxlocks <= mx.locks then Ret(PutCurrent(k), E_ILUSE)
    else Ret(SetMtx(PutCurrent(k), m, mx.(locks := mx.locks + 1)), E_OK)
  }

  /** not_lock_first_mtx: undo one recursive lock, or report that there is none. */
  function NotLockFirst(k: KState, m: nat): (r: Ret)
    requires OutOf(k) && m < |k.mtxs|
    ensures AtRest(r.k)
  {
    PutCurrentRests(k);
    var mx := k.mtxs[m];
    if mx.locks > 1 then Ret(SetMtx(PutCurrent(k), m, mx.(locks := mx.locks - 1)), E_OK)
    else Ret(PutCurrent(k), E_ILUSE)
  }

  /** clear_mtx_ownership */
  function ClearOwnership(k: KState, m: nat): (r: KState)
    requires AtRest(k) && m < |k.mtxs|
    ensures AtRest(r)
  {
    var mx := k.mtxs[m];
    SetMtx(k, m, mx.(value := mx.value - 1, owner := NO_OWNER, locks := mx.locks - 1))
  }

  /** wait_mtx_tsk without a timeout */
  function WaitMtx(k: KState, m: nat): (r: KState)
    requires OutOf(k) && m < |k.mtxs|
    ensures AtRest(r)
  {
    WaitOn(k, MtxQ(m), WAIT_MUTEX, OnMutex(m))
  }

  /** put_mtx_waittsk: hand the mutex over to the waiter that is served. */
  function PutMtxWait(k: KState, m: nat): (r: KState)
    requires AtRest(k) && m < |k.mtxs| && k.q[MtxQ(m)] != []
    ensures AtRest(r)
  {
    var k1 := Wake(k, MtxQ(m), k.mtxs[m].order);
    PutCurrentRests(k1);
    SetMtx(PutCurrent(k1), m, k1.mtxs[m].(owner := k1.cur))
  }

  /** Give mutex m, held once by current, to a waiter or set it free.  The caller goes back to its
      ready queue first. */
  function Release(k: KState, m: nat): (r: KState)
    requires OutOf(k) && m < |k.mtxs|
    ensures AtRest(r)
  {
    PutCurrentRests(k);
    if k.q[MtxQ(m)] != [] then PutMtxWait(PutCurrent(k), m) else ClearOwnership(PutCurrent(k), m)
  }

  /** loc_voidmtx_isr */
  function LocVoid(k: KState, m: nat): (r: Ret)
    requires OutOf(k) && m < |k.mtxs|
    ensures r.k.halted || AtRest(r.k)
  {
    var owner := k.mtxs[m].owner;
    if owner != NO_OWNER then
      if owner != k.cur then Ret(WaitMtx(k, m), E_OK) else LocMultipl(k, m)
    else Ret(LocFirst(k, m), E_OK)
  }

  /** unl_voidmtx_isr */
  function UnlVoid(k: KState, m: nat): (r: Ret)
    requires OutOf(k) && m < |k.mtxs|
    ensures AtRest(r.k)
  {
    PutCurrentRests(k);
    if k.mtxs[m].owner == k.cur then
      if k.mtxs[m].locks == 1 then Ret(Release(k, m), E_OK) else NotLockFirst(k, m)
    else Ret(PutCurrent(k), E_ILUSE)
  }

  // ---- Priority inheritance (prinvermutex.c) ---------------------------------------------------

  /** Raise the owner of a lock to the priority of the task that has to wait for it. */
  function BoostOwner(k: KState, owner: nat): (r: KState)
    requires OutOf(k) && owner < |k.tasks|
    ensures OutOf(r)
  {
    var p := k.tasks[k.cur].pri;
    IchgPriOutOf(k, owner, p);
    if p < k.tasks[owner].pri then IchgPri(k, owner, p) else k
  }

  /** Take current back to its initial priority if it was raised. */
  function RestorePri(k: KState): (r: KState)
    requires OutOf(k)
    ensures OutOf(r)
  {
    var tk := k.tasks[k.cur];
    IchgPriOutOf(k, k.cur, tk.initPri);
    if tk.pri != tk.initPri then IchgPri(k, k.cur, tk.initPri) else k
  }

  /** loc_inhermtx_isr */
  function LocInher(k: KState, m: nat): (r: Ret)
    requires OutOf(k) && m < |k.mtxs|
    ensures r.k.halted || AtRest(r.k)
  {
    var owner := k.mtxs[m].owner;
    if owner != NO_OWNER then
      if owner != k.cur then Ret(WaitMtx(BoostOwner(k, owner), m), E_OK)
      else LocMultipl(k, m)
    else Ret(LocFirst(k, m), E_OK)
  }

  /** unl_inhermtx_isr */
  function UnlInher(k: KState, m: nat): (r: Ret)
    requires OutOf(k) && m < |k.mtxs|
    ensures AtRest(r.k)
  {
    PutCurrentRests(k);
    if k.mtxs[m].owner == k.cur then
      if k.mtxs[m].locks == 1 then Ret(Release(RestorePri(k), m), E_OK) else NotLockFirst(k, m)
    else Ret(PutCurrent(k), E_ILUSE)
  }

  // ---- Immediate highest locker (prinvermutex.c) -----------------------------------------------

  /** get_imhighest_locker_tskpri: the best of t's initial priority and the ceilings of the listed
      mutexes it owns. */
  function ListedPri(k: KState, t: nat, list: seq<nat>): (p: int)
    requires t < |k.tasks| && forall i | 0 <= i < |list| :: list[i] < |k.mtxs|
  {
    if list == [] then k.tasks[t].initPri
    else
      var rest := ListedPri(k, t, list[..|list| - 1]);
      var mx := k.mtxs[list[|list| - 1]];
      if mx.owner == t && rest > mx.ceiling then mx.ceiling else rest
  }

  /** get_imhighest_loker_mtx: a mutex that is not on the list leaves it as it is. */
  function Unlist(list: seq<nat>, m: nat): (r: seq<nat>)
    requires NoDup(list)
    ensures NoDup(r) && m !in r
    ensures forall x :: x in r <==> x in list && x != m
  {
    if m in list then
      WithoutElements(list, IndexOf(list, m));
      Without(list, IndexOf(list, m))
    else list
  }

  /** put_imhighest_loker_mtx: the list must not hold m yet, or its links would run in a circle. */
  function PutHigh(k: KState, m: nat): (r: KState)
    requires OutOf(k) && m < |k.mtxs| && m !in k.high
    ensures OutOf(r)
  {
    k.(high := [m] + k.high)
  }

  /** Locking m would put it on the list a second time: it is free but still listed, and raises the
      caller. */
  predicate Relists(k: KState, m: nat)
    requires k.cur < |k.tasks| && m < |k.mtxs|
  {
    k.mtxs[m].owner == NO_OWNER && k.tasks[k.cur].pri > k.mtxs[m].ceiling && m in k.high
  }

  /** loc_imhighmtx_isr */
  function LocImHigh(k: KState, m: nat): (r: Ret)
    requires OutOf(k) && m < |k.mtxs| && !Relists(k, m)
    ensures r.k.halted || AtRest(r.k)
  {
    var mx := k.mtxs[m];
    if mx.owner != NO_OWNER then
      if mx.owner != k.cur then Ret(WaitMtx(k, m), E_OK) else LocMultipl(k, m)
    else if k.tasks[k.cur].pri > mx.ceiling then
      var k1 := PutHigh(k, m);
      IchgPriOutOf(k1, k.cur, mx.ceiling);
      Ret(LocFirst(IchgPri(k1, k.cur, mx.ceiling), m), E_OK)
    else Ret(LocFirst(k, m), E_OK)
  }

  /** The priority reset of unl_imhighmtx_isr, when current was raised. */
  function LowerHigh(k: KState, m: nat): (r: KState)
    requires OutOf(k) && m < |k.mtxs|
    ensures OutOf(r)
  {
    var tk := k.tasks[k.cur];
    if tk.pri != tk.initPri then
      var k1 := k.(high := Unlist(k.high, m));
      var p := ListedPri(k1, k.cur, k1.high);
      ListedPriBound(k1, k.cur, k1.high);
      IchgPriOutOf(k1, k.cur, p);
      IchgPri(k1, k.cur, p)
    else k
  }

  lemma ListedPriBound(k: KState, t: nat, list: seq<nat>)
    requires t < |k.tasks| && forall i | 0 <= i < |list| :: list[i] < |k.mtxs|
    ensures ListedPri(k, t, list) <= k.tasks[t].initPri
  {
  }

  /** unl_imhighmtx_isr */
  function UnlImHigh(k: KState, m: nat): (r: Ret)
    requires OutOf(k) && m < |k.mtxs|
    ensures AtRest(r.k)
  {
    PutCurrentRests(k);
    if k.mtxs[m].owner == k.cur then
      if k.mtxs[m].locks == 1 then Ret(Release(LowerHigh(k, m), m), E_OK) else NotLockFirst(k, m)
    else Ret(PutCurrent(k), E_ILUSE)
  }

  // ---- Virtual priority inheritance (prinvermutex.c) -------------------------------------------

  /** loc_virtual_mtx */
  function LocVirtual(k: KState): (r: KState)
    requires OutOf(k)
    ensures OutOf(r)
  {
    if k.virt.value == 0 then
      k.(virt := k.virt.(value := k.virt.value + 1, locks := k.virt.locks + 1, owner := k.cur))
    else k.(halted := true)
  }

  /** loc_vinhermtx_isr: the virtual mutex stands in front of every physical one. */
  function LocVinher(k: KState, m: nat): (r: Ret)
    requires OutOf(k) && m < |k.mtxs|
    ensures r.k.halted || AtRest(r.k)
  {
    if k.virt.owner != NO_OWNER then
      if k.virt.owner != k.cur then
        Ret(WaitOn(BoostOwner(k, k.virt.owner), VirtQ, WAIT_VIRTUAL_MUTEX, OnMutex(m)), E_OK)
      else if k.mtxs[m].owner != NO_OWNER then LocMultipl(k, m)
      else Ret(LocFirst(k.(virt := k.virt.(locks := k.virt.locks + 1)), m), E_OK)
    else
      var k1 := LocVirtual(k);
      if k1.halted then Ret(k1, E_OK) else Ret(LocFirst(k1, m), E_OK)
  }

  /** The mutex that the next owner of the virtual mutex asked for. */
  function WokenWants(k: KState): (w: nat)
    requires AtRest(k) && k.q[VirtQ] != []
    ensures w < |k.mtxs|
  {
    assert QueueOk(k.tasks, k.q[VirtQ], VirtQ);
    k.tasks[k.q[VirtQ][Pick(k.tasks, k.virt.order, k.q[VirtQ])]].wobj.m
  }

  /** The control blocks just before the woken task locks mutex w: w is readied for a first lock, the
      released mutex m is set free unless it is the same one, and the virtual mutex has its owner. */
  function HandOver(k: KState, w: nat, m: nat): (r: KState)
    requires OutOf(k) && w < |k.mtxs| && m < |k.mtxs|
    ensures OutOf(r)
  {
    var k1 := SetMtx(k, w, k.mtxs[w].(value := 0, locks := 0));
    var k2 := if w != m then SetMtx(k1, m, Free(k1.mtxs[m])) else k1;
    k2.(virt := k2.virt.(owner := k.cur))
  }

  /** put_virtual_mtx_waittsk: give the virtual mutex and the mutex it asked for to a waiter. */
  function PutVirtualWait(k: KState, m: nat): (r: KState)
    requires AtRest(k) && m < |k.mtxs| && k.q[VirtQ] != []
    ensures r.halted || AtRest(r)
  {
    LocFirst(HandOver(Wake(k, VirtQ, k.virt.order), WokenWants(k), m), WokenWants(k))
  }

  /** clear_virtual_mtx_ownership */
  function ClearVirtual(k: KState): (r: KState) {
    k.(virt := k.virt.(value := k.virt.value - 1, owner := NO_OWNER, locks := k.virt.locks - 1))
  }

  /** not_lock_first_virtual_mtx, then clear_mtx_ownership: the virtual mutex is kept for another. */
  function DropVirtual(k: KState, m: nat): (r: Ret)
    requires AtRest(k) && m < |k.mtxs|
    ensures AtRest(r.k)
  {
    if k.virt.locks > 1 then
      Ret(ClearOwnership(k.(virt := k.virt.(locks := k.virt.locks - 1)), m), E_OK)
    else Ret(ClearOwnership(k, m), E_ILUSE)
  }

  /** The part of unl_vinhermtx_isr that gives up the virtual mutex along with the physical one. */
  function GiveUpBoth(k: KState, m: nat): (r: KState)
    requires OutOf(k) && m < |k.mtxs|
    ensures r.halted || AtRest(r)
  {
    var k1 := RestorePri(k);
    PutCurrentRests(k1);
    if k.q[VirtQ] != [] then
      RestorePriQueue(k, VirtQ);
      PutVirtualWait(PutCurrent(k1), m)
    else ClearOwnership(ClearVirtual(PutCurrent(k1)), m)
  }

  /** unl_vinhermtx_isr */
  function UnlVinher(k: KState, m: nat): (r: Ret)
    requires OutOf(k) && m < |k.mtxs|
    ensures r.k.halted || AtRest(r.k)
  {
    PutCurrentRests(k);
    if k.virt.owner == k.cur then
      if k.virt.locks == 1 then
        if k.mtxs[m].locks == 1 then Ret(GiveUpBoth(k, m), E_OK) else NotLockFirst(k, m)
      else if k.mtxs[m].locks != 1 then NotLockFirst(k, m)
      else DropVirtual(PutCurrent(k), m)
    else Ret(PutCurrent(k), E_ILUSE)
  }

  /** Resetting the caller's priority leaves every wait queue as it is. */
  lemma RestorePriQueue(k: KState, id: QueueId)
    requires OutOf(k) && id in k.q && !id.ReadyQ?
    ensures id in RestorePri(k).q && RestorePri(k).q[id] == k.q[id]
    ensures id in PutCurrent(RestorePri(k)).q && PutCurrent(RestorePri(k)).q[id] == k.q[id]
  {
  }

  // ---- Semaphores (semaphore.c) ----------------------------------------------------------------

  function SetSem(k: KState, s: nat, sm: Semaphore): (r: KState)
    requires s < |k.sems|
  {
    k.(sems := k.sems[s := sm])
  }

  /** sig_sem_isr */
  function SigSemIsr(k: KState, s: nat): (r: Ret)
    requires AtRest(k) && s < |k.sems|
    ensures AtRest(r.k)
  {
    var sm := k.sems[s];
    if k.q[SemQ(s)] != [] then
      PutCurrentRests(Wake(k, SemQ(s), sm.order));
      Ret(PutCurrent(Wake(k, SemQ(s), sm.order)), E_OK)
    else if sm.value == 0 || sm.value < sm.max then
      Ret(SetSem(k, s, sm.(value := sm.value + 1)), E_OK)
    else Ret(k, E_QOVR)
  }

  /** kernelrte_sig_sem: the caller is put back first. */
  function SigSem(k: KState, s: nat): (r: Ret)
    requires OutOf(k) && s < |k.sems|
    ensures AtRest(r.k)
  {
    PutCurrentRests(k);
    SigSemIsr(PutCurrent(k), s)
  }

  /** wai_sem_isr */
  function WaiSem(k: KState, s: nat): (r: Ret)
    requires OutOf(k) && s < |k.sems|
    ensures AtRest(r.k)
  {
    PutCurrentRests(k);
    var sm := k.sems[s];
    if sm.value >= 1 then Ret(SetSem(PutCurrent(k), s, sm.(value := sm.value - 1)), E_OK)
    else Ret(WaitOn(k, SemQ(s), WAIT_SEMAPHORE, OnSemaphore(s)), E_OK)
  }

  /** pol_sem_isr */
  function PolSem(k: KState, s: nat): (r: Ret)
    requires OutOf(k) && s < |k.sems|
    ensures AtRest(r.k)
  {
    PutCurrentRests(k);
    var sm := k.sems[s];
    if sm.value >= 1 then Ret(SetSem(PutCurrent(k), s, sm.(value := sm.value - 1)), E_OK)
    else Ret(PutCurrent(k), E_TMOUT)
  }
}
