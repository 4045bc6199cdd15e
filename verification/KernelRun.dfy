/** System calls, timer expiries and the scheduler as steps of the whole kernel, and runs of them. */
module KernelRun {
  import opened Bitmaps
  import opened KernelState
  import opened KernelCalls

  datatype Call =
    | LocMtx(m: nat) | UnlMtx(m: nat)
    | WaiSem(s: nat) | PolSem(s: nat) | SigSem(s: nat)
    | ChgPri(t: nat, p: int)
    | StaTsk(t: nat)

  /** A step: a call by the running task, or the expiry of its time slice. */
  datatype Step = Syscall(c: Call) | RoundRobinExpiry | FeedbackExpiry

  /** The state a scheduler leaves: the running task is ready and first in its queue. */
  ghost predicate Runnable(k: KState) {
    && AtRest(k)
    && !k.halted
    && READY in k.tasks[k.cur].state
    && (k.cur != INIT_TASK_ID ==> AtHead(k))
  }

  /** The ID m passes the checks in front of a lock or unlock call. */
  predicate Reaches(k: KState, m: nat) {
    m < k.ids.mtx && m < |k.mtxs|
  }

  /** Priority 32 passes the source's range check but lies outside its queue array. */
  predicate CallOk(c: Call) {
    c.ChgPri? ==> c.p != PRIORITY_NUM
  }

  /** The calls that the model covers.  A mutex must not be put on the list of raised mutexes when it
      stands there already: the source would tie the list into a circle. */
  predicate Admits(k: KState, c: Call)
    requires k.cur < |k.tasks|
  {
    CallOk(c) && (c.LocMtx? && Reaches(k, c.m) && k.mtxs[c.m].protocol == IMHIGHLOC ==> !Relists(k, c.m))
  }

  /** check_loc_mtx_protocol, and the ID check of kernelrte_loc_mtx in front of it. */
  function LocMtxCall(k: KState, m: nat): (r: Ret)
    requires OutOf(k) && Admits(k, LocMtx(m))
    ensures r.k.halted || AtRest(r.k)
  {
    PutCurrentRests(k);
    if k.ids.mtx <= m then Ret(PutCurrent(k), E_ID)
    else if |k.mtxs| <= m then Ret(PutCurrent(k), E_NOEXS)
    else match k.mtxs[m].protocol
      case VOIDPCL => LocVoid(k, m)
      case INHERIT => LocInher(k, m)
      case IMHIGHLOC => LocImHigh(k, m)
      case VINHERIT => LocVinher(k, m)
  }

  /** check_unl_mtx_protocol, and the ID check of kernelrte_unl_mtx in front of it. */
  function UnlMtxCall(k: KState, m: nat): (r: Ret)
    requires OutOf(k)
    ensures r.k.halted || AtRest(r.k)
  {
    PutCurrentRests(k);
    if k.ids.mtx <= m then Ret(PutCurrent(k), E_ID)
    else if |k.mtxs| <= m then Ret(PutCurrent(k), E_NOEXS)
    else match k.mtxs[m].protocol
      case VOIDPCL => UnlVoid(k, m)
      case INHERIT => UnlInher(k, m)
      case IMHIGHLOC => UnlImHigh(k, m)
      case VINHERIT => UnlVinher(k, m)
  }

  /** call_functions: the body of a call, entered with the caller taken out of its ready queue. */
  function Dispatch(k: KState, c: Call): (r: Ret)
    requires OutOf(k) && Admits(k, c)
    ensures r.k.halted || AtRest(r.k)
  {
    PutCurrentRests(k);
    match c
    case LocMtx(m) => LocMtxCall(k, m)
    case UnlMtx(m) => UnlMtxCall(k, m)
    case WaiSem(s) =>
      if k.ids.sem <= s then Ret(PutCurrent(k), E_ID)
      else if |k.sems| <= s then Ret(PutCurrent(k), E_NOEXS) else KernelCalls.WaiSem(k, s)
    case PolSem(s) =>
      if k.ids.sem <= s then Ret(PutCurrent(k), E_ID)
      else if |k.sems| <= s then Ret(PutCurrent(k), E_NOEXS) else KernelCalls.PolSem(k, s)
    case SigSem(s) =>
      if k.ids.sem <= s then Ret(PutCurrent(k), E_ID)
      else if |k.sems| <= s then Ret(PutCurrent(k), E_NOEXS) else KernelCalls.SigSem(k, s)
    case ChgPri(t, p) =>
      if k.ids.tsk <= t then Ret(PutCurrent(k), E_ID)
      else if |k.tasks| <= t then Ret(PutCurrent(k), E_NOEXS) else KernelCalls.ChgPri(k, t, p)
    case StaTsk(t) =>
      if k.ids.tsk <= t then Ret(PutCurrent(k), E_ID)
      else if |k.tasks| <= t then Ret(PutCurrent(k), E_NOEXS) else KernelCalls.StaTsk(k, t)
  }

  /** The least priority from p on whose ready queue is not empty. */
  function LeastReady(q: map<QueueId, seq<nat>>, p: nat): (r: Option<nat>)
    requires p <= PRIORITY_NUM && forall i: nat | i < PRIORITY_NUM :: ReadyQ(i) in q
    ensures r.Some? ==> p <= r.value < PRIORITY_NUM && q[ReadyQ(r.value)] != []
    ensures forall i: nat | p <= i < (if r.Some? then r.value else PRIORITY_NUM) :: q[ReadyQ(i)] == []
    decreases PRIORITY_NUM - p
  {
    if p == PRIORITY_NUM then None
    else if q[ReadyQ(p)] != [] then Some(p)
    else LeastReady(q, p + 1)
  }

  /** schedule_ps: the head of the best non-empty ready queue, or else the init task. */
  function Schedule(k: KState): (r: KState)
    requires AtRest(k)
    ensures r.halted || (AtRest(r) && READY in r.tasks[r.cur].state && (r.cur != INIT_TASK_ID ==> AtHead(r)))
    ensures r == k.(cur := r.cur, halted := r.halted)
  {
    match LeastReady(k.q, 0)
    case Some(p) =>
      assert QueueOk(k.tasks, k.q[ReadyQ(p)], ReadyQ(p));
      var t := k.q[ReadyQ(p)][0];
      k.(cur := t)
    case None =>
      if k.initQue then k.(cur := INIT_TASK_ID) else k.(halted := true)
  }

  lemma GetCurrentOut(k: KState)
    requires Runnable(k)
    ensures OutOf(GetCurrent(k))
    ensures forall c :: Admits(GetCurrent(k), c) <==> Admits(k, c)
  {
  }

  /** A whole call: take the caller out, run the call, pick the next task. */
  function SyscallStep(k: KState, c: Call): (r: Ret)
    requires Runnable(k) && Admits(k, c)
    ensures r.k.halted || Runnable(r.k)
  {
    GetCurrentOut(k);
    var r := Dispatch(GetCurrent(k), c);
    if r.k.halted then r else Ret(Schedule(r.k), r.er)
  }

  /** schedule_mfq_callrte lowers the priority of a task whose slice ran out, down to the last one. */
  function Demote(k: KState): (r: KState)
    requires OutOf(k)
    ensures OutOf(r)
  {
    var p := k.tasks[k.cur].pri;
    if p != PRIORITY_NUM - 1 then
      SetPriOutOf(k, k.cur, p + 1);
      SetPri(k, k.cur, p + 1)
    else k
  }

  /** schedule_rps_callrte: the running task goes to the tail of its queue. */
  function RoundRobin(k: KState): (r: KState)
    requires Runnable(k)
    ensures r.halted || Runnable(r)
  {
    GetCurrentOut(k);
    PutCurrentRests(GetCurrent(k));
    Schedule(PutCurrent(GetCurrent(k)))
  }

  /** schedule_mfq_callrte: the running task goes to the tail of the next queue down. */
  function Feedback(k: KState): (r: KState)
    requires Runnable(k)
    ensures r.halted || Runnable(r)
  {
    GetCurrentOut(k);
    PutCurrentRests(Demote(GetCurrent(k)));
    Schedule(PutCurrent(Demote(GetCurrent(k))))
  }

  predicate StepOk(k: KState, s: Step)
    requires k.cur < |k.tasks|
  {
    s.Syscall? ==> Admits(k, s.c)
  }

  function StepTo(k: KState, s: Step): (r: KState)
    requires Runnable(k) && StepOk(k, s)
    ensures r.halted || Runnable(r)
  {
    match s
    case Syscall(c) => SyscallStep(k, c).k
    case RoundRobinExpiry => RoundRobin(k)
    case FeedbackExpiry => Feedback(k)
  }
}
