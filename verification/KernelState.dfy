/** The kernel's scheduling and locking state as a value, and what each kernel routine makes of it.

    A task is named by its ID, a control block by its index in its ID table.  The queues that run
    through the task control blocks are sequences of IDs, head first.  The heap model in KernelObject.dfy
    is proved to do exactly these steps; the theorems about whole runs are stated here on values. */
module KernelState {
  import opened TaskQueues
  import opened Bitmaps

  const INIT_TASK_ID := 0
  const NO_OWNER := -1

  const E_OK := 0
  const E_PAR := -17
  const E_ID := -18
  const E_ILUSE := -28
  const E_OBJ := -41
  const E_NOEXS := -42
  const E_QOVR := -43
  const E_TMOUT := -50

  datatype Option<+T> = None | Some(value: T)

  /** The bits of a task's state word that the modelled calls use. */
  datatype StateBit = READY | DORMANT | WAIT_SEMAPHORE | WAIT_MUTEX | WAIT_VIRTUAL_MUTEX

  /** The control block recorded as the object a task waits for. */
  datatype WaitObject = NoObject | OnSemaphore(s: nat) | OnMutex(m: nat)

  datatype Task = Task(initPri: int, pri: int, state: set<StateBit>, wobj: WaitObject)

  datatype Order = TFIFO | TPRI
  datatype Protocol = VOIDPCL | INHERIT | IMHIGHLOC | VINHERIT

  datatype Mutex = Mutex(protocol: Protocol, order: Order, value: int, locks: int, maxlocks: int,
                         owner: int, ceiling: int)

  datatype Semaphore = Semaphore(order: Order, value: int, max: int)

  /** The queues: one a ready priority, one a semaphore, one a mutex, and one for the virtual mutex. */
  datatype QueueId = ReadyQ(p: nat) | SemQ(s: nat) | MtxQ(m: nat) | VirtQ

  /** The sizes of the ID tables. */
  datatype Sizes = Sizes(tsk: nat, sem: nat, mtx: nat)

  datatype KState = KState(
    tasks: seq<Task>,
    q: map<QueueId, seq<nat>>,
    initQue: bool,          // init_que holds the init task
    cur: nat,               // current
    sems: seq<Semaphore>,
    mtxs: seq<Mutex>,
    virt: Mutex,            // the virtual mutex; its protocol, ceiling and limit are not used
    high: seq<nat>,         // the list of raised immediate-highest-locker mutexes, head first
    ids: Sizes,
    halted: bool)           // down_system was reached

  /** The outcome of a call: the new state and the code the caller sees. */
  datatype Ret = Ret(k: KState, er: int)

  // ---- Well-formedness -------------------------------------------------------------------------

  ghost predicate NoDup<T>(s: seq<T>) {
    forall i, j :: 0 <= i < j < |s| ==> s[i] != s[j]
  }

  predicate ValidQ(sems: nat, mtxs: nat, id: QueueId) {
    match id
    case ReadyQ(p) => p < PRIORITY_NUM
    case SemQ(s) => s < sems
    case MtxQ(m) => m < mtxs
    case VirtQ => true
  }

  /** The queue that the record tk of task t says it stands in. */
  function Place(t: nat, tk: Task): (r: Option<QueueId>) {
    if READY in tk.state then
      if t == INIT_TASK_ID || tk.pri < 0 then None else Some(ReadyQ(tk.pri))
    else if WAIT_SEMAPHORE in tk.state && tk.wobj.OnSemaphore? then Some(SemQ(tk.wobj.s))
    else if WAIT_MUTEX in tk.state && tk.wobj.OnMutex? then Some(MtxQ(tk.wobj.m))
    else if WAIT_VIRTUAL_MUTEX in tk.state then Some(VirtQ)
    else None
  }

  function Where(k: KState, t: nat): (r: Option<QueueId>)
    requires t < |k.tasks|
  {
    Place(t, k.tasks[t])
  }

  /** Priorities are in range and a recorded mutex exists. */
  predicate RecordOk(mtxs: nat, tk: Task) {
    && 0 <= tk.pri < PRIORITY_NUM
    && 0 <= tk.initPri < PRIORITY_NUM
    && (tk.wobj.OnMutex? ==> tk.wobj.m < mtxs)
  }

  /** Queue s holds only tasks whose records place them there, none of them twice. */
  ghost predicate QueueOk(tasks: seq<Task>, s: seq<nat>, id: QueueId) {
    && NoDup(s)
    && forall i {:trigger s[i]} :: 0 <= i < |s| ==> s[i] < |tasks| && Place(s[i], tasks[s[i]]) == Some(id)
  }

  /** Task t stands in the queue its record names. */
  ghost predicate Placed(tasks: seq<Task>, q: map<QueueId, seq<nat>>, t: nat)
    requires t < |tasks|
  {
    var w := Place(t, tasks[t]);
    w.Some? ==> w.value in q && t in q[w.value]
  }

  /** Every task stands in exactly the queue its state word, priority and wait object name, once,
      and in no other. */
  ghost predicate QueuesOk(tasks: seq<Task>, q: map<QueueId, seq<nat>>, sems: nat, mtxs: nat) {
    && (forall id :: id in q <==> ValidQ(sems, mtxs, id))
    && (forall id {:trigger QueueOk(tasks, q[id], id)} | id in q :: QueueOk(tasks, q[id], id))
    && (forall t | 0 <= t < |tasks| :: Placed(tasks, q, t))
    && (forall t | 0 <= t < |tasks| :: RecordOk(mtxs, tasks[t]))
  }

  predicate OwnerOk(tasks: nat, owner: int) {
    owner == NO_OWNER || 0 <= owner < tasks
  }

  ghost predicate WF(k: KState) {
    && k.cur < |k.tasks|
    && QueuesOk(k.tasks, k.q, |k.sems|, |k.mtxs|)
    && (forall m | 0 <= m < |k.mtxs| :: OwnerOk(|k.tasks|, k.mtxs[m].owner))
    && OwnerOk(|k.tasks|, k.virt.owner)
    && NoDup(k.high)
    && (forall i | 0 <= i < |k.high| :: k.high[i] < |k.mtxs|)
  }

  // ---- Steps on queues and task records --------------------------------------------------------

  /** Append task t to queue id, giving it the record tk. */
  function Enqueue(k: KState, id: QueueId, t: nat, tk: Task): (r: KState)
    requires WF(k) && t < |k.tasks| && Where(k, t) == None
    requires id in k.q && Place(t, tk) == Some(id) && RecordOk(|k.mtxs|, tk)
    ensures WF(r)
  {
    EnqueueKeepsWF(k, id, t, tk);
    k.(q := k.q[id := k.q[id] + [t]], tasks := k.tasks[t := tk])
  }

  /** Take the task at position i out of queue id, giving it the record tk. */
  function Dequeue(k: KState, id: QueueId, i: nat, tk: Task): (r: KState)
    requires WF(k) && id in k.q && i < |k.q[id]|
    requires Place(k.q[id][i], tk) == None && RecordOk(|k.mtxs|, tk)
    ensures WF(r)
  {
    DequeueKeepsWF(k, id, i, tk);
    k.(q := k.q[id := Without(k.q[id], i)], tasks := k.tasks[k.q[id][i] := tk])
  }

  /** Change the record of task t without moving it. */
  function SetRecord(k: KState, t: nat, tk: Task): (r: KState)
    requires WF(k) && t < |k.tasks| && Place(t, tk) == Where(k, t) && RecordOk(|k.mtxs|, tk)
    ensures WF(r)
  {
    SetRecordKeepsWF(k, t, tk);
    k.(tasks := k.tasks[t := tk])
  }

  lemma EnqueueKeepsWF(k: KState, id: QueueId, t: nat, tk: Task)
    requires WF(k) && t < |k.tasks| && Where(k, t) == None
    requires id in k.q && Place(t, tk) == Some(id) && RecordOk(|k.mtxs|, tk)
    ensures WF(k.(q := k.q[id := k.q[id] + [t]], tasks := k.tasks[t := tk]))
  {
    var q, tasks := k.q[id := k.q[id] + [t]], k.tasks[t := tk];
    forall id' | id' in q ensures QueueOk(tasks, q[id'], id') {
      assert QueueOk(k.tasks, k.q[id'], id');
      assert t !in k.q[id'];
    }
    forall u | 0 <= u < |tasks| ensures Placed(tasks, q, u) {
      assert Placed(k.tasks, k.q, u);
      if u == t { assert q[id][|k.q[id]|] == t; }
      else if Where(k, u) == Some(id) {
        var j :| 0 <= j < |k.q[id]| && k.q[id][j] == u;
        assert q[id][j] == u;
      }
    }
  }

  lemma DequeueKeepsWF(k: KState, id: QueueId, i: nat, tk: Task)
    requires WF(k) && id in k.q && i < |k.q[id]|
    requires Place(k.q[id][i], tk) == None && RecordOk(|k.mtxs|, tk)
    ensures k.q[id][i] < |k.tasks|
    ensures WF(k.(q := k.q[id := Without(k.q[id], i)], tasks := k.tasks[k.q[id][i] := tk]))
  {
    assert QueueOk(k.tasks, k.q[id], id);
    var t := k.q[id][i];
    var q, tasks := k.q[id := Without(k.q[id], i)], k.tasks[t := tk];
    WithoutElements(k.q[id], i);
    forall id' | id' in q ensures QueueOk(tasks, q[id'], id') {
      assert QueueOk(k.tasks, k.q[id'], id');
      assert t !in q[id'];
    }
    forall u | 0 <= u < |tasks| ensures Placed(tasks, q, u) {
      assert Placed(k.tasks, k.q, u);
    }
  }

  lemma SetRecordKeepsWF(k: KState, t: nat, tk: Task)
    requires WF(k) && t < |k.tasks| && Place(t, tk) == Where(k, t) && RecordOk(|k.mtxs|, tk)
    ensures WF(k.(tasks := k.tasks[t := tk]))
  {
    var tasks := k.tasks[t := tk];
    forall id | id in k.q ensures QueueOk(tasks, k.q[id], id) {
      assert QueueOk(k.tasks, k.q[id], id);
    }
    forall u | 0 <= u < |tasks| ensures Placed(tasks, k.q, u) {
      assert Placed(k.tasks, k.q, u);
    }
  }

  lemma WithoutElements<T>(s: seq<T>, i: nat)
    requires i < |s| && NoDup(s)
    ensures NoDup(Without(s, i)) && s[i] !in Without(s, i)
    ensures forall x | x in s && x != s[i] :: x in Without(s, i)
    ensures forall x | x in Without(s, i) :: x in s
  {
    var w := Without(s, i);
    forall x | x in s && x != s[i] ensures x in w {
      var j :| 0 <= j < |s| && s[j] == x;
      assert j < i ==> w[j] == x;
      assert j > i ==> w[j - 1] == x;
    }
  }

  /** The first index of s whose task has the best priority: the hand-over scan. */
  function BestIndex(tasks: seq<Task>, s: seq<nat>): (r: nat)
    requires s != [] && forall i | 0 <= i < |s| :: s[i] < |tasks|
    ensures r < |s|
    ensures forall j | 0 <= j < |s| :: tasks[s[r]].pri <= tasks[s[j]].pri
    ensures forall j | 0 <= j < r :: tasks[s[r]].pri < tasks[s[j]].pri
  {
    var last := |s| - 1;
    if last == 0 then 0
    else
      var b := BestIndex(tasks, s[..last]);
      if tasks[s[last]].pri < tasks[s[b]].pri then last else b
  }

  /** The waiter a release serves: the head, or the first of the best priority. */
  function Pick(tasks: seq<Task>, order: Order, s: seq<nat>): (r: nat)
    requires s != [] && forall i | 0 <= i < |s| :: s[i] < |tasks|
    ensures r < |s|
  {
    if order == TFIFO then 0 else BestIndex(tasks, s)
  }
}
