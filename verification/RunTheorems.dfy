/** What holds in every run of a started kernel, whatever protocols its mutexes use. */
module RunTheorems {
  import opened TaskQueues
  import opened KernelState
  import opened KernelCalls
  import opened KernelRun
  import opened LockInvariants
  import opened KernelTheorems

  // ---- Where a run starts ----------------------------------------------------------------------

  predicate FreshMutex(mx: Mutex) {
    mx.owner == NO_OWNER && mx.locks == 0 && mx.value == 0
  }

  /** A kernel about to run its first task: every lock is free and nobody waits. */
  ghost predicate Started(k: KState) {
    && Runnable(k)
    && k.high == []
    && (forall id | id in k.q && !id.ReadyQ? :: k.q[id] == [])
    && (forall m | 0 <= m < |k.mtxs| :: FreshMutex(k.mtxs[m]) && k.mtxs[m].maxlocks >= 1)
    && FreshMutex(k.virt)
    && (forall s | 0 <= s < |k.sems| :: 0 <= k.sems[s].value <= k.sems[s].max && 1 <= k.sems[s].max)
  }

  lemma StartedIsGood(k: KState)
    requires Started(k)
    ensures Good(k)
  {
    CountZero(k.mtxs);
    forall m | 0 <= m < |k.mtxs| ensures MtxOk(k, m) { assert FreshMutex(k.mtxs[m]); }
  }

  // ---- Nothing lost or doubled -----------------------------------------------------------------

  /** The queue that a task's state word alone calls for. */
  predicate StateMatches(k: KState, t: nat, id: QueueId)
    requires t < |k.tasks|
  {
    match id
    case ReadyQ(p) => k.tasks[t].state == {READY} && k.tasks[t].pri == p && t != INIT_TASK_ID
    case SemQ(s) => k.tasks[t].state == {WAIT_SEMAPHORE} && k.tasks[t].wobj == OnSemaphore(s)
    case MtxQ(m) => k.tasks[t].state == {WAIT_MUTEX} && k.tasks[t].wobj == OnMutex(m)
    case VirtQ => k.tasks[t].state == {WAIT_VIRTUAL_MUTEX} && k.tasks[t].wobj.OnMutex?
  }

  /** How often t stands in s. */
  function Times(s: seq<nat>, t: nat): (r: nat) {
    if s == [] then 0 else (if s[0] == t then 1 else 0) + Times(s[1..], t)
  }

  lemma {:induction false} TimesOnce(s: seq<nat>, t: nat)
    requires NoDup(s)
    ensures Times(s, t) == if t in s then 1 else 0
  {
    if s != [] {
      assert NoDup(s[1..]);
      TimesOnce(s[1..], t);
      assert s == [s[0]] + s[1..];
    }
  }

  lemma PlaceMatches(k: KState, t: nat, id: QueueId)
    requires AtRest(k) && t < |k.tasks|
    ensures StateMatches(k, t, id) <==> Place(t, k.tasks[t]) == Some(id)
  {
    assert Settled(k.tasks[t]);
    assert RecordOk(|k.mtxs|, k.tasks[t]);
  }

  lemma InQueue(k: KState, t: nat, id: QueueId)
    requires AtRest(k) && t < |k.tasks| && id in k.q
    ensures Times(k.q[id], t) == if StateMatches(k, t, id) then 1 else 0
  {
    PlaceMatches(k, t, id);
    assert QueueOk(k.tasks, k.q[id], id) && Placed(k.tasks, k.q, t);
    TimesOnce(k.q[id], t);
  }

  /** Every task stands in the queues that match its state word, priority and wait object, once in
      each, and in no others. */
  lemma NothingLostOrDoubled(k: KState, steps: seq<Step>, r: KState, t: nat)
    requires Good(k) && Run(k, steps) == Some(r) && !r.halted && t < |k.tasks|
    ensures forall id | id in r.q :: Times(r.q[id], t) == if StateMatches(r, t, id) then 1 else 0
  {
    forall id | id in r.q ensures Times(r.q[id], t) == if StateMatches(r, t, id) then 1 else 0 {
      InQueue(r, t, id);
    }
  }

  /** A ready or waiting task matches exactly one queue, a dormant one none; the init task, when it
      is ready, stands in its own cell instead of a queue. */
  lemma OnePlace(k: KState, steps: seq<Step>, r: KState, t: nat)
    requires Good(k) && Run(k, steps) == Some(r) && !r.halted && t < |k.tasks|
    ensures ExactlyOnePlace(r, t)
  {
    RestPlace(r, t);
  }

  ghost predicate ExactlyOnePlace(k: KState, t: nat)
    requires t < |k.tasks|
  {
    && (t == INIT_TASK_ID ==> (k.initQue <==> k.tasks[t].state == {READY}))
    && ((exists id :: id in k.q && StateMatches(k, t, id)) <==>
          k.tasks[t].state != {DORMANT} && !(t == INIT_TASK_ID && k.initQue))
    && (forall id, id' | id in k.q && id' in k.q && StateMatches(k, t, id) && StateMatches(k, t, id') :: id == id')
  }

  lemma RestPlace(k: KState, t: nat)
    requires AtRest(k) && t < |k.tasks|
    ensures ExactlyOnePlace(k, t)
  {
    var w := Place(t, k.tasks[t]);
    forall id | id in k.q ensures StateMatches(k, t, id) <==> w == Some(id) { PlaceMatches(k, t, id); }
    assert Settled(k.tasks[t]) && Placed(k.tasks, k.q, t) && RecordOk(|k.mtxs|, k.tasks[t]);
    if w.Some? {
      assert StateMatches(k, t, w.value);
    }
  }

  // ---- Semaphores ------------------------------------------------------------------------------

  /** Resources available less resources asked for in vain. */
  function Balance(k: KState, s: nat): (r: int)
    requires s < |k.sems| && SemQ(s) in k.q
  {
    k.sems[s].value - |k.q[SemQ(s)]|
  }

  /** What a call adds to semaphore s, judged by the call and the code it returns alone: an accepted
      signal adds one, an accepted wait or poll takes one. */
  function Effect(c: Call, er: int, s: nat): (r: int) {
    if er != E_OK then 0
    else match c
      case SigSem(s') => if s' == s then 1 else 0
      case WaiSem(s') => if s' == s then -1 else 0
      case PolSem(s') => if s' == s then -1 else 0
      case _ => 0
  }

  lemma CallBalance(k: KState, c: Call, s: nat)
    requires OutOf(k) && LocksOk(k) && Admits(k, c) && s < |k.sems|
    ensures var r := Dispatch(k, c); s < |r.k.sems| && SemQ(s) in r.k.q
    ensures var r := Dispatch(k, c); Balance(r.k, s) == Balance(k, s) + Effect(c, r.er, s)
  {
    if c.WaiSem? || c.PolSem? || c.SigSem? { SemCallBalance(k, c, s); } else { OtherCallBalance(k, c, s); }
  }

  lemma SemCallBalance(k: KState, c: Call, s: nat)
    requires OutOf(k) && LocksOk(k) && (c.WaiSem? || c.PolSem? || c.SigSem?) && s < |k.sems|
    ensures var r := Dispatch(k, c); s < |r.k.sems| && SemQ(s) in r.k.q
    ensures var r := Dispatch(k, c); Balance(r.k, s) == Balance(k, s) + Effect(c, r.er, s)
  {
    PutCurrentSetup(k);
    if c.s < k.ids.sem && c.s < |k.sems| {
      assert SemOk(k, c.s);
      if c.SigSem? { SignalBalance(k, c.s, s); }
    }
  }

  lemma OtherCallBalance(k: KState, c: Call, s: nat)
    requires OutOf(k) && LocksOk(k) && Admits(k, c) && !c.WaiSem? && !c.PolSem? && !c.SigSem?
    requires s < |k.sems|
    ensures var k' := Dispatch(k, c).k; s < |k'.sems| && SemQ(s) in k'.q && Balance(k', s) == Balance(k, s)
  {
    hide LocksOk;
    PutCurrentSetup(k);
    match c
    case LocMtx(m) => LocMtxSetup(k, m);
    case UnlMtx(m) => UnlMtxSetup(k, m);
    case ChgPri(t, p) => if t < |k.tasks| { ChgPriOk(k, t, p); }
    case StaTsk(t) => if t < |k.tasks| { StaTskOk(k, t); }
  }

  lemma SignalBalance(k: KState, i: nat, s: nat)
    requires OutOf(k) && LocksOk(k) && i < |k.sems| && s < |k.sems|
    ensures var r := KernelCalls.SigSem(k, i); s < |r.k.sems| && SemQ(s) in r.k.q
    ensures var r := KernelCalls.SigSem(k, i);
            Balance(r.k, s) == Balance(k, s) + if i == s && r.er == E_OK then 1 else 0
  {
    PutCurrentSame(k);
    PutCurrentRests(k);
    SignalIsrBalance(PutCurrent(k), i, s);
  }

  lemma SignalIsrBalance(k: KState, i: nat, s: nat)
    requires AtRest(k) && i < |k.sems| && s < |k.sems|
    ensures var r := SigSemIsr(k, i); s < |r.k.sems| && SemQ(s) in r.k.q
    ensures var r := SigSemIsr(k, i);
            Balance(r.k, s) == Balance(k, s) + if i == s && r.er == E_OK then 1 else 0
  {
    if k.q[SemQ(i)] != [] { WakePut(k, SemQ(i), k.sems[i].order); }
  }

  /** What a step adds to semaphore s. */
  ghost function StepEffect(k: KState, step: Step, s: nat): (r: int)
    requires Good(k) && StepOk(k, step)
  {
    if step.Syscall? then Effect(step.c, SyscallStep(k, step.c).er, s) else 0
  }

  lemma StepBalance(k: KState, step: Step, s: nat)
    requires Good(k) && StepOk(k, step) && s < |k.sems|
    ensures var k' := StepTo(k, step);
            s < |k'.sems| && SemQ(s) in k'.q && Balance(k', s) == Balance(k, s) + StepEffect(k, step, s)
  {
    hide LocksOk;
    TakeOut(k);
    GetCurrentSame(k);
    var out := GetCurrent(k);
    match step
    case Syscall(c) => CallBalance(out, c, s);
    case RoundRobinExpiry => PutCurrentSame(out);
    case FeedbackExpiry =>
      DemoteSame(out);
      PutCurrentSame(Demote(out));
  }

  /** Signals accepted less waits and polls accepted in a run. */
  ghost function Tally(k: KState, steps: seq<Step>, s: nat): (r: int)
    requires Good(k) && Run(k, steps).Some?
  {
    if steps == [] then 0
    else
      var last := |steps| - 1;
      var k1 := Run(k, steps[..last]).value;
      Tally(k, steps[..last], s) + if k1.halted then 0 else StepEffect(k1, steps[last], s)
  }

  /** Every accepted signal and wait is accounted for: the value equals the initial value plus the
      signals accepted less the waits granted, where the waits granted are those accepted less those
      still waiting; and a task waits only while the value is 0. */
  lemma {:induction false} SemaphoreConservation(k: KState, steps: seq<Step>, r: KState, s: nat)
    requires Started(k) && s < |k.sems|
    ensures Good(k)
    ensures Run(k, steps) == Some(r) ==>
              && SemQ(s) in r.q
              && r.sems[s].value == k.sems[s].value + Tally(k, steps, s) + |r.q[SemQ(s)]|
              && 0 <= r.sems[s].value <= k.sems[s].max
              && (r.q[SemQ(s)] != [] ==> r.sems[s].value == 0)
    decreases |steps|
  {
    StartedIsGood(k);
    if steps == [] {
      assert k.q[SemQ(s)] == [];
    } else if Run(k, steps) == Some(r) {
      var last := |steps| - 1;
      var k1 := Run(k, steps[..last]).value;
      SemaphoreConservation(k, steps[..last], k1, s);
      if !k1.halted { StepBalance(k1, steps[last], s); }
      assert SemOk(r, s);
    }
  }

  // ---- Scheduling ------------------------------------------------------------------------------

  /** The scheduler's choice: the first task of the best non-empty ready queue, or the init task. */
  ghost predicate Chosen(k: KState)
    requires WF(k)
  {
    match LeastReady(k.q, 0)
    case Some(p) =>
      k.cur == k.q[ReadyQ(p)][0] && k.cur != INIT_TASK_ID && k.tasks[k.cur].pri == p
    case None => k.cur == INIT_TASK_ID
  }

  /** The running task is first in its queue, and no ready task u has a better priority. */
  ghost predicate RunsBefore(k: KState, u: nat)
    requires WF(k) && u < |k.tasks|
  {
    var p := k.tasks[k.cur].pri;
    && k.cur != INIT_TASK_ID && p <= k.tasks[u].pri
    && ReadyQ(p) in k.q && k.q[ReadyQ(p)] != [] && k.q[ReadyQ(p)][0] == k.cur
  }

  /** The running task is first in the queue of the best priority that any ready task has; the init
      task runs only when no other task is ready. */
  lemma BestTaskRuns(k: KState, steps: seq<Step>, r: KState, u: nat)
    requires Good(k) && Run(k, steps) == Some(r) && steps != [] && !r.halted
    requires u < |k.tasks| && u != INIT_TASK_ID && r.tasks[u].state == {READY}
    ensures RunsBefore(r, u)
  {
    LastPicked(k, steps, r);
    ChosenIsBest(r, u);
  }

  lemma LastPicked(k: KState, steps: seq<Step>, r: KState)
    requires Good(k) && Run(k, steps) == Some(r) && steps != [] && !r.halted
    ensures Chosen(r)
  {
    var last := |steps| - 1;
    Picked(Run(k, steps[..last]).value, steps[last]);
  }

  lemma ChosenIsBest(k: KState, u: nat)
    requires WF(k) && Chosen(k) && u < |k.tasks| && u != INIT_TASK_ID && k.tasks[u].state == {READY}
    ensures RunsBefore(k, u)
  {
    assert Placed(k.tasks, k.q, u);
  }

  /** Every step ends with the scheduler's choice. */
  lemma Picked(k: KState, step: Step)
    requires Good(k) && StepOk(k, step) && !StepTo(k, step).halted
    ensures WF(StepTo(k, step)) && Chosen(StepTo(k, step))
  {
    TakeOut(k);
    var out := GetCurrent(k);
    match step
    case Syscall(c) => DispatchOk(out, c); ScheduleChoice(Dispatch(out, c).k);
    case RoundRobinExpiry => PutCurrentRests(out); ScheduleChoice(PutCurrent(out));
    case FeedbackExpiry => PutCurrentRests(Demote(out)); ScheduleChoice(PutCurrent(Demote(out)));
  }

  lemma ScheduleChoice(k: KState)
    requires AtRest(k) && !Schedule(k).halted
    ensures Chosen(Schedule(k))
  {
    var p := LeastReady(k.q, 0);
    if p.Some? { assert QueueOk(k.tasks, k.q[ReadyQ(p.value)], ReadyQ(p.value)); }
  }

  /** The queue s without task t. */
  function Others(s: seq<nat>, t: nat): (r: seq<nat>) {
    if s == [] then [] else (if s[0] == t then [] else [s[0]]) + Others(s[1..], t)
  }

  lemma {:induction false} OthersConcat(s: seq<nat>, s': seq<nat>, t: nat)
    ensures Others(s + s', t) == Others(s, t) + Others(s', t)
  {
    if s == [] {
      assert s + s' == s';
    } else {
      assert (s + s')[1..] == s[1..] + s';
      OthersConcat(s[1..], s', t);
    }
  }

  lemma {:induction false} OthersWithout(s: seq<nat>, i: nat)
    requires i < |s|
    ensures Others(Without(s, i), s[i]) == Others(s, s[i])
  {
    OthersConcat(s[..i], s[i + 1..], s[i]);
    OthersConcat(s[..i], [s[i]] + s[i + 1..], s[i]);
    assert s == s[..i] + ([s[i]] + s[i + 1..]);
    assert ([s[i]] + s[i + 1..])[1..] == s[i + 1..];
  }

  /** Changing the priority of a ready task puts it last in its new queue and leaves the order of all
      other tasks in every queue as it was. */
  lemma MoveKeepsOrder(k: KState, t: nat, p: int)
    requires WF(k) && t < |k.tasks| && t != INIT_TASK_ID && k.tasks[t].state == {READY} && PriInRange(p)
    ensures var r := MoveReady(k, t, p);
            && (forall id | id in k.q :: id in r.q && Others(r.q[id], t) == Others(k.q[id], t))
            && r.q[ReadyQ(p)] != [] && r.q[ReadyQ(p)][|r.q[ReadyQ(p)]| - 1] == t
  {
    assert Placed(k.tasks, k.q, t);
    var from := ReadyQ(k.tasks[t].pri);
    var k1 := GetReady(k, t);
    OthersWithout(k.q[from], IndexOf(k.q[from], t));
    var s := k1.q[ReadyQ(p)];
    OthersConcat(s, [t], t);
    var r := MoveReady(k, t, p);
    assert r.q == k1.q[ReadyQ(p) := s + [t]];
    forall id | id in k.q ensures id in r.q && Others(r.q[id], t) == Others(k.q[id], t) {
    }
  }
}
