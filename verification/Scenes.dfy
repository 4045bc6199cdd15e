/** Runs in small kernels, played on what can be seen of them: the task records, the control blocks and the
    wait queues.  Each move is a step of the kernel, and the moves cover the calls that the concrete runs
    need; which task runs next follows when one ready task has the best priority alone. */
module Scenes {
  import opened KernelState
  import opened KernelCalls
  import opened KernelRun
  import opened LockInvariants
  import opened KernelTheorems
  import opened RunTheorems
  import opened PriorityFrames

  datatype Scene = Scene(tasks: seq<Task>, wait: map<QueueId, seq<nat>>, sems: seq<Semaphore>,
                         mtxs: seq<Mutex>, virt: Mutex, high: seq<nat>, ids: Sizes, cur: nat)

  /** What the scene says of all but the ready queues. */
  ghost predicate Stands(k: KState, s: Scene) {
    && k.tasks == s.tasks && k.sems == s.sems && k.mtxs == s.mtxs && k.virt == s.virt && k.high == s.high
    && k.ids == s.ids && !k.halted
    && (forall id: QueueId | !id.ReadyQ? :: id in k.q <==> id in s.wait)
    && (forall id | id in s.wait :: id.ReadyQ? || k.q[id] == s.wait[id])
  }

  ghost predicate Shows(k: KState, s: Scene) {
    Good(k) && Stands(k, s) && k.cur == s.cur
  }

  // ---- Moves -----------------------------------------------------------------------------------

  function Raised(tasks: seq<Task>, t: nat, p: int): (r: seq<Task>)
    requires t < |tasks|
  {
    if p < tasks[t].pri then tasks[t := tasks[t].(pri := p)] else tasks
  }

  function Taken(mx: Mutex, t: nat): (r: Mutex) {
    mx.(value := 1, locks := mx.locks + 1, owner := t)
  }

  /** Task cur is put on the wait queue id, for the object o. */
  function Waiting(s: Scene, id: QueueId, b: StateBit, o: WaitObject): (r: Option<Scene>) {
    if s.cur < |s.tasks| && id in s.wait && !id.ReadyQ? then
      Some(s.(tasks := s.tasks[s.cur := s.tasks[s.cur].(state := {b}, wobj := o)],
              wait := s.wait[id := s.wait[id] + [s.cur]]))
    else None
  }

  function Boosted(s: Scene, o: int): (r: Option<Scene>) {
    if s.cur < |s.tasks| && 0 <= o < |s.tasks| && o != s.cur && s.tasks[o].state != {DORMANT} then
      Some(s.(tasks := Raised(s.tasks, o, s.tasks[s.cur].pri)))
    else None
  }

  function Start(s: Scene, t: nat): (r: Option<Scene>) {
    if t < |s.tasks| && t < s.ids.tsk && s.tasks[t].state == {DORMANT} then
      Some(s.(tasks := s.tasks[t := WithState(s.tasks[t], {READY})]))
    else None
  }

  function Lock(s: Scene, m: nat): (r: Option<Scene>) {
    if !(m < |s.mtxs| && m < s.ids.mtx && s.cur < |s.tasks|) then None
    else
      var mx := s.mtxs[m];
      var taken := s.(mtxs := s.mtxs[m := Taken(mx, s.cur)]);
      match mx.protocol
      case VOIDPCL => None
      case INHERIT =>
        if mx.owner == NO_OWNER && mx.value == 0 then Some(taken)
        else if mx.owner == NO_OWNER then None
        else
          var b := Boosted(s, mx.owner);
          if b.Some? then Waiting(b.value, MtxQ(m), WAIT_MUTEX, OnMutex(m)) else None
      case VINHERIT =>
        if s.virt.owner == NO_OWNER && s.virt.value == 0 && mx.value == 0 then
          Some(taken.(virt := Taken(s.virt, s.cur)))
        else if s.virt.owner == NO_OWNER then None
        else
          var b := Boosted(s, s.virt.owner);
          if b.Some? then Waiting(b.value, VirtQ, WAIT_VIRTUAL_MUTEX, OnMutex(m)) else None
      case IMHIGHLOC =>
        if mx.owner != NO_OWNER then
          if mx.owner != s.cur then Waiting(s, MtxQ(m), WAIT_MUTEX, OnMutex(m)) else None
        else if mx.value != 0 || mx.ceiling < 0 then None
        else if s.tasks[s.cur].pri > mx.ceiling then
          if m in s.high then None
          else Some(taken.(tasks := Raised(s.tasks, s.cur, mx.ceiling), high := [m] + s.high))
        else Some(taken)
  }

  /** A raised mutex that nobody waits for is given up by a task at its initial priority. */
  function Unlock(s: Scene, m: nat): (r: Option<Scene>) {
    if m < |s.mtxs| && m < s.ids.mtx && s.cur < |s.tasks| && MtxQ(m) in s.wait && s.wait[MtxQ(m)] == []
       && s.mtxs[m].protocol == IMHIGHLOC && s.mtxs[m].owner == s.cur && s.mtxs[m].locks == 1
       && s.tasks[s.cur].pri == s.tasks[s.cur].initPri then
      var mx := s.mtxs[m];
      Some(s.(mtxs := s.mtxs[m := mx.(value := mx.value - 1, locks := 0, owner := NO_OWNER)]))
    else None
  }

  function Wait(s: Scene, i: nat): (r: Option<Scene>) {
    if i < |s.sems| && i < s.ids.sem && s.sems[i].value < 1 then
      Waiting(s, SemQ(i), WAIT_SEMAPHORE, OnSemaphore(i))
    else None
  }

  function Signal(s: Scene, i: nat): (r: Option<Scene>) {
    if i < |s.sems| && i < s.ids.sem && SemQ(i) in s.wait && s.wait[SemQ(i)] != [] && s.sems[i].order == TFIFO then
      var w, t := s.wait[SemQ(i)], s.wait[SemQ(i)][0];
      if t < |s.tasks| then
        Some(s.(tasks := s.tasks[t := s.tasks[t].(state := {READY}, wobj := NoObject)],
                wait := s.wait[SemQ(i) := w[1..]]))
      else None
    else None
  }

  /** The caller sets its own priority. */
  function SetOwn(s: Scene, t: nat, p: int): (r: Option<Scene>) {
    if t == s.cur < |s.tasks| && t < s.ids.tsk && PriInRange(p) then
      Some(s.(tasks := s.tasks[t := s.tasks[t].(pri := p)]))
    else None
  }

  function Moved(s: Scene, c: Call): (r: Option<Scene>) {
    match c
    case LocMtx(m) => Lock(s, m)
    case UnlMtx(m) => Unlock(s, m)
    case StaTsk(t) => Start(s, t)
    case WaiSem(i) => Wait(s, i)
    case SigSem(i) => Signal(s, i)
    case ChgPri(t, p) => SetOwn(s, t, p)
    case _ => None
  }

  /** Task t has the best priority of all ready tasks alone, or is the init task and ready alone. */
  predicate RunsNext(s: Scene, t: nat) {
    && t < |s.tasks| && s.tasks[t].state == {READY}
    && (forall u | 0 < u < |s.tasks| && u != t && READY in s.tasks[u].state ::
          t != INIT_TASK_ID && s.tasks[t].pri < s.tasks[u].pri)
  }

  /** A call and the task that runs after it. */
  function Play(s: Scene, c: Call, next: nat): (r: Option<Scene>) {
    var r := Moved(s, c);
    if r.Some? && RunsNext(r.value, next) then Some(r.value.(cur := next)) else None
  }

  // ---- Each move is a step of the kernel -------------------------------------------------------

  /** The scene inside a call: the caller is out of its ready queue. */
  ghost predicate Entered(k: KState, s: Scene) {
    && OutOf(k) && k.cur == s.cur < |s.tasks| && s.tasks[s.cur].state == {READY}
    && Stands(k, s.(tasks := s.tasks[s.cur := WithState(s.tasks[s.cur], {})]))
  }

  lemma Enter(k: KState, s: Scene)
    requires Shows(k, s)
    ensures Entered(GetCurrent(k), s)
  {
    GetCurrentOut(k);
  }

  lemma PutBack(k: KState, s: Scene)
    requires Entered(k, s)
    ensures AtRest(PutCurrent(k)) && Stands(PutCurrent(k), s)
  {
    PutCurrentRests(k);
    assert {} + {READY} == {READY};
    assert s.tasks[s.cur := WithState(s.tasks[s.cur], {})][s.cur := WithState(s.tasks[s.cur], {READY})] == s.tasks;
  }

  lemma StartMoves(k: KState, s: Scene, t: nat)
    requires Entered(k, s) && Start(s, t).Some?
    ensures Stands(KernelCalls.StaTsk(k, t).k, Start(s, t).value)
  {
    PutBack(k, s);
    var k1 := PutCurrent(k).(cur := t);
    var k2 := SetRecord(k1, t, WithState(k1.tasks[t], {}));
    assert {} + {READY} == {READY};
    assert k2.tasks[t := WithState(k2.tasks[t], {READY})] == Start(s, t).value.tasks;
  }

  lemma WaitingMoves(k: KState, s: Scene, id: QueueId, b: StateBit, o: WaitObject)
    requires Entered(k, s) && Waiting(s, id, b, o).Some? && (o.OnMutex? ==> o.m < |k.mtxs|)
    requires || (b == WAIT_SEMAPHORE && o.OnSemaphore? && id == SemQ(o.s))
             || (b == WAIT_MUTEX && o.OnMutex? && id == MtxQ(o.m))
             || (b == WAIT_VIRTUAL_MUTEX && o.OnMutex? && id == VirtQ)
    ensures Stands(WaitOn(k, id, b, o), Waiting(s, id, b, o).value)
  {
    assert {} + {b} == {b};
  }

  lemma BoostMoves(k: KState, s: Scene, o: nat)
    requires Entered(k, s) && LocksOk(k) && Boosted(s, o).Some?
    ensures Entered(BoostOwner(k, o), Boosted(s, o).value)
  {
    BoostEffect(k, o);
    var p := s.tasks[s.cur].pri;
    var out := s.tasks[s.cur := WithState(s.tasks[s.cur], {})];
    assert Raised(out, o, p) == Raised(s.tasks, o, p)[s.cur := WithState(s.tasks[s.cur], {})];
  }

  lemma FirstMoves(k: KState, s: Scene, m: nat)
    requires Entered(k, s) && m < |s.mtxs| && s.mtxs[m].value == 0
    ensures Stands(LocFirst(k, m), s.(mtxs := s.mtxs[m := Taken(s.mtxs[m], s.cur)]))
  {
    PutBack(k, s);
  }

  lemma LockInherMoves(k: KState, s: Scene, m: nat)
    requires Entered(k, s) && LocksOk(k) && Lock(s, m).Some? && s.mtxs[m].protocol == INHERIT
    ensures Stands(LocInher(k, m).k, Lock(s, m).value)
  {
    var o := s.mtxs[m].owner;
    if o == NO_OWNER {
      FirstMoves(k, s, m);
    } else {
      BoostMoves(k, s, o);
      WaitingMoves(BoostOwner(k, o), Boosted(s, o).value, MtxQ(m), WAIT_MUTEX, OnMutex(m));
    }
  }

  lemma LockVirtualMoves(k: KState, s: Scene, m: nat)
    requires Entered(k, s) && LocksOk(k) && Lock(s, m).Some? && s.mtxs[m].protocol == VINHERIT
    ensures Stands(LocVinher(k, m).k, Lock(s, m).value)
  {
    var o := s.virt.owner;
    if o == NO_OWNER {
      FirstMoves(LocVirtual(k), s.(virt := Taken(s.virt, s.cur)), m);
    } else {
      BoostMoves(k, s, o);
      WaitingMoves(BoostOwner(k, o), Boosted(s, o).value, VirtQ, WAIT_VIRTUAL_MUTEX, OnMutex(m));
    }
  }

  lemma LockHighMoves(k: KState, s: Scene, m: nat)
    requires Entered(k, s) && Lock(s, m).Some? && s.mtxs[m].protocol == IMHIGHLOC
    ensures !Relists(k, m) && Stands(LocImHigh(k, m).k, Lock(s, m).value)
  {
    if s.mtxs[m].owner != NO_OWNER { WaitingMoves(k, s, MtxQ(m), WAIT_MUTEX, OnMutex(m)); }
    else if s.tasks[s.cur].pri > s.mtxs[m].ceiling { RaiseMoves(k, s, m); } else { FirstMoves(k, s, m); }
  }

  lemma RaiseMoves(k: KState, s: Scene, m: nat)
    requires Entered(k, s) && m < |s.mtxs| && s.mtxs[m].value == 0 && m !in s.high
    requires 0 <= s.mtxs[m].ceiling < s.tasks[s.cur].pri && s.mtxs[m].owner == NO_OWNER
    ensures Stands(LocImHigh(k, m).k,
                   s.(mtxs := s.mtxs[m := Taken(s.mtxs[m], s.cur)], high := [m] + s.high,
                      tasks := Raised(s.tasks, s.cur, s.mtxs[m].ceiling)))
  {
    var p, k1 := s.mtxs[m].ceiling, PutHigh(k, m);
    assert RecordOk(|k.mtxs|, k.tasks[k.cur]);
    IchgPriEffect(k1, k.cur, p);
    var s2 := s.(high := [m] + s.high, tasks := Raised(s.tasks, s.cur, p));
    assert IchgPri(k1, k.cur, p).tasks == s2.tasks[s.cur := WithState(s2.tasks[s.cur], {})];
    FirstMoves(IchgPri(k1, k.cur, p), s2, m);
  }

  lemma UnlockMoves(k: KState, s: Scene, m: nat)
    requires Entered(k, s) && Unlock(s, m).Some?
    ensures Stands(UnlImHigh(k, m).k, Unlock(s, m).value)
  {
    PutBack(k, s);
  }

  lemma SignalMoves(k: KState, s: Scene, i: nat)
    requires Entered(k, s) && Signal(s, i).Some?
    ensures Stands(KernelCalls.SigSem(k, i).k, Signal(s, i).value)
  {
    PutBack(k, s);
    var k1, id := PutCurrent(k), SemQ(i);
    assert QueueOk(k1.tasks, k1.q[id], id);
    var k2 := Wake(k1, id, TFIFO);
    PutCurrentRests(k2);
    assert {} + {READY} == {READY};
    var t := s.wait[id][0];
    assert k2.tasks[t := WithState(k2.tasks[t], {READY})] == Signal(s, i).value.tasks;
    assert PutCurrent(k2).q[id] == s.wait[id][1..];
  }

  lemma SetOwnMoves(k: KState, s: Scene, t: nat, p: int)
    requires Entered(k, s) && SetOwn(s, t, p).Some?
    ensures Stands(KernelCalls.ChgPri(k, t, p).k, SetOwn(s, t, p).value)
  {
    SetPriOutOf(k, t, p);
    var s' := SetOwn(s, t, p).value;
    assert SetPri(k, t, p).tasks == s'.tasks[s.cur := WithState(s'.tasks[s.cur], {})];
    PutBack(SetPri(k, t, p), s');
  }

  lemma CallMoves(k: KState, s: Scene, c: Call)
    requires Entered(k, s) && LocksOk(k) && Moved(s, c).Some?
    ensures Admits(k, c) && Stands(Dispatch(k, c).k, Moved(s, c).value)
  {
    hide LocksOk, QueuesOk;
    match c
    case LocMtx(m) => LockMoves(k, s, m);
    case UnlMtx(m) => UnlockMoves(k, s, m);
    case StaTsk(t) => StartMoves(k, s, t);
    case WaiSem(i) => WaitingMoves(k, s, SemQ(i), WAIT_SEMAPHORE, OnSemaphore(i));
    case SigSem(i) => SignalMoves(k, s, i);
    case ChgPri(t, p) => SetOwnMoves(k, s, t, p);
  }

  lemma LockMoves(k: KState, s: Scene, m: nat)
    requires Entered(k, s) && LocksOk(k) && Lock(s, m).Some?
    ensures Admits(k, LocMtx(m)) && Stands(LocMtxCall(k, m).k, Lock(s, m).value)
  {
    match s.mtxs[m].protocol
    case INHERIT => LockInherMoves(k, s, m);
    case VINHERIT => LockVirtualMoves(k, s, m);
    case IMHIGHLOC => LockHighMoves(k, s, m);
  }

  /** The scheduler runs the task that has the best priority alone. */
  lemma PicksNext(k: KState, s: Scene, t: nat)
    requires WF(k) && Chosen(k) && Stands(k, s) && RunsNext(s, t)
    ensures k.cur == t
  {
    assert Placed(k.tasks, k.q, t) && RecordOk(|k.mtxs|, k.tasks[t]);
    var r := LeastReady(k.q, 0);
    if r.Some? {
      assert QueueOk(k.tasks, k.q[ReadyQ(r.value)], ReadyQ(r.value));
      assert Placed(k.tasks, k.q, k.cur);
    }
  }

  /** A move and the pick after it are a step of the kernel. */
  lemma Plays(k: KState, s: Scene, c: Call, next: nat) returns (k': KState)
    requires Shows(k, s) && Play(s, c, next).Some?
    ensures Next(k, Syscall(c)) == Some(k') && Shows(k', Play(s, c, next).value)
  {
    Enter(k, s);
    TakeOut(k);
    var out := GetCurrent(k);
    CallMoves(out, s, c);
    DispatchOk(out, c);
    StepKeepsGood(k, Syscall(c));
    k' := SyscallStep(k, c).k;
    assert READY in k'.tasks[next].state;
    Picked(k, Syscall(c));
    PicksNext(k', Moved(s, c).value, next);
  }

  // ---- Runs ------------------------------------------------------------------------------------

  /** A call by the running task, and the task that runs after it. */
  datatype Turn = Turn(c: Call, next: nat)

  function Steps(turns: seq<Turn>): (r: seq<Step>)
    ensures |r| == |turns|
  {
    seq(|turns|, i requires 0 <= i < |turns| => Syscall(turns[i].c))
  }

  function PlayAll(s: Scene, turns: seq<Turn>): (r: Option<Scene>)
    decreases |turns|
  {
    if turns == [] then Some(s)
    else
      var last := |turns| - 1;
      match PlayAll(s, turns[..last])
      case None => None
      case Some(s1) => Play(s1, turns[last].c, turns[last].next)
  }

  lemma PlayOn(s: Scene, turns: seq<Turn>, t: Turn)
    ensures PlayAll(s, turns + [t]) ==
            match PlayAll(s, turns) case None => None case Some(s1) => Play(s1, t.c, t.next)
  {
    assert (turns + [t])[..|turns|] == turns;
  }

  /** What is played is a run of the kernel. */
  lemma {:induction false} RunPlays(k: KState, s: Scene, turns: seq<Turn>)
    requires Shows(k, s) && PlayAll(s, turns).Some?
    ensures Good(k) && Run(k, Steps(turns)).Some?
    ensures Shows(Run(k, Steps(turns)).value, PlayAll(s, turns).value)
    decreases |turns|
  {
    hide Stands, Play, Next, Good;
    if turns != [] {
      var last := |turns| - 1;
      RunPlays(k, s, turns[..last]);
      assert Steps(turns)[..last] == Steps(turns[..last]);
      var k1, s1 := Run(k, Steps(turns[..last])).value, PlayAll(s, turns[..last]).value;
      var k' := Plays(k1, s1, turns[last].c, turns[last].next);
    }
  }

  lemma Begin(s: Scene, turns: seq<Turn>)
    ensures PlayAll(s, turns[..0]) == Some(s)
  {
  }

  /** The turn i of a play, from scene a to scene b. */
  lemma Stage(s: Scene, turns: seq<Turn>, i: nat, a: Scene, b: Scene)
    requires i < |turns| && PlayAll(s, turns[..i]) == Some(a) && Moved(a, turns[i].c).Some?
    requires var m := Moved(a, turns[i].c).value;
             && m.tasks == b.tasks && m.sems == b.sems && m.mtxs == b.mtxs && m.virt == b.virt && m.high == b.high
             && m.ids == b.ids && m.wait.Keys == b.wait.Keys && (forall id | id in m.wait :: m.wait[id] == b.wait[id])
    requires b.cur == turns[i].next && RunsNext(b, turns[i].next)
    ensures PlayAll(s, turns[..i + 1]) == Some(b)
  {
    var m := Moved(a, turns[i].c).value;
    assert m.wait == b.wait;
    assert m.(cur := b.cur) == b;
    PlayOn(s, turns[..i], turns[i]);
    assert turns[..i + 1] == turns[..i] + [turns[i]];
  }
}
