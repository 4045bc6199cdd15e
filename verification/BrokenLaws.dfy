/** Runs from the start of small kernels whose last step breaks the law that a protocol is named for, or
    another one, in the way that the exact condition of that law tells. */
module BrokenLaws {
  import opened KernelState
  import opened KernelCalls
  import opened KernelRun
  import opened KernelTheorems
  import opened RunTheorems
  import opened PriorityFrames
  import opened KernelBoot
  import opened Scenes
  import opened VirtualMutex
  import opened Inheritance
  import opened HighestLocker
  import opened HighestLockerRuns
  import opened ListedMutexes
  import VirtualRuns
  import NestedInheritance

  // ---- Small kernels ---------------------------------------------------------------------------

  /** A kernel with tasks of the given priorities, the init task started. */
  function Small(pris: seq<int>, sems: seq<Semaphore>, mtxs: seq<Mutex>, virt: Mutex): (r: KState)
    requires |pris| > 0
  {
    Booted(Installed(pris, sems, mtxs, virt, Sizes(|pris|, |sems|, |mtxs|)))
  }

  /** The scene it starts with. */
  function Opening(pris: seq<int>, sems: seq<Semaphore>, mtxs: seq<Mutex>, virt: Mutex): (r: Scene)
    requires |pris| > 0
  {
    var tasks := seq(|pris|, t requires 0 <= t < |pris| => Fresh(pris[t]));
    Scene(tasks[INIT_TASK_ID := Ready(pris[INIT_TASK_ID], pris[INIT_TASK_ID])],
          map id | id in QueueIds(|sems|, |mtxs|) && !id.ReadyQ? :: [], sems, mtxs, virt, [],
          Sizes(|pris|, |sems|, |mtxs|), INIT_TASK_ID)
  }

  function Fresh(pri: int): (r: Task) { Task(pri, pri, {DORMANT}, NoObject) }

  function Ready(initPri: int, pri: int): (r: Task) { Task(initPri, pri, {READY}, NoObject) }

  lemma SmallShows(pris: seq<int>, sems: seq<Semaphore>, mtxs: seq<Mutex>, virt: Mutex)
    requires |pris| > 0 && (forall t | 0 <= t < |pris| :: PriInRange(pris[t])) && ObjectsNew(sems, mtxs, virt)
    ensures var k := Small(pris, sems, mtxs, virt);
            Started(k) && Good(k) && Scenes.Shows(k, Opening(pris, sems, mtxs, virt))
  {
    var k := Small(pris, sems, mtxs, virt);
    BootedIsStarted(pris, sems, mtxs, virt, Sizes(|pris|, |sems|, |mtxs|));
    StartedIsGood(k);
    assert k.tasks == Opening(pris, sems, mtxs, virt).tasks;
  }

  /** The state after the turns, of which the scene is known, and after one step more. */
  lemma LastStep(k: KState, s: Scene, turns: seq<Turn>, step: Step) returns (r: KState)
    requires Scenes.Shows(k, s) && PlayAll(s, turns).Some?
    ensures Good(k) && Good(r) && Run(k, Steps(turns)) == Some(r) && Scenes.Shows(r, PlayAll(s, turns).value)
    ensures Run(k, Steps(turns) + [step]) == if StepOk(r, step) then Some(StepTo(r, step)) else None
  {
    RunPlays(k, s, turns);
    r := Run(k, Steps(turns)).value;
    var steps := Steps(turns) + [step];
    assert steps[..|turns|] == Steps(turns) && steps[..|turns| + 1] == steps;
    RunNext(k, steps, |turns|);
  }

  const VIRTUAL := Mutex(VINHERIT, TFIFO, 0, 0, 1, NO_OWNER, 0)

  function OnVirtual(pri: int): (r: Task) { Task(pri, pri, {WAIT_VIRTUAL_MUTEX}, OnMutex(0)) }

  // ---- Virtual inheritance: a first-come hand-over ------------------------------------------------

  function FifoKernel(): (r: KState) { Small([31, 7, 5, 3], [], [VIRTUAL], VIRTUAL) }

  function FifoOpening(): (r: Scene) { Opening([31, 7, 5, 3], [], [VIRTUAL], VIRTUAL) }

  /** Task 1 locks the mutex, then task 2 and the better task 3 wait for it. */
  function FifoTurns(): (r: seq<Turn>) {
    [Turn(StaTsk(1), 1), Turn(LocMtx(0), 1), Turn(StaTsk(2), 2), Turn(LocMtx(0), 1), Turn(StaTsk(3), 3),
     Turn(LocMtx(0), 1)]
  }

  function FifoAt(pri: int, t2: Task, t3: Task, w: seq<nat>, mx: Mutex, cur: nat): (r: Scene) {
    FifoOpening().(tasks := [Ready(31, 31), Ready(7, pri), t2, t3], mtxs := [mx], virt := mx,
      wait := FifoOpening().wait[VirtQ := w], cur := cur)
  }

  /** The scene after i turns. */
  function FifoScene(i: nat): (r: Scene) {
    match i
    case 0 => FifoOpening()
    case 1 => FifoAt(7, Fresh(5), Fresh(3), [], VIRTUAL, 1)
    case 2 => FifoAt(7, Fresh(5), Fresh(3), [], Taken(VIRTUAL, 1), 1)
    case 3 => FifoAt(7, Ready(5, 5), Fresh(3), [], Taken(VIRTUAL, 1), 2)
    case 4 => FifoAt(5, OnVirtual(5), Fresh(3), [2], Taken(VIRTUAL, 1), 1)
    case 5 => FifoAt(5, OnVirtual(5), Ready(3, 3), [2], Taken(VIRTUAL, 1), 3)
    case _ => FifoAt(3, OnVirtual(5), OnVirtual(3), [2, 3], Taken(VIRTUAL, 1), 1)
  }

  lemma FifoPlays2()
    ensures PlayAll(FifoOpening(), FifoTurns()[..2]) == Some(FifoScene(2))
  {
    hide PlayAll;
    Begin(FifoOpening(), FifoTurns());
    Stage(FifoOpening(), FifoTurns(), 0, FifoScene(0), FifoScene(1));
    Stage(FifoOpening(), FifoTurns(), 1, FifoScene(1), FifoScene(2));
  }

  lemma FifoPlays4()
    ensures PlayAll(FifoOpening(), FifoTurns()[..4]) == Some(FifoScene(4))
  {
    hide PlayAll;
    FifoPlays2();
    Stage(FifoOpening(), FifoTurns(), 2, FifoScene(2), FifoScene(3));
    Stage(FifoOpening(), FifoTurns(), 3, FifoScene(3), FifoScene(4));
  }

  lemma FifoPlays()
    ensures PlayAll(FifoOpening(), FifoTurns()) == Some(FifoScene(6))
  {
    hide PlayAll;
    FifoPlays4();
    Stage(FifoOpening(), FifoTurns(), 4, FifoScene(4), FifoScene(5));
    Stage(FifoOpening(), FifoTurns(), 5, FifoScene(5), FifoScene(6));
    assert FifoTurns()[..6] == FifoTurns();
  }

  lemma FifoStarts()
    ensures Started(FifoKernel()) && Good(FifoKernel()) && Scenes.Shows(FifoKernel(), FifoOpening())
  {
    SmallShows([31, 7, 5, 3], [], [VIRTUAL], VIRTUAL);
  }

  lemma FifoHolds(r: KState)
    requires Scenes.Shows(r, FifoScene(6))
    ensures VirtualLaw(r) && AllVirtual(r)
  {
    assert r.q[VirtQ] == [2, 3] && r.q[VirtQ][1] == 3;
  }

  lemma FifoFails(r: KState)
    requires Scenes.Shows(r, FifoScene(6))
    ensures !VirtualRuns.StepHandsToBest(r, Syscall(UnlMtx(0)))
  {
    Enter(r, FifoScene(6));
    var out := GetCurrent(r);
    assert out.q[VirtQ] == [2, 3] && out.q[VirtQ][1] == 3;
  }

  /** When task 1 unlocks, task 2 gets the mutex at priority 5 while task 3 waits at priority 3. */
  lemma FifoBreaksLaw()
    ensures var k, steps := FifoKernel(), Steps(FifoTurns());
            && Started(k) && Good(k) && Run(k, steps).Some? && VirtualLaw(Run(k, steps).value)
            && Run(k, steps + [Syscall(UnlMtx(0))]).Some?
            && !VirtualLaw(Run(k, steps + [Syscall(UnlMtx(0))]).value)
  {
    hide FifoScene, FifoTurns, FifoKernel, FifoOpening, PlayAll, Steps;
    hide Scenes.Shows, Started, StepOk, HighGood, Good, HeldLaw;
    FifoStarts();
    FifoPlays();
    var r := LastStep(FifoKernel(), FifoOpening(), FifoTurns(), Syscall(UnlMtx(0)));
    FifoHolds(r);
    FifoFails(r);
    VirtualRuns.StepKeepsLaw(r, Syscall(UnlMtx(0)));
  }

  const INHERITING := Mutex(INHERIT, TPRI, 0, 0, 1, NO_OWNER, 0)

  function OnMtx(pri: int, m: nat): (r: Task) { Task(pri, pri, {WAIT_MUTEX}, OnMutex(m)) }

  // ---- Inheritance: unlocking a nested mutex ------------------------------------------------------

  function NestedKernel(): (r: KState) { Small([31, 7, 3], [], [INHERITING, INHERITING], VIRTUAL) }

  function NestedOpening(): (r: Scene) { Opening([31, 7, 3], [], [INHERITING, INHERITING], VIRTUAL) }

  /** Task 1 locks both mutexes, then task 2 waits for the first. */
  function NestedTurns(): (r: seq<Turn>) {
    [Turn(StaTsk(1), 1), Turn(LocMtx(0), 1), Turn(LocMtx(1), 1), Turn(StaTsk(2), 2), Turn(LocMtx(0), 1)]
  }

  function NestedAt(pri: int, t2: Task, mtxs: seq<Mutex>, w: seq<nat>, cur: nat): (r: Scene) {
    NestedOpening().(tasks := [Ready(31, 31), Ready(7, pri), t2], mtxs := mtxs,
      wait := NestedOpening().wait[MtxQ(0) := w], cur := cur)
  }

  /** The scene after i turns. */
  function NestedScene(i: nat): (r: Scene) {
    match i
    case 0 => NestedOpening()
    case 1 => NestedAt(7, Fresh(3), [INHERITING, INHERITING], [], 1)
    case 2 => NestedAt(7, Fresh(3), [Taken(INHERITING, 1), INHERITING], [], 1)
    case 3 => NestedAt(7, Fresh(3), [Taken(INHERITING, 1), Taken(INHERITING, 1)], [], 1)
    case 4 => NestedAt(7, Ready(3, 3), [Taken(INHERITING, 1), Taken(INHERITING, 1)], [], 2)
    case _ => NestedAt(3, OnMtx(3, 0), [Taken(INHERITING, 1), Taken(INHERITING, 1)], [2], 1)
  }

  lemma NestedPlays2()
    ensures PlayAll(NestedOpening(), NestedTurns()[..2]) == Some(NestedScene(2))
  {
    hide PlayAll;
    Begin(NestedOpening(), NestedTurns());
    Stage(NestedOpening(), NestedTurns(), 0, NestedScene(0), NestedScene(1));
    Stage(NestedOpening(), NestedTurns(), 1, NestedScene(1), NestedScene(2));
  }

  lemma NestedPlays4()
    ensures PlayAll(NestedOpening(), NestedTurns()[..4]) == Some(NestedScene(4))
  {
    hide PlayAll;
    NestedPlays2();
    Stage(NestedOpening(), NestedTurns(), 2, NestedScene(2), NestedScene(3));
    Stage(NestedOpening(), NestedTurns(), 3, NestedScene(3), NestedScene(4));
  }

  lemma NestedPlays()
    ensures PlayAll(NestedOpening(), NestedTurns()) == Some(NestedScene(5))
  {
    hide PlayAll;
    NestedPlays4();
    Stage(NestedOpening(), NestedTurns(), 4, NestedScene(4), NestedScene(5));
    assert NestedTurns()[..5] == NestedTurns();
  }

  lemma NestedStarts()
    ensures Started(NestedKernel()) && Good(NestedKernel()) && Scenes.Shows(NestedKernel(), NestedOpening())
  {
    SmallShows([31, 7, 3], [], [INHERITING, INHERITING], VIRTUAL);
  }

  lemma NestedHolds(r: KState)
    requires Scenes.Shows(r, NestedScene(5))
    ensures InheritLaw(r) && AllInherit(r)
  {
    assert r.q[MtxQ(0)] == [2] && r.q[MtxQ(0)][0] == 2 && r.q[MtxQ(1)] == [];
    assert BlockedBy(r, 2, 1, 0);
  }

  lemma NestedFails(r: KState)
    requires Scenes.Shows(r, NestedScene(5))
    ensures !NestedInheritance.StepInherits(r, Syscall(UnlMtx(1)))
  {
    Enter(r, NestedScene(5));
    var out := GetCurrent(r);
    assert out.q[MtxQ(0)][0] == 2;
    assert BlockedBy(out, 2, 1, 0) && StillNeeded(out, 1);
  }

  /** Unlocking the second mutex takes task 1 back to priority 7 while task 2 still waits at 3. */
  lemma NestedBreaksLaw()
    ensures var k, steps := NestedKernel(), Steps(NestedTurns());
            && Started(k) && Good(k) && Run(k, steps).Some? && InheritLaw(Run(k, steps).value)
            && Run(k, steps + [Syscall(UnlMtx(1))]).Some?
            && !InheritLaw(Run(k, steps + [Syscall(UnlMtx(1))]).value)
  {
    hide NestedScene, NestedTurns, NestedKernel, NestedOpening, PlayAll, Steps;
    hide Scenes.Shows, Started, StepOk, HighGood, Good, HeldLaw;
    NestedStarts();
    NestedPlays();
    var r := LastStep(NestedKernel(), NestedOpening(), NestedTurns(), Syscall(UnlMtx(1)));
    NestedHolds(r);
    NestedFails(r);
    NestedInheritance.StepKeepsLaw(r, Syscall(UnlMtx(1)));
  }

  // ---- Inheritance: waiting two owners deep -------------------------------------------------------

  function DeepKernel(): (r: KState) { Small([31, 7, 5, 3], [], [INHERITING, INHERITING], VIRTUAL) }

  function DeepOpening(): (r: Scene) { Opening([31, 7, 5, 3], [], [INHERITING, INHERITING], VIRTUAL) }

  /** Task 1 locks mutex 0, task 2 locks mutex 1 and waits for mutex 0, and task 3 is started. */
  function DeepTurns(): (r: seq<Turn>) {
    [Turn(StaTsk(1), 1), Turn(LocMtx(0), 1), Turn(StaTsk(2), 2), Turn(LocMtx(1), 2), Turn(LocMtx(0), 1),
     Turn(StaTsk(3), 3)]
  }

  function DeepAt(pri: int, t2: Task, t3: Task, mtxs: seq<Mutex>, w: seq<nat>, cur: nat): (r: Scene) {
    DeepOpening().(tasks := [Ready(31, 31), Ready(7, pri), t2, t3], mtxs := mtxs,
      wait := DeepOpening().wait[MtxQ(0) := w], cur := cur)
  }

  /** The scene after i turns. */
  function DeepScene(i: nat): (r: Scene) {
    match i
    case 0 => DeepOpening()
    case 1 => DeepAt(7, Fresh(5), Fresh(3), [INHERITING, INHERITING], [], 1)
    case 2 => DeepAt(7, Fresh(5), Fresh(3), [Taken(INHERITING, 1), INHERITING], [], 1)
    case 3 => DeepAt(7, Ready(5, 5), Fresh(3), [Taken(INHERITING, 1), INHERITING], [], 2)
    case 4 => DeepAt(7, Ready(5, 5), Fresh(3), [Taken(INHERITING, 1), Taken(INHERITING, 2)], [], 2)
    case 5 => DeepAt(5, OnMtx(5, 0), Fresh(3), [Taken(INHERITING, 1), Taken(INHERITING, 2)], [2], 1)
    case _ => DeepAt(5, OnMtx(5, 0), Ready(3, 3), [Taken(INHERITING, 1), Taken(INHERITING, 2)], [2], 3)
  }

  lemma DeepPlays2()
    ensures PlayAll(DeepOpening(), DeepTurns()[..2]) == Some(DeepScene(2))
  {
    hide PlayAll;
    Begin(DeepOpening(), DeepTurns());
    Stage(DeepOpening(), DeepTurns(), 0, DeepScene(0), DeepScene(1));
    Stage(DeepOpening(), DeepTurns(), 1, DeepScene(1), DeepScene(2));
  }

  lemma DeepPlays4()
    ensures PlayAll(DeepOpening(), DeepTurns()[..4]) == Some(DeepScene(4))
  {
    hide PlayAll;
    DeepPlays2();
    Stage(DeepOpening(), DeepTurns(), 2, DeepScene(2), DeepScene(3));
    Stage(DeepOpening(), DeepTurns(), 3, DeepScene(3), DeepScene(4));
  }

  lemma DeepPlays()
    ensures PlayAll(DeepOpening(), DeepTurns()) == Some(DeepScene(6))
  {
    hide PlayAll;
    DeepPlays4();
    Stage(DeepOpening(), DeepTurns(), 4, DeepScene(4), DeepScene(5));
    Stage(DeepOpening(), DeepTurns(), 5, DeepScene(5), DeepScene(6));
    assert DeepTurns()[..6] == DeepTurns();
  }

  lemma DeepStarts()
    ensures Started(DeepKernel()) && Good(DeepKernel()) && Scenes.Shows(DeepKernel(), DeepOpening())
  {
    SmallShows([31, 7, 5, 3], [], [INHERITING, INHERITING], VIRTUAL);
  }

  lemma DeepHolds(r: KState)
    requires Scenes.Shows(r, DeepScene(6))
    ensures InheritLaw(r) && AllInherit(r)
  {
    assert r.q[MtxQ(0)] == [2] && r.q[MtxQ(0)][0] == 2 && r.q[MtxQ(1)] == [];
    assert BlockedBy(r, 2, 1, 0);
  }

  lemma DeepFails(r: KState)
    requires Scenes.Shows(r, DeepScene(6))
    ensures !NestedInheritance.StepInherits(r, Syscall(LocMtx(1)))
  {
    Enter(r, DeepScene(6));
    var out := GetCurrent(r);
    assert out.q[MtxQ(0)][0] == 2;
    assert BlockedBy(out, 2, 1, 0) && ChainTooDeep(out, 2);
  }

  /** When task 3 waits for mutex 1, task 2 is raised to priority 3, but task 1 stays at 5. */
  lemma DeepBreaksLaw()
    ensures var k, steps := DeepKernel(), Steps(DeepTurns());
            && Started(k) && Good(k) && Run(k, steps).Some? && InheritLaw(Run(k, steps).value)
            && Run(k, steps + [Syscall(LocMtx(1))]).Some?
            && !InheritLaw(Run(k, steps + [Syscall(LocMtx(1))]).value)
  {
    hide DeepScene, DeepTurns, DeepKernel, DeepOpening, PlayAll, Steps;
    hide Scenes.Shows, Started, StepOk, HighGood, Good, HeldLaw;
    DeepStarts();
    DeepPlays();
    var r := LastStep(DeepKernel(), DeepOpening(), DeepTurns(), Syscall(LocMtx(1)));
    DeepHolds(r);
    DeepFails(r);
    NestedInheritance.StepKeepsLaw(r, Syscall(LocMtx(1)));
  }

  const FIRST_COME := Mutex(INHERIT, TFIFO, 0, 0, 1, NO_OWNER, 0)

  // ---- Inheritance: a first-come hand-over --------------------------------------------------------

  function FirstComeKernel(): (r: KState) { Small([31, 7, 5, 3], [], [FIRST_COME], VIRTUAL) }

  function FirstComeOpening(): (r: Scene) { Opening([31, 7, 5, 3], [], [FIRST_COME], VIRTUAL) }

  /** Task 1 locks the mutex, then task 2 and the better task 3 wait for it. */
  function FirstComeTurns(): (r: seq<Turn>) {
    [Turn(StaTsk(1), 1), Turn(LocMtx(0), 1), Turn(StaTsk(2), 2), Turn(LocMtx(0), 1), Turn(StaTsk(3), 3),
     Turn(LocMtx(0), 1)]
  }

  function FirstComeAt(pri: int, t2: Task, t3: Task, w: seq<nat>, mx: Mutex, cur: nat): (r: Scene) {
    FirstComeOpening().(tasks := [Ready(31, 31), Ready(7, pri), t2, t3], mtxs := [mx],
      wait := FirstComeOpening().wait[MtxQ(0) := w], cur := cur)
  }

  /** The scene after i turns. */
  function FirstComeScene(i: nat): (r: Scene) {
    match i
    case 0 => FirstComeOpening()
    case 1 => FirstComeAt(7, Fresh(5), Fresh(3), [], FIRST_COME, 1)
    case 2 => FirstComeAt(7, Fresh(5), Fresh(3), [], Taken(FIRST_COME, 1), 1)
    case 3 => FirstComeAt(7, Ready(5, 5), Fresh(3), [], Taken(FIRST_COME, 1), 2)
    case 4 => FirstComeAt(5, OnMtx(5, 0), Fresh(3), [2], Taken(FIRST_COME, 1), 1)
    case 5 => FirstComeAt(5, OnMtx(5, 0), Ready(3, 3), [2], Taken(FIRST_COME, 1), 3)
    case _ => FirstComeAt(3, OnMtx(5, 0), OnMtx(3, 0), [2, 3], Taken(FIRST_COME, 1), 1)
  }

  lemma FirstComePlays2()
    ensures PlayAll(FirstComeOpening(), FirstComeTurns()[..2]) == Some(FirstComeScene(2))
  {
    hide PlayAll;
    Begin(FirstComeOpening(), FirstComeTurns());
    Stage(FirstComeOpening(), FirstComeTurns(), 0, FirstComeScene(0), FirstComeScene(1));
    Stage(FirstComeOpening(), FirstComeTurns(), 1, FirstComeScene(1), FirstComeScene(2));
  }

  lemma FirstComePlays4()
    ensures PlayAll(FirstComeOpening(), FirstComeTurns()[..4]) == Some(FirstComeScene(4))
  {
    hide PlayAll;
    FirstComePlays2();
    Stage(FirstComeOpening(), FirstComeTurns(), 2, FirstComeScene(2), FirstComeScene(3));
    Stage(FirstComeOpening(), FirstComeTurns(), 3, FirstComeScene(3), FirstComeScene(4));
  }

  lemma FirstComePlays()
    ensures PlayAll(FirstComeOpening(), FirstComeTurns()) == Some(FirstComeScene(6))
  {
    hide PlayAll;
    FirstComePlays4();
    Stage(FirstComeOpening(), FirstComeTurns(), 4, FirstComeScene(4), FirstComeScene(5));
    Stage(FirstComeOpening(), FirstComeTurns(), 5, FirstComeScene(5), FirstComeScene(6));
    assert FirstComeTurns()[..6] == FirstComeTurns();
  }

  lemma FirstComeStarts()
    ensures Started(FirstComeKernel()) && Good(FirstComeKernel()) && Scenes.Shows(FirstComeKernel(), FirstComeOpening())
  {
    SmallShows([31, 7, 5, 3], [], [FIRST_COME], VIRTUAL);
  }

  lemma FirstComeHolds(r: KState)
    requires Scenes.Shows(r, FirstComeScene(6))
    ensures InheritLaw(r) && AllInherit(r)
  {
    assert r.q[MtxQ(0)] == [2, 3] && r.q[MtxQ(0)][0] == 2 && r.q[MtxQ(0)][1] == 3;
    assert BlockedBy(r, 2, 1, 0);
    assert BlockedBy(r, 3, 1, 0);
  }

  lemma FirstComeFails(r: KState)
    requires Scenes.Shows(r, FirstComeScene(6))
    ensures !NestedInheritance.StepInherits(r, Syscall(UnlMtx(0)))
  {
    Enter(r, FirstComeScene(6));
    var out := GetCurrent(r);
    assert out.q[MtxQ(0)] == [2, 3] && out.q[MtxQ(0)][1] == 3;
    assert BlockedBy(out, 3, 1, 0) && !ServesBest(out, 0);
  }

  /** When task 1 unlocks, task 2 owns the mutex at priority 5 while task 3 waits at priority 3. */
  lemma FirstComeBreaksLaw()
    ensures var k, steps := FirstComeKernel(), Steps(FirstComeTurns());
            && Started(k) && Good(k) && Run(k, steps).Some? && InheritLaw(Run(k, steps).value)
            && Run(k, steps + [Syscall(UnlMtx(0))]).Some?
            && !InheritLaw(Run(k, steps + [Syscall(UnlMtx(0))]).value)
  {
    hide FirstComeScene, FirstComeTurns, FirstComeKernel, FirstComeOpening, PlayAll, Steps;
    hide Scenes.Shows, Started, StepOk, HighGood, Good, HeldLaw;
    FirstComeStarts();
    FirstComePlays();
    var r := LastStep(FirstComeKernel(), FirstComeOpening(), FirstComeTurns(), Syscall(UnlMtx(0)));
    FirstComeHolds(r);
    FirstComeFails(r);
    NestedInheritance.StepKeepsLaw(r, Syscall(UnlMtx(0)));
  }

  function High(ceiling: int): (r: Mutex) { Mutex(IMHIGHLOC, TPRI, 0, 0, 1, NO_OWNER, ceiling) }

  /** A run that sets no priorities and locks no mutex with a negative ceiling keeps the list law. */
  lemma HighAt(k: KState, steps: seq<Step>)
    requires Started(k) && AllHigh(k) && (forall t | 0 <= t < |k.tasks| :: k.tasks[t].pri == k.tasks[t].initPri)
    requires forall i | 0 <= i < |steps| :: Quiet(k, steps[i])
    ensures Good(k) && Run(k, steps).Some? && HighGood(Run(k, steps).value)
  {
    StartedHeld(k);
    HighRun(k, steps);
  }

  // ---- Highest locker: unlocking out of order -----------------------------------------------------

  function UnnestedKernel(): (r: KState) { Small([31, 7], [], [High(3), High(5)], VIRTUAL) }

  function UnnestedOpening(): (r: Scene) { Opening([31, 7], [], [High(3), High(5)], VIRTUAL) }

  /** Task 1 locks mutex 0, which raises it to priority 3, and mutex 1 with the ceiling 5. */
  function UnnestedTurns(): (r: seq<Turn>) {
    [Turn(StaTsk(1), 1), Turn(LocMtx(0), 1), Turn(LocMtx(1), 1)]
  }

  function UnnestedAt(pri: int, mtxs: seq<Mutex>, high: seq<nat>, cur: nat): (r: Scene) {
    UnnestedOpening().(tasks := [Ready(31, 31), Ready(7, pri)], mtxs := mtxs, high := high, cur := cur)
  }

  /** The scene after i turns. */
  function UnnestedScene(i: nat): (r: Scene) {
    match i
    case 0 => UnnestedOpening()
    case 1 => UnnestedAt(7, [High(3), High(5)], [], 1)
    case 2 => UnnestedAt(3, [Taken(High(3), 1), High(5)], [0], 1)
    case _ => UnnestedAt(3, [Taken(High(3), 1), Taken(High(5), 1)], [0], 1)
  }

  lemma UnnestedPlays2()
    ensures PlayAll(UnnestedOpening(), UnnestedTurns()[..2]) == Some(UnnestedScene(2))
  {
    hide PlayAll;
    Begin(UnnestedOpening(), UnnestedTurns());
    Stage(UnnestedOpening(), UnnestedTurns(), 0, UnnestedScene(0), UnnestedScene(1));
    Stage(UnnestedOpening(), UnnestedTurns(), 1, UnnestedScene(1), UnnestedScene(2));
  }

  lemma UnnestedPlays()
    ensures PlayAll(UnnestedOpening(), UnnestedTurns()) == Some(UnnestedScene(3))
  {
    hide PlayAll;
    UnnestedPlays2();
    Stage(UnnestedOpening(), UnnestedTurns(), 2, UnnestedScene(2), UnnestedScene(3));
    assert UnnestedTurns()[..3] == UnnestedTurns();
  }

  lemma UnnestedStarts()
    ensures Started(UnnestedKernel()) && Good(UnnestedKernel()) && Scenes.Shows(UnnestedKernel(), UnnestedOpening())
  {
    SmallShows([31, 7], [], [High(3), High(5)], VIRTUAL);
  }

  lemma UnnestedHolds(r: KState)
    requires Scenes.Shows(r, UnnestedScene(3))
    ensures HeldLaw(r)
  {
  }

  lemma UnnestedFails(r: KState)
    requires Scenes.Shows(r, UnnestedScene(3))
    requires HighGood(r)
    ensures !StepUpholds(r, Syscall(UnlMtx(0)))
  {
    Enter(r, UnnestedScene(3));
    var out := GetCurrent(r);
    assert Owns(out, 1, 1) && Uncovered(out, 0);
  }

  lemma UnnestedHigh()
    ensures var k, steps := UnnestedKernel(), Steps(UnnestedTurns());
            Good(k) && Run(k, steps).Some? && HighGood(Run(k, steps).value)
  {
    SmallShows([31, 7], [], [High(3), High(5)], VIRTUAL);
    HighAt(UnnestedKernel(), Steps(UnnestedTurns()));
  }

  /** Unlocking mutex 0 first takes task 1 back to priority 7 while it still holds the ceiling 5. */
  lemma UnnestedBreaksLaw()
    ensures var k, steps := UnnestedKernel(), Steps(UnnestedTurns());
            && Started(k) && Good(k) && Run(k, steps).Some? && HeldLaw(Run(k, steps).value)
            && Run(k, steps + [Syscall(UnlMtx(0))]).Some?
            && !HeldLaw(Run(k, steps + [Syscall(UnlMtx(0))]).value)
  {
    hide UnnestedScene, UnnestedTurns, UnnestedKernel, UnnestedOpening, PlayAll, Steps;
    hide Scenes.Shows, Started, StepOk, HighGood, Good, HeldLaw;
    UnnestedHigh();
    UnnestedStarts();
    UnnestedPlays();
    var r := LastStep(UnnestedKernel(), UnnestedOpening(), UnnestedTurns(), Syscall(UnlMtx(0)));
    UnnestedHolds(r);
    UnnestedFails(r);
    StepKeepsHeld(r, Syscall(UnlMtx(0)));
  }

  // ---- Highest locker: a negative ceiling ---------------------------------------------------------

  function NegativeKernel(): (r: KState) { Small([31, 7], [], [High(-1)], VIRTUAL) }

  function NegativeOpening(): (r: Scene) { Opening([31, 7], [], [High(-1)], VIRTUAL) }

  /** Task 1 is started. */
  function NegativeTurns(): (r: seq<Turn>) {
    [Turn(StaTsk(1), 1)]
  }

  function NegativeAt(cur: nat): (r: Scene) {
    NegativeOpening().(tasks := [Ready(31, 31), Ready(7, 7)], cur := cur)
  }

  /** The scene after i turns. */
  function NegativeScene(i: nat): (r: Scene) {
    match i
    case 0 => NegativeOpening()
    case _ => NegativeAt(1)
  }

  lemma NegativePlays()
    ensures PlayAll(NegativeOpening(), NegativeTurns()) == Some(NegativeScene(1))
  {
    hide PlayAll;
    Begin(NegativeOpening(), NegativeTurns());
    Stage(NegativeOpening(), NegativeTurns(), 0, NegativeScene(0), NegativeScene(1));
    assert NegativeTurns()[..1] == NegativeTurns();
  }

  lemma NegativeStarts()
    ensures Started(NegativeKernel()) && Good(NegativeKernel()) && Scenes.Shows(NegativeKernel(), NegativeOpening())
  {
    SmallShows([31, 7], [], [High(-1)], VIRTUAL);
  }

  lemma NegativeHolds(r: KState)
    requires Scenes.Shows(r, NegativeScene(1))
    ensures HeldLaw(r)
  {
  }

  lemma NegativeFails(r: KState)
    requires Scenes.Shows(r, NegativeScene(1))
    requires HighGood(r)
    ensures !StepUpholds(r, Syscall(LocMtx(0)))
  {
    Enter(r, NegativeScene(1));
  }

  lemma NegativeHigh()
    ensures var k, steps := NegativeKernel(), Steps(NegativeTurns());
            Good(k) && Run(k, steps).Some? && HighGood(Run(k, steps).value)
  {
    SmallShows([31, 7], [], [High(-1)], VIRTUAL);
    HighAt(NegativeKernel(), Steps(NegativeTurns()));
  }

  /** Locking the mutex with the ceiling -1 lists it, but raises nobody. */
  lemma NegativeBreaksLaw()
    ensures var k, steps := NegativeKernel(), Steps(NegativeTurns());
            && Started(k) && Good(k) && Run(k, steps).Some? && HeldLaw(Run(k, steps).value)
            && Run(k, steps + [Syscall(LocMtx(0))]).Some?
            && !HeldLaw(Run(k, steps + [Syscall(LocMtx(0))]).value)
  {
    hide NegativeScene, NegativeTurns, NegativeKernel, NegativeOpening, PlayAll, Steps;
    hide Scenes.Shows, Started, StepOk, HighGood, Good, HeldLaw;
    NegativeHigh();
    NegativeStarts();
    NegativePlays();
    var r := LastStep(NegativeKernel(), NegativeOpening(), NegativeTurns(), Syscall(LocMtx(0)));
    NegativeHolds(r);
    NegativeFails(r);
    StepKeepsHeld(r, Syscall(LocMtx(0)));
  }

  const EMPTY := Semaphore(TFIFO, 0, 1)

  // ---- Highest locker: a hand-over to a task that was not raised ----------------------------------

  function UnraisedKernel(): (r: KState) { Small([31, 7, 5], [EMPTY], [High(3)], VIRTUAL) }

  function UnraisedOpening(): (r: Scene) { Opening([31, 7, 5], [EMPTY], [High(3)], VIRTUAL) }

  /** Task 1 locks the mutex, which raises it to priority 3, and waits for the semaphore; task 2 waits for the
      mutex at priority 5; the init task signals. */
  function UnraisedTurns(): (r: seq<Turn>) {
    [Turn(StaTsk(1), 1), Turn(LocMtx(0), 1), Turn(StaTsk(2), 1), Turn(WaiSem(0), 2), Turn(LocMtx(0), 0),
     Turn(SigSem(0), 1)]
  }

  function UnraisedAt(t1: Task, t2: Task, mx: Mutex, high: seq<nat>, wm: seq<nat>, ws: seq<nat>, cur: nat): (r: Scene) {
    UnraisedOpening().(tasks := [Ready(31, 31), t1, t2], mtxs := [mx], high := high,
      wait := UnraisedOpening().wait[MtxQ(0) := wm][SemQ(0) := ws], cur := cur)
  }

  /** The scene after i turns. */
  function UnraisedScene(i: nat): (r: Scene) {
    match i
    case 0 => UnraisedOpening()
    case 1 => UnraisedAt(Ready(7, 7), Fresh(5), High(3), [], [], [], 1)
    case 2 => UnraisedAt(Ready(7, 3), Fresh(5), Taken(High(3), 1), [0], [], [], 1)
    case 3 => UnraisedAt(Ready(7, 3), Ready(5, 5), Taken(High(3), 1), [0], [], [], 1)
    case 4 => UnraisedAt(Task(7, 3, {WAIT_SEMAPHORE}, OnSemaphore(0)), Ready(5, 5), Taken(High(3), 1), [0], [], [1], 2)
    case 5 => UnraisedAt(Task(7, 3, {WAIT_SEMAPHORE}, OnSemaphore(0)), OnMtx(5, 0), Taken(High(3), 1), [0], [2], [1], 0)
    case _ => UnraisedAt(Ready(7, 3), OnMtx(5, 0), Taken(High(3), 1), [0], [2], [], 1)
  }

  lemma UnraisedPlays2()
    ensures PlayAll(UnraisedOpening(), UnraisedTurns()[..2]) == Some(UnraisedScene(2))
  {
    hide PlayAll;
    Begin(UnraisedOpening(), UnraisedTurns());
    Stage(UnraisedOpening(), UnraisedTurns(), 0, UnraisedScene(0), UnraisedScene(1));
    Stage(UnraisedOpening(), UnraisedTurns(), 1, UnraisedScene(1), UnraisedScene(2));
  }

  lemma UnraisedPlays4()
    ensures PlayAll(UnraisedOpening(), UnraisedTurns()[..4]) == Some(UnraisedScene(4))
  {
    hide PlayAll;
    UnraisedPlays2();
    Stage(UnraisedOpening(), UnraisedTurns(), 2, UnraisedScene(2), UnraisedScene(3));
    Stage(UnraisedOpening(), UnraisedTurns(), 3, UnraisedScene(3), UnraisedScene(4));
  }

  lemma UnraisedPlays5()
    ensures PlayAll(UnraisedOpening(), UnraisedTurns()[..5]) == Some(UnraisedScene(5))
  {
    hide PlayAll;
    UnraisedPlays4();
    Stage(UnraisedOpening(), UnraisedTurns(), 4, UnraisedScene(4), UnraisedScene(5));
  }

  lemma UnraisedPlays()
    ensures PlayAll(UnraisedOpening(), UnraisedTurns()) == Some(UnraisedScene(6))
  {
    hide PlayAll;
    UnraisedPlays5();
    Stage(UnraisedOpening(), UnraisedTurns(), 5, UnraisedScene(5), UnraisedScene(6));
    assert UnraisedTurns()[..6] == UnraisedTurns();
  }

  lemma UnraisedStarts()
    ensures Started(UnraisedKernel()) && Good(UnraisedKernel()) && Scenes.Shows(UnraisedKernel(), UnraisedOpening())
  {
    SmallShows([31, 7, 5], [EMPTY], [High(3)], VIRTUAL);
  }

  lemma UnraisedHolds(r: KState)
    requires Scenes.Shows(r, UnraisedScene(6))
    ensures HeldLaw(r)
  {
  }

  lemma UnraisedFails(r: KState)
    requires Scenes.Shows(r, UnraisedScene(6))
    requires HighGood(r)
    ensures !StepUpholds(r, Syscall(UnlMtx(0)))
  {
    Enter(r, UnraisedScene(6));
    var out := GetCurrent(r);
    assert out.q[MtxQ(0)] == [2] && Served(out, 0) == Some(2);
  }

  lemma UnraisedHigh()
    ensures var k, steps := UnraisedKernel(), Steps(UnraisedTurns());
            Good(k) && Run(k, steps).Some? && HighGood(Run(k, steps).value)
  {
    SmallShows([31, 7, 5], [EMPTY], [High(3)], VIRTUAL);
    HighAt(UnraisedKernel(), Steps(UnraisedTurns()));
  }

  /** When task 1 unlocks, task 2 holds the mutex at priority 5, below its ceiling. */
  lemma UnraisedBreaksLaw()
    ensures var k, steps := UnraisedKernel(), Steps(UnraisedTurns());
            && Started(k) && Good(k) && Run(k, steps).Some? && HeldLaw(Run(k, steps).value)
            && Run(k, steps + [Syscall(UnlMtx(0))]).Some?
            && !HeldLaw(Run(k, steps + [Syscall(UnlMtx(0))]).value)
  {
    hide UnraisedScene, UnraisedTurns, UnraisedKernel, UnraisedOpening, PlayAll, Steps;
    hide Scenes.Shows, Started, StepOk, HighGood, Good, HeldLaw;
    UnraisedHigh();
    UnraisedStarts();
    UnraisedPlays();
    var r := LastStep(UnraisedKernel(), UnraisedOpening(), UnraisedTurns(), Syscall(UnlMtx(0)));
    UnraisedHolds(r);
    UnraisedFails(r);
    StepKeepsHeld(r, Syscall(UnlMtx(0)));
  }

  // ---- A listed mutex has an owner: unlocking at the initial priority -----------------------------

  function StrandedKernel(): (r: KState) { Small([31, 7], [], [High(3)], VIRTUAL) }

  function StrandedOpening(): (r: Scene) { Opening([31, 7], [], [High(3)], VIRTUAL) }

  /** Task 1 locks the mutex, which raises it to priority 3, and sets itself back to its initial priority 7. */
  function StrandedTurns(): (r: seq<Turn>) {
    [Turn(StaTsk(1), 1), Turn(LocMtx(0), 1), Turn(ChgPri(1, 7), 1)]
  }

  function StrandedAt(pri: int, mx: Mutex, high: seq<nat>, cur: nat): (r: Scene) {
    StrandedOpening().(tasks := [Ready(31, 31), Ready(7, pri)], mtxs := [mx], high := high, cur := cur)
  }

  /** The scene after i turns. */
  function StrandedScene(i: nat): (r: Scene) {
    match i
    case 0 => StrandedOpening()
    case 1 => StrandedAt(7, High(3), [], 1)
    case 2 => StrandedAt(3, Taken(High(3), 1), [0], 1)
    case _ => StrandedAt(7, Taken(High(3), 1), [0], 1)
  }

  lemma StrandedPlays2()
    ensures PlayAll(StrandedOpening(), StrandedTurns()[..2]) == Some(StrandedScene(2))
  {
    hide PlayAll;
    Begin(StrandedOpening(), StrandedTurns());
    Stage(StrandedOpening(), StrandedTurns(), 0, StrandedScene(0), StrandedScene(1));
    Stage(StrandedOpening(), StrandedTurns(), 1, StrandedScene(1), StrandedScene(2));
  }

  lemma StrandedPlays()
    ensures PlayAll(StrandedOpening(), StrandedTurns()) == Some(StrandedScene(3))
  {
    hide PlayAll;
    StrandedPlays2();
    Stage(StrandedOpening(), StrandedTurns(), 2, StrandedScene(2), StrandedScene(3));
    assert StrandedTurns()[..3] == StrandedTurns();
  }

  lemma StrandedStarts()
    ensures Started(StrandedKernel()) && Good(StrandedKernel()) && Scenes.Shows(StrandedKernel(), StrandedOpening())
  {
    SmallShows([31, 7], [], [High(3)], VIRTUAL);
  }

  lemma StrandedHolds(r: KState)
    requires Scenes.Shows(r, StrandedScene(3))
    ensures ListedOwned(r)
  {
  }

  lemma StrandedFails(r: KState)
    requires Scenes.Shows(r, StrandedScene(3))
    ensures StepStrands(r, Syscall(UnlMtx(0)))
  {
    assert r.q[MtxQ(0)] == [];
  }

  /** When it unlocks, the mutex is free but still listed. */
  lemma StrandedBreaksLaw()
    ensures var k, steps := StrandedKernel(), Steps(StrandedTurns());
            && Started(k) && Good(k) && Run(k, steps).Some? && ListedOwned(Run(k, steps).value)
            && Run(k, steps + [Syscall(UnlMtx(0))]).Some?
            && !ListedOwned(Run(k, steps + [Syscall(UnlMtx(0))]).value)
  {
    hide StrandedScene, StrandedTurns, StrandedKernel, StrandedOpening, PlayAll, Steps;
    hide Scenes.Shows, Started, StepOk, HighGood, Good, HeldLaw;
    StrandedStarts();
    StrandedPlays();
    var r := LastStep(StrandedKernel(), StrandedOpening(), StrandedTurns(), Syscall(UnlMtx(0)));
    StrandedHolds(r);
    StrandedFails(r);
    StepKeepsListed(r, Syscall(UnlMtx(0)));
  }

  lemma StrandedPlaysOn()
    ensures PlayAll(StrandedOpening(), StrandedTurns() + [Turn(UnlMtx(0), 1)]) == Some(StrandedAt(7, High(3), [0], 1))
  {
    hide PlayAll;
    var ts := StrandedTurns() + [Turn(UnlMtx(0), 1)];
    StrandedPlays();
    assert ts[..3] == StrandedTurns();
    Stage(StrandedOpening(), ts, 3, StrandedScene(3), StrandedAt(7, High(3), [0], 1));
    assert ts[..4] == ts;
  }

  /** Locking it once more would put it on the list again. */
  lemma StrandedRelists()
    ensures var k, steps := StrandedKernel(), Steps(StrandedTurns() + [Turn(UnlMtx(0), 1)]);
            && Started(k) && Good(k) && Run(k, steps).Some?
            && (var r := Run(k, steps).value; r.cur < |r.tasks| && 0 < |r.mtxs| && Relists(r, 0))
            && Run(k, steps + [Syscall(LocMtx(0))]) == None
  {
    hide PlayAll, Good, Run, Started;
    var ts := StrandedTurns() + [Turn(UnlMtx(0), 1)];
    StrandedStarts();
    StrandedPlaysOn();
    var r := LastStep(StrandedKernel(), StrandedOpening(), ts, Syscall(LocMtx(0)));
  }
}
