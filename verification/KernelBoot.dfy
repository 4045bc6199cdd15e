/** A kernel as it is set up, and the start of its init task. */
module KernelBoot {
  import opened Bitmaps
  import opened KernelState
  import opened KernelCalls
  import opened RunTheorems

  /** Every queue of a kernel with so many semaphores and mutexes. */
  function QueueIds(sems: nat, mtxs: nat): (r: seq<QueueId>)
    ensures forall id :: id in r <==> ValidQ(sems, mtxs, id)
  {
    var r := seq(PRIORITY_NUM, p requires 0 <= p => ReadyQ(p)) + seq(sems, s requires 0 <= s => SemQ(s))
             + seq(mtxs, m requires 0 <= m => MtxQ(m)) + [VirtQ];
    assert forall p: nat | p < PRIORITY_NUM :: r[p] == ReadyQ(p);
    assert forall s: nat | s < sems :: r[PRIORITY_NUM + s] == SemQ(s);
    assert forall m: nat | m < mtxs :: r[PRIORITY_NUM + sems + m] == MtxQ(m);
    assert r[PRIORITY_NUM + sems + mtxs] == VirtQ;
    r
  }

  function Installed(pris: seq<int>, sems: seq<Semaphore>, mtxs: seq<Mutex>, virt: Mutex, ids: Sizes): (r: KState) {
    KState(seq(|pris|, t requires 0 <= t < |pris| => Task(pris[t], pris[t], {DORMANT}, NoObject)),
           map id | id in QueueIds(|sems|, |mtxs|) :: [],
           false, INIT_TASK_ID, sems, mtxs, virt, [], ids, false)
  }

  lemma InstalledWF(pris: seq<int>, sems: seq<Semaphore>, mtxs: seq<Mutex>, virt: Mutex, ids: Sizes)
    requires |pris| > 0 && forall t | 0 <= t < |pris| :: PriInRange(pris[t])
    requires virt.owner == NO_OWNER && forall m | 0 <= m < |mtxs| :: mtxs[m].owner == NO_OWNER
    ensures WF(Installed(pris, sems, mtxs, virt, ids))
  {
  }

  /** Objects as their creation leaves them: free mutexes that can be locked, semaphores in range. */
  predicate ObjectsNew(sems: seq<Semaphore>, mtxs: seq<Mutex>, virt: Mutex) {
    && (forall s | 0 <= s < |sems| :: 0 <= sems[s].value <= sems[s].max && 1 <= sems[s].max)
    && (forall m | 0 <= m < |mtxs| :: FreshMutex(mtxs[m]) && mtxs[m].maxlocks >= 1)
    && FreshMutex(virt)
  }

  /** The kernel k with its init task started. */
  function Booted(k: KState): (r: KState)
    requires |k.tasks| > 0
  {
    k.(tasks := k.tasks[INIT_TASK_ID := WithState(k.tasks[INIT_TASK_ID], {READY})], initQue := true)
  }

  /** Starting the init task of a kernel that has just been set up is where runs begin: that task
      runs, and every other one is dormant at its own priority. */
  lemma BootedIsStarted(pris: seq<int>, sems: seq<Semaphore>, mtxs: seq<Mutex>, virt: Mutex, ids: Sizes)
    requires |pris| > 0 && (forall t | 0 <= t < |pris| :: PriInRange(pris[t])) && ObjectsNew(sems, mtxs, virt)
    ensures var k := Booted(Installed(pris, sems, mtxs, virt, ids));
            && Started(k) && k.cur == INIT_TASK_ID && |k.tasks| == |pris|
            && k.sems == sems && k.mtxs == mtxs && k.virt == virt && k.ids == ids
            && forall t | 0 <= t < |pris| ::
                 && k.tasks[t].initPri == k.tasks[t].pri == pris[t]
                 && k.tasks[t].state == if t == INIT_TASK_ID then {READY} else {DORMANT}
  {
    var k := Installed(pris, sems, mtxs, virt, ids);
    InstalledWF(pris, sems, mtxs, virt, ids);
    SetRecordKeepsWF(k, INIT_TASK_ID, WithState(k.tasks[INIT_TASK_ID], {READY}));
  }
}
