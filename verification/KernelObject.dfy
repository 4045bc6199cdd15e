/** The kernel as the source has it: control blocks updated in place, ready and wait queues threaded
    through the task control blocks, a bitmap over the ready queues, one current task.  Abs() is the
    value all this stands for; every method is proved to do to it exactly what the function of the
    same name in KernelCalls says. */
module KernelObject {
  import opened TaskQueues
  import opened Bitmaps
  import opened KernelState
  import opened KernelCalls
  import opened KernelRun
  import opened KernelTheorems
  import opened LockInvariants
  import opened RunTheorems
  import opened CallEffects
  import opened LockEffects
  import opened CeilingLists
  import opened KernelBoot

  method MakeLinks(n: nat, ready: bool) returns (r: seq<Link>)
    ensures |r| == n && fresh(r)
    ensures forall t | 0 <= t < n :: r[t].id == t && r[t].ready == ready && r[t].Free()
  {
    r := [];
    while |r| < n
      invariant |r| <= n && fresh(r)
      invariant forall t | 0 <= t < |r| :: r[t].id == t && r[t].ready == ready && r[t].Free()
    {
      var l := new Link(|r|, ready);
      r := r + [l];
    }
  }

  /** The ready links and the wait links of n tasks. */
  method MakeTaskLinks(n: nat) returns (r: seq<Link>, w: seq<Link>, ghost all: set<Link>)
    ensures |r| == |w| == n && fresh(all)
    ensures forall t | 0 <= t < n :: r[t] in all && r[t].id == t && r[t].ready && r[t].Free()
    ensures forall t | 0 <= t < n :: w[t] in all && w[t].id == t && !w[t].ready && w[t].Free()
  {
    r := MakeLinks(n, true);
    w := MakeLinks(n, false);
    all := (set t | 0 <= t < n :: r[t]) + (set t | 0 <= t < n :: w[t]);
  }

  method MakeQueues(ids: seq<QueueId>) returns (r: map<QueueId, TaskQueue>, ghost all: set<TaskQueue>)
    ensures fresh(all) && forall id | id in r :: r[id] in all
    ensures forall id :: id in r <==> id in ids
    ensures forall id | id in r :: fresh(r[id]) && r[id].Valid() && r[id].items == []
    ensures forall id, id' | id in r && id' in r && id != id' :: r[id] != r[id']
  {
    r, all := map[], {};
    for i := 0 to |ids|
      invariant fresh(all) && forall id | id in r :: r[id] in all
      invariant forall id :: id in r <==> id in ids[..i]
      invariant forall id | id in r :: fresh(r[id]) && r[id].Valid() && r[id].items == []
      invariant forall id, id' | id in r && id' in r && id != id' :: r[id] != r[id']
    {
      var x := new TaskQueue();
      assert ids[..i + 1] == ids[..i] + [ids[i]];
      r, all := r[ids[i] := x], all + {x};
    }
    assert ids[..|ids|] == ids;
  }

  /** The bit search finds the best non-empty ready queue. */
  lemma SearchFindsLeast(bitmap: uint32, q: map<QueueId, seq<nat>>, p: int)
    requires forall i: nat | i < PRIORITY_NUM :: ReadyQ(i) in q && (Bit(bitmap as nat, i) <==> q[ReadyQ(i)] != [])
    requires bitmap == 0 <==> p == E_NG
    requires bitmap != 0 ==> p < PRIORITY_NUM && IsLowestBit(bitmap as nat, p)
    ensures LeastReady(q, 0) == if p == E_NG then None else Some(p)
  {
    var r := LeastReady(q, 0);
    if r.Some? {
      assert Bit(bitmap as nat, r.value);
      if bitmap == 0 { NoBit(r.value); }
    }
    if bitmap != 0 {
      assert q[ReadyQ(p)] != [];
      assert r.Some? && !(r.value < p);
    }
  }

  class Kernel {
    var tasks: seq<Task>                // the task control blocks but for their links
    var sems: seq<Semaphore>
    var mtxs: seq<Mutex>
    var virt: Mutex
    var bitmap: uint32
    var initQue: bool
    var cur: nat
    var halted: bool
    const ids: Sizes
    const readyLink: seq<Link>          // the ready links of every task
    const waitLink: seq<Link>           // the wait links of every task
    const que: map<QueueId, TaskQueue>
    const table: array<int>             // lowest set bit of every four-bit pattern
    const pcl: CeilingList              // the raised immediate-highest-locker mutexes
    ghost var q: map<QueueId, seq<nat>> // the tasks in every queue
    ghost var high: seq<nat>            // the mutexes on that list
    ghost const heads: set<TaskQueue>
    ghost const links: set<Link>

    // ---- The representation --------------------------------------------------------------------

    ghost function Abs(): (r: KState)
      reads this`tasks, this`q, this`initQue, this`cur, this`sems, this`mtxs, this`virt, this`high, this`halted
    {
      KState(tasks, q, initQue, cur, sems, mtxs, virt, high, ids, halted)
    }

    /** The pair of links by which task t hangs in queue id. */
    function LinkOf(id: QueueId, t: nat): (r: Link)
      requires t < |readyLink| == |waitLink|
    {
      if id.ReadyQ? then readyLink[t] else waitLink[t]
    }

    /** Task IDs and links fit together, and every queue has its own head block. */
    ghost predicate Wired() {
      && |readyLink| == |waitLink|
      && (forall t | 0 <= t < |readyLink| :: readyLink[t] in links && readyLink[t].id == t && readyLink[t].ready)
      && (forall t | 0 <= t < |waitLink| :: waitLink[t] in links && waitLink[t].id == t && !waitLink[t].ready)
      && (forall id | id in que :: que[id] in heads)
      && (forall id, id' | id in que && id' in que && id != id' :: que[id] != que[id'])
    }

    /** Queue id threads the links of the tasks in s, in that order. */
    ghost predicate Threads(id: QueueId, s: seq<nat>)
      requires Wired() && id in que
      reads heads, links
    {
      && |que[id].items| == |s|
      && (forall i | 0 <= i < |s| ::
            s[i] < |readyLink| && que[id].items[i] == LinkOf(id, s[i]) && que[id].items[i] in links)
      && que[id].Valid()
    }

    ghost predicate QueuesMatch(q: map<QueueId, seq<nat>>)
      requires Wired()
      reads heads, links
    {
      && que.Keys == q.Keys
      && (forall id {:trigger Threads(id, q[id])} | id in que :: Threads(id, q[id]))
    }

    /** The links of a task that stands in no queue are clear. */
    ghost predicate LinksClear(tasks: seq<Task>)
      requires Wired() && |tasks| == |readyLink|
      reads links
    {
      && (forall t | 0 <= t < |tasks| && !InReady(t, tasks[t]) :: readyLink[t].Free())
      && (forall t | 0 <= t < |tasks| && !InWait(t, tasks[t]) :: waitLink[t].Free())
    }

    predicate InReady(t: nat, tk: Task) {
      Place(t, tk).Some? && Place(t, tk).value.ReadyQ?
    }

    predicate InWait(t: nat, tk: Task) {
      Place(t, tk).Some? && !Place(t, tk).value.ReadyQ?
    }

    /** Bit p of the bitmap is set exactly when ready queue p holds a task. */
    ghost predicate BitmapFor(q: map<QueueId, seq<nat>>)
      reads this`bitmap
    {
      forall p: nat | p < PRIORITY_NUM :: ReadyQ(p) in q && (Bit(bitmap as nat, p) <==> q[ReadyQ(p)] != [])
    }

    ghost predicate BitmapOk()
      reads this`q, this`bitmap
    {
      BitmapFor(q)
    }

    /** Records, queues and links fit together. */
    ghost predicate Linked()
      reads this`tasks, this`q, this`initQue, this`cur, this`sems, this`mtxs, this`virt, this`high, this`halted
      reads heads, links
    {
      && Wired() && WF(Abs()) && |tasks| == |readyLink|
      && QueuesMatch(q)
      && LinksClear(tasks)
    }

    /** The list of raised mutexes threads the control blocks of high. */
    ghost predicate ListOk()
      reads this`high, this`mtxs, pcl, pcl.blocks
    {
      pcl.Valid() && pcl.items == high && |pcl.blocks| == |mtxs|
    }

    ghost predicate Valid()
      reads this, heads, links, table, pcl, pcl.blocks
    {
      Linked() && BitmapOk() && IsPatternTable(table[..]) && ListOk()
    }

    /** A kernel that has just been set up: every task dormant, every queue empty, every lock free. */
    constructor (pris: seq<int>, sems: seq<Semaphore>, mtxs: seq<Mutex>, virt: Mutex, ids: Sizes)
      requires |pris| > 0 && forall t | 0 <= t < |pris| :: PriInRange(pris[t])
      requires virt.owner == NO_OWNER && forall m | 0 <= m < |mtxs| :: mtxs[m].owner == NO_OWNER
      ensures Valid() && fresh(heads) && fresh(links) && fresh(table) && fresh(pcl) && fresh(pcl.blocks)
      ensures Abs() == Installed(pris, sems, mtxs, virt, ids)
    {
      var k := Installed(pris, sems, mtxs, virt, ids);
      this.tasks, this.sems, this.mtxs, this.virt := k.tasks, sems, mtxs, virt;
      high, bitmap, initQue, cur, halted := [], 0, false, 0, false;
      this.ids := ids;
      q := k.q;
      var lsb := new int[LSB_4BIT_PATTERN];
      BitmapInit(lsb);
      var r, w, ls := MakeTaskLinks(|pris|);
      var qs, hs := MakeQueues(QueueIds(|sems|, |mtxs|));
      var list := new CeilingList(|mtxs|);
      table, readyLink, waitLink, que, pcl := lsb, r, w, qs, list;
      heads, links := hs, ls;
      new;
      InstalledWF(pris, sems, mtxs, virt, ids);
      assert Abs() == k;
      NoBits();
      FreshQueues();
    }

    /** Empty queues and clear links fit together. */
    lemma FreshQueues()
      requires Wired() && que.Keys == q.Keys && |tasks| == |readyLink|
      requires forall id | id in que :: que[id].Valid() && que[id].items == [] && q[id] == []
      requires forall t | 0 <= t < |tasks| :: readyLink[t].Free() && waitLink[t].Free()
      ensures QueuesMatch(q) && LinksClear(tasks)
    {
    }

    // ---- Steps on queues and records -----------------------------------------------------------

    /** Hang task t at the tail of queue id. */
    method LinkTail(id: QueueId, t: nat)
      requires Wired() && QueuesMatch(q)
      requires id in que && t < |readyLink| && LinkOf(id, t).Free()
      modifies this`q, heads, links
      ensures q == old(q)[id := old(q)[id] + [t]] && QueuesMatch(q)
      ensures forall l: Link {:trigger l.Free()} | old(allocated(l)) && l != LinkOf(id, t) && old(l.Free()) :: l.Free()
    {
      hide TaskQueue.Valid;
      assert Threads(id, q[id]);
      que[id].PutTail(LinkOf(id, t));
      ghost var q' := q[id := q[id] + [t]];
      assert Threads(id, q'[id]);
      forall id' | id' in que ensures Threads(id', q'[id']) {
        assert id' == id || old(Threads(id', q[id']));
      }
      q := q';
    }

    method RaiseBit(p: nat)
      requires p < PRIORITY_NUM
      modifies this`bitmap
      ensures bitmap as nat == SetBit(old(bitmap) as nat, p)
    {
      WordSize();
      UpdateFits(bitmap as nat, p, PRIORITY_NUM);
      bitmap := SetBit(bitmap as nat, p) as uint32;
    }

    method DropBit(p: nat)
      requires p < PRIORITY_NUM
      modifies this`bitmap
      ensures bitmap as nat == ClearBit(old(bitmap) as nat, p)
    {
      WordSize();
      UpdateFits(bitmap as nat, p, PRIORITY_NUM);
      bitmap := ClearBit(bitmap as nat, p) as uint32;
    }

    /** Hang task t at the tail of queue id and give it the record tk. */
    method Hang(id: QueueId, t: nat, tk: Task)
      requires Linked() && t < |tasks| && Where(Abs(), t) == None
      requires id in que && Place(t, tk) == Some(id) && RecordOk(|mtxs|, tk)
      modifies this`tasks, this`q, heads, links
      ensures Linked() && Abs() == Enqueue(old(Abs()), id, t, tk)
    {
      LinkTail(id, t);
      tasks := tasks[t := tk];
      EnqueueKeepsWF(old(Abs()), id, t, tk);
    }

    /** Append task t to queue id, giving it the record tk. */
    method Append(id: QueueId, t: nat, tk: Task)
      requires Valid() && t < |tasks| && Where(Abs(), t) == None
      requires id in que && Place(t, tk) == Some(id) && RecordOk(|mtxs|, tk)
      modifies this, heads, links
      ensures Valid() && Abs() == Enqueue(old(Abs()), id, t, tk)
    {
      hide ListOk, IsPatternTable;
      Hang(id, t, tk);
      if id.ReadyQ? {
        RaiseBit(id.p);
        forall p: nat | p < PRIORITY_NUM ensures Bit(bitmap as nat, p) <==> q[ReadyQ(p)] != [] {
          SetBitSpec(old(bitmap) as nat, id.p, p);
        }
      }
    }

    /** Take task t off the head of queue id, as get_current_prique and the first-come releases do. */
    method UnlinkHead(id: QueueId, t: nat)
      requires Wired() && QueuesMatch(q) && id in que && q[id] != [] && q[id][0] == t < |readyLink|
      modifies this`q, heads, links
      ensures q == old(q)[id := Without(old(q)[id], 0)] && QueuesMatch(q) && LinkOf(id, t).Free()
      ensures forall l: Link {:trigger l.Free()} | old(allocated(l)) && l != LinkOf(id, t) && old(l.Free()) :: l.Free()
    {
      hide TaskQueue.Valid;
      assert Threads(id, q[id]);
      var x := que[id].GetHead();
      ghost var q' := q[id := Without(q[id], 0)];
      assert Threads(id, q'[id]);
      forall id' | id' in que && id' != id ensures Threads(id', q'[id']) {
        assert old(Threads(id', q[id']));
      }
      assert forall id' {:trigger Threads(id', q'[id'])} | id' in que :: Threads(id', q'[id']);
      q := q';
    }

    /** Take task t out of queue id from wherever it stands. */
    method UnlinkTask(id: QueueId, t: nat, ghost i: nat)
      requires Wired() && QueuesMatch(q) && id in que && i < |q[id]| && q[id][i] == t < |readyLink|
      modifies this`q, heads, links
      ensures q == old(q)[id := Without(old(q)[id], i)] && QueuesMatch(q) && LinkOf(id, t).Free()
      ensures forall l: Link {:trigger l.Free()} | old(allocated(l)) && l != LinkOf(id, t) && old(l.Free()) :: l.Free()
    {
      hide TaskQueue.Valid;
      assert Threads(id, q[id]);
      que[id].Remove(LinkOf(id, t), i);
      ghost var q' := q[id := Without(q[id], i)];
      assert Threads(id, q'[id]);
      forall id' | id' in que && id' != id ensures Threads(id', q'[id']) {
        assert old(Threads(id', q[id']));
      }
      assert forall id' {:trigger Threads(id', q'[id'])} | id' in que :: Threads(id', q'[id']);
      q := q';
    }

    /** Take task t, at position i of queue id, out of it and give it the record tk. */
    method Unhang(id: QueueId, t: nat, ghost i: nat, first: bool, tk: Task)
      requires Linked() && id in que && i < |q[id]| && q[id][i] == t && (first ==> i == 0)
      requires Place(t, tk) == None && RecordOk(|mtxs|, tk)
      modifies this`tasks, this`q, heads, links
      ensures Linked() && Abs() == Dequeue(old(Abs()), id, i, tk)
    {
      assert QueueOk(tasks, q[id], id);
      if first { UnlinkHead(id, t); } else { UnlinkTask(id, t, i); }
      tasks := tasks[t := tk];
      DequeueKeepsWF(old(Abs()), id, i, tk);
    }

    /** The same, the bitmap kept in step. */
    method Take(id: QueueId, t: nat, ghost i: nat, first: bool, tk: Task)
      requires Valid() && id in que && i < |q[id]| && q[id][i] == t && (first ==> i == 0)
      requires Place(t, tk) == None && RecordOk(|mtxs|, tk)
      modifies this, heads, links
      ensures Valid() && Abs() == Dequeue(old(Abs()), id, i, tk)
    {
      hide ListOk, IsPatternTable, QueuesOk, LinksClear;
      ghost var was := q;
      Unhang(id, t, i, first, tk);
      if id.ReadyQ? { DropIfEmpty(id, was); }
    }

    method DropIfEmpty(id: QueueId, ghost was: map<QueueId, seq<nat>>)
      requires Linked() && id in que && id.ReadyQ?
      requires BitmapFor(was) && was[id] != [] && q == was[id := q[id]]
      modifies this`bitmap
      ensures BitmapOk()
    {
      assert ValidQ(|sems|, |mtxs|, id);
      var none := Empty(id);
      if none {
        DropBit(id.p);
        forall p: nat | p < PRIORITY_NUM ensures Bit(bitmap as nat, p) <==> q[ReadyQ(p)] != [] {
          ClearBitSpec(old(bitmap) as nat, id.p, p);
        }
      }
    }

    /** The head pointer of a queue is null exactly when nobody stands in it. */
    method Empty(id: QueueId) returns (none: bool)
      requires Wired() && QueuesMatch(q) && id in que
      ensures none <==> q[id] == []
    {
      assert Threads(id, q[id]);
      none := que[id].head == null;
    }

    /** Change the record of task t without moving it. */
    method Rewrite(t: nat, tk: Task)
      requires Valid() && t < |tasks| && Place(t, tk) == Where(Abs(), t) && RecordOk(|mtxs|, tk)
      modifies this`tasks
      ensures Valid() && Abs() == SetRecord(old(Abs()), t, tk)
    {
      SetRecordKeepsWF(Abs(), t, tk);
      tasks := tasks[t := tk];
    }

    method SetCurrent(t: nat)
      requires Valid() && t < |tasks|
      modifies this`cur
      ensures Valid() && Abs() == old(Abs()).(cur := t)
    {
      cur := t;
    }

    // ---- Ready queues and priorities -----------------------------------------------------------

    method PutCurrent()
      requires Valid() && (READY in tasks[cur].state || tasks[cur].state == {})
      modifies this, heads, links
      ensures Valid() && Abs() == KernelCalls.PutCurrent(old(Abs()))
    {
      if READY in tasks[cur].state {
      } else if cur == INIT_TASK_ID {
        Rewrite(cur, WithState(tasks[cur], tasks[cur].state + {READY}));
        initQue := true;
      } else {
        Append(ReadyQ(tasks[cur].pri), cur, WithState(tasks[cur], tasks[cur].state + {READY}));
      }
    }

    method GetCurrent()
      requires Valid() && tasks[cur].state == {READY} && (cur != INIT_TASK_ID ==> AtHead(Abs()))
      modifies this, heads, links
      ensures Valid() && Abs() == KernelCalls.GetCurrent(old(Abs()))
    {
      var out := WithState(tasks[cur], tasks[cur].state - {READY});
      if cur == INIT_TASK_ID {
        Rewrite(cur, out);
        initQue := false;
      } else {
        Take(ReadyQ(tasks[cur].pri), cur, 0, true, out);
      }
    }

    /** get_tsk_prique: take a ready task out of its queue and make it current. */
    method GetReady(t: nat)
      requires Valid() && t < |tasks| && tasks[t].state == {READY}
      modifies this, heads, links
      ensures Valid() && Abs() == KernelCalls.GetReady(old(Abs()), t)
    {
      assert Placed(tasks, q, t);
      var out := WithState(tasks[t], tasks[t].state - {READY});
      if t == INIT_TASK_ID {
        Rewrite(t, out);
      } else {
        var id := ReadyQ(tasks[t].pri);
        Take(id, t, IndexOf(q[id], t), false, out);
      }
      SetCurrent(t);
    }

    method SetPri(t: nat, p: int)
      requires Valid() && t < |tasks| && READY !in tasks[t].state && PriInRange(p)
      modifies this, heads, links
      ensures Valid() && Abs() == KernelCalls.SetPri(old(Abs()), t, p)
    {
      Rewrite(t, tasks[t].(pri := p));
    }

    method MoveReady(t: nat, p: int)
      requires Valid() && t < |tasks| && tasks[t].state == {READY} && PriInRange(p)
      modifies this, heads, links
      ensures Valid() && Abs() == KernelCalls.MoveReady(old(Abs()), t, p)
    {
      GetReady(t);
      SetPri(t, p);
      PutCurrent();
    }

    /** The change of a ready task's priority inside another call, current saved and restored. */
    method MoveAside(t: nat, p: int)
      requires Valid() && t < |tasks| && tasks[t].state == {READY} && PriInRange(p)
      modifies this, heads, links
      ensures Valid() && Abs() == KernelCalls.MoveReady(old(Abs()), t, p).(cur := old(cur))
    {
      var saved := cur;
      MoveReady(t, p);
      SetCurrent(saved);
    }

    /** mz_ichg_pri */
    method IchgPri(t: nat, p: int)
      requires Valid() && t < |tasks| && p != PRIORITY_NUM
      requires tasks[t].state == {READY} || READY !in tasks[t].state
      modifies this, heads, links
      ensures Valid() && Abs() == KernelCalls.IchgPri(old(Abs()), t, p)
    {
      if !PriInRange(p) || tasks[t].state == {DORMANT} {
      } else if READY in tasks[t].state {
        MoveAside(t, p);
      } else {
        SetPri(t, p);
      }
    }

    // ---- Wait queues ---------------------------------------------------------------------------

    /** The first task of the best priority in a queue x of the tasks in s. */
    method ScanBest(x: TaskQueue, ghost s: seq<nat>) returns (best: Link)
      requires x.Valid() && s != [] && |x.items| == |s|
      requires forall k {:trigger s[k]} | 0 <= k < |s| :: x.items[k].id == s[k] < |tasks|
      ensures best == x.items[BestIndex(tasks, s)]
    {
      var tcbs := tasks;
      ghost var i;
      best, i := x.ScanBest((t: nat) => if t < |tcbs| then tcbs[t].pri else 0);
      ghost var b := BestIndex(tasks, s);
      assert s[i] < |tasks| && s[b] < |tasks|;
    }

    /** The waiter that a release serves: the head of the queue, or the first of the best priority. */
    method PickWaiter(id: QueueId, order: Order) returns (t: nat)
      requires Linked() && id in que && q[id] != []
      ensures QueueOk(tasks, q[id], id)
      ensures t == q[id][Pick(tasks, order, q[id])]
    {
      assert Threads(id, q[id]) && QueueOk(tasks, q[id], id);
      if order == TFIFO {
        t := que[id].head.id;
      } else {
        var x := ScanBest(que[id], q[id]);
        t := x.id;
      }
    }

    /** Append current to a wait queue. */
    method WaitOn(id: QueueId, b: StateBit, o: WaitObject)
      requires Valid() && OutOf(Abs()) && id in que
      requires o.OnMutex? ==> o.m < |mtxs|
      requires || (b == WAIT_SEMAPHORE && o.OnSemaphore? && id == SemQ(o.s))
               || (b == WAIT_MUTEX && o.OnMutex? && id == MtxQ(o.m))
               || (b == WAIT_VIRTUAL_MUTEX && o.OnMutex? && id == VirtQ)
      modifies this, heads, links
      ensures Valid() && Abs() == KernelCalls.WaitOn(old(Abs()), id, b, o)
    {
      Append(id, cur, tasks[cur].(state := tasks[cur].state + {b}, wobj := o));
    }

    /** Take the waiter that a release serves out of a wait queue and make it current. */
    method Wake(id: QueueId, order: Order)
      requires Valid() && AtRest(Abs()) && id in que && !id.ReadyQ? && q[id] != []
      modifies this, heads, links
      ensures Valid() && Abs() == KernelCalls.Wake(old(Abs()), id, order)
    {
      var t := PickWaiter(id, order);
      Take(id, t, Pick(tasks, order, q[id]), order == TFIFO, tasks[t].(state := {}, wobj := NoObject));
      SetCurrent(t);
    }

    // ---- Control blocks of mutexes and semaphores ----------------------------------------------

    method WriteMutex(m: nat, mx: Mutex)
      requires Valid() && m < |mtxs| && OwnerOk(|tasks|, mx.owner)
      modifies this`mtxs
      ensures Valid() && Abs() == SetMtx(old(Abs()), m, mx)
    {
      mtxs := mtxs[m := mx];
    }

    method WriteVirtual(v: Mutex)
      requires Valid() && OwnerOk(|tasks|, v.owner)
      modifies this`virt
      ensures Valid() && Abs() == old(Abs()).(virt := v)
    {
      virt := v;
    }

    method WriteSem(s: nat, sm: Semaphore)
      requires Valid() && s < |sems|
      modifies this`sems
      ensures Valid() && Abs() == SetSem(old(Abs()), s, sm)
    {
      sems := sems[s := sm];
    }

    method DownSystem()
      requires Valid()
      modifies this`halted
      ensures Valid() && Abs() == old(Abs()).(halted := true)
    {
      halted := true;
    }

    // ---- Mutexes without a protocol (mutex.c) --------------------------------------------------

    method LocFirst(m: nat)
      requires Valid() && OutOf(Abs()) && m < |mtxs|
      modifies this, heads, links
      ensures Valid() && Abs() == KernelCalls.LocFirst(old(Abs()), m)
    {
      hide Valid;
      var mx, t := mtxs[m], cur;
      if mx.value == 0 {
        PutCurrent();
        WriteMutex(m, mx.(value := mx.value + 1, locks := mx.locks + 1, owner := t));
      } else {
        DownSystem();
      }
    }

    method LocMultipl(m: nat) returns (er: int)
      requires Valid() && OutOf(Abs()) && m < |mtxs|
      modifies this, heads, links
      ensures Valid() && Ret(Abs(), er) == KernelCalls.LocMultipl(old(Abs()), m)
      ensures var mx := old(mtxs[m]);
              if mx.locks < mx.maxlocks then er == E_OK && mtxs == old(mtxs)[m := mx.(locks := mx.locks + 1)]
              else er == E_ILUSE && mtxs == old(mtxs)
    {
      hide Valid;
      PutCurrent();
      if mtxs[m].maxlocks <= mtxs[m].locks {
        er := E_ILUSE;
      } else {
        WriteMutex(m, mtxs[m].(locks := mtxs[m].locks + 1));
        er := E_OK;
      }
    }

    method NotLockFirst(m: nat) returns (er: int)
      requires Valid() && OutOf(Abs()) && m < |mtxs|
      modifies this, heads, links
      ensures Valid() && Ret(Abs(), er) == KernelCalls.NotLockFirst(old(Abs()), m)
      ensures var mx := old(mtxs[m]);
              if mx.locks > 1 then er == E_OK && mtxs == old(mtxs)[m := mx.(locks := mx.locks - 1)]
              else er == E_ILUSE && mtxs == old(mtxs)
    {
      hide Valid;
      PutCurrentRests(Abs());
      PutCurrent();
      if mtxs[m].locks > 1 {
        WriteMutex(m, mtxs[m].(locks := mtxs[m].locks - 1));
        er := E_OK;
      } else {
        er := E_ILUSE;
      }
    }

    method ClearOwnership(m: nat)
      requires Valid() && AtRest(Abs()) && m < |mtxs|
      modifies this, heads, links
      ensures Valid() && Abs() == KernelCalls.ClearOwnership(old(Abs()), m)
    {
      var mx := mtxs[m];
      WriteMutex(m, mx.(value := mx.value - 1, owner := NO_OWNER, locks := mx.locks - 1));
    }

    method WaitMtx(m: nat)
      requires Valid() && OutOf(Abs()) && m < |mtxs|
      modifies this, heads, links
      ensures Valid() && Abs() == KernelCalls.WaitMtx(old(Abs()), m)
    {
      WaitOn(MtxQ(m), WAIT_MUTEX, OnMutex(m));
    }

    method PutMtxWait(m: nat)
      requires Valid() && AtRest(Abs()) && m < |mtxs| && q[MtxQ(m)] != []
      modifies this, heads, links
      ensures Valid() && Abs() == KernelCalls.PutMtxWait(old(Abs()), m)
    {
      Wake(MtxQ(m), mtxs[m].order);
      PutCurrent();
      WriteMutex(m, mtxs[m].(owner := cur));
    }

    method Release(m: nat)
      requires Valid() && OutOf(Abs()) && m < |mtxs|
      modifies this, heads, links
      ensures Valid() && Abs() == KernelCalls.Release(old(Abs()), m)
    {
      var none := Empty(MtxQ(m));
      PutCurrentRests(Abs());
      PutCurrent();
      if none { ClearOwnership(m); } else { PutMtxWait(m); }
    }

    method LocVoid(m: nat) returns (er: int)
      requires Valid() && OutOf(Abs()) && m < |mtxs|
      modifies this, heads, links
      ensures Valid() && Ret(Abs(), er) == KernelCalls.LocVoid(old(Abs()), m)
    {
      if mtxs[m].owner != NO_OWNER {
        if mtxs[m].owner != cur {
          WaitMtx(m);
          er := E_OK;
        } else {
          er := LocMultipl(m);
        }
      } else {
        LocFirst(m);
        er := E_OK;
      }
    }

    method UnlVoid(m: nat) returns (er: int)
      requires Valid() && OutOf(Abs()) && m < |mtxs|
      modifies this, heads, links
      ensures Valid() && Ret(Abs(), er) == KernelCalls.UnlVoid(old(Abs()), m)
    {
      if mtxs[m].owner == cur {
        if mtxs[m].locks == 1 {
          Release(m);
          er := E_OK;
        } else {
          er := NotLockFirst(m);
        }
      } else {
        PutCurrent();
        er := E_ILUSE;
      }
    }

    // ---- Priority inheritance (prinvermutex.c) -------------------------------------------------

    method BoostOwner(owner: nat)
      requires Valid() && OutOf(Abs()) && owner < |tasks|
      modifies this, heads, links
      ensures Valid() && Abs() == KernelCalls.BoostOwner(old(Abs()), owner)
      ensures |mtxs| == old(|mtxs|) && mtxs == old(mtxs)
    {
      hide Valid;
      if tasks[cur].pri < tasks[owner].pri { IchgPri(owner, tasks[cur].pri); }
    }

    method RestorePri()
      requires Valid() && OutOf(Abs())
      modifies this, heads, links
      ensures Valid() && Abs() == KernelCalls.RestorePri(old(Abs()))
    {
      if tasks[cur].pri != tasks[cur].initPri { IchgPri(cur, tasks[cur].initPri); }
    }

    /** Queue on mutex m, raising its owner. */
    method WaitBoosting(m: nat)
      requires Valid() && OutOf(Abs()) && m < |mtxs| && mtxs[m].owner != NO_OWNER && mtxs[m].owner != cur
      modifies this, heads, links
      ensures Valid() && Abs() == KernelCalls.LocInher(old(Abs()), m).k
    {
      BoostOwner(mtxs[m].owner);
      WaitMtx(m);
    }

    method LocInher(m: nat) returns (er: int)
      requires Valid() && OutOf(Abs()) && m < |mtxs|
      modifies this, heads, links
      ensures Valid() && Ret(Abs(), er) == KernelCalls.LocInher(old(Abs()), m)
    {
      if mtxs[m].owner != NO_OWNER {
        if mtxs[m].owner != cur {
          WaitBoosting(m);
          er := E_OK;
        } else {
          er := LocMultipl(m);
        }
      } else {
        LocFirst(m);
        er := E_OK;
      }
    }

    method UnlInher(m: nat) returns (er: int)
      requires Valid() && OutOf(Abs()) && m < |mtxs|
      modifies this, heads, links
      ensures Valid() && Ret(Abs(), er) == KernelCalls.UnlInher(old(Abs()), m)
    {
      if mtxs[m].owner == cur {
        if mtxs[m].locks == 1 {
          RestorePri();
          Release(m);
          er := E_OK;
        } else {
          er := NotLockFirst(m);
        }
      } else {
        PutCurrent();
        er := E_ILUSE;
      }
    }

    // ---- Immediate highest locker (prinvermutex.c) ---------------------------------------------

    /** Another list of listed mutexes changes nothing else about a well-formed kernel. */
    lemma RelistWF(list: seq<nat>)
      requires WF(Abs()) && NoDup(list) && forall i | 0 <= i < |list| :: list[i] < |mtxs|
      ensures WF(Abs().(high := list))
    {
    }

    /** put_imhighest_loker_mtx */
    method PutHigh(m: nat)
      requires Valid() && OutOf(Abs()) && m < |mtxs| && m !in high
      modifies this`high, pcl, pcl.blocks
      ensures Valid() && Abs() == KernelCalls.PutHigh(old(Abs()), m)
    {
      hide LinksClear, BitmapOk, IsPatternTable, QueuesMatch, QueuesOk;
      RelistWF([m] + high);
      pcl.PutHead(m);
      high := [m] + high;
    }

    /** get_imhighest_loker_mtx */
    method TakeHigh(m: nat)
      requires Valid() && m < |mtxs|
      modifies this`high, pcl, pcl.blocks
      ensures Valid() && Abs() == old(Abs()).(high := Unlist(old(high), m))
    {
      hide LinksClear, BitmapOk, IsPatternTable, QueuesMatch, QueuesOk;
      RelistWF(Unlist(high, m));
      pcl.Remove(m);
      high := Unlist(high, m);
    }

    /** get_imhighest_locker_tskpri: the best ceiling of the listed mutexes that t owns. */
    method BestListed(t: nat) returns (p: int)
      requires Valid() && t < |tasks|
      ensures p == ListedPri(Abs(), t, high)
    {
      p := tasks[t].initPri;
      var work := pcl.head;
      ghost var i := 0;
      while work != null
        invariant i <= |high| && p == ListedPri(Abs(), t, high[..i])
        invariant work == if i < |high| then pcl.blocks[high[i]] else null
        decreases |high| - i
      {
        assert pcl.LinkedAt(high, i) && work.m == high[i];
        assert high[..i + 1][..i] == high[..i];
        if mtxs[work.m].owner == t && p > mtxs[work.m].ceiling { p := mtxs[work.m].ceiling; }
        work, i := work.next, i + 1;
      }
      assert high[..i] == high;
    }

    method LocImHigh(m: nat) returns (er: int)
      requires Valid() && OutOf(Abs()) && m < |mtxs| && !Relists(Abs(), m)
      modifies this, heads, links, pcl, pcl.blocks
      ensures Valid() && Ret(Abs(), er) == KernelCalls.LocImHigh(old(Abs()), m)
    {
      if mtxs[m].owner != NO_OWNER {
        if mtxs[m].owner != cur {
          WaitMtx(m);
          er := E_OK;
        } else {
          er := LocMultipl(m);
        }
      } else {
        if tasks[cur].pri > mtxs[m].ceiling { RaiseToCeiling(m); }
        LocFirst(m);
        er := E_OK;
      }
    }

    method RaiseToCeiling(m: nat)
      requires Valid() && OutOf(Abs()) && m < |mtxs| && m !in high && tasks[cur].pri > mtxs[m].ceiling
      modifies this, heads, links, pcl, pcl.blocks
      ensures Valid() && OutOf(Abs())
      ensures Abs() == KernelCalls.IchgPri(KernelCalls.PutHigh(old(Abs()), m), old(cur), old(mtxs[m].ceiling))
    {
      IchgPriOutOf(KernelCalls.PutHigh(Abs(), m), cur, mtxs[m].ceiling);
      PutHigh(m);
      IchgPri(cur, mtxs[m].ceiling);
    }

    method LowerHigh(m: nat)
      requires Valid() && OutOf(Abs()) && m < |mtxs|
      modifies this, heads, links, pcl, pcl.blocks
      ensures Valid() && Abs() == KernelCalls.LowerHigh(old(Abs()), m)
    {
      if tasks[cur].pri != tasks[cur].initPri {
        TakeHigh(m);
        var p := BestListed(cur);
        ListedPriBound(Abs(), cur, high);
        IchgPri(cur, p);
      }
    }

    method UnlImHigh(m: nat) returns (er: int)
      requires Valid() && OutOf(Abs()) && m < |mtxs|
      modifies this, heads, links, pcl, pcl.blocks
      ensures Valid() && Ret(Abs(), er) == KernelCalls.UnlImHigh(old(Abs()), m)
    {
      if mtxs[m].owner == cur {
        if mtxs[m].locks == 1 {
          LowerHigh(m);
          Release(m);
          er := E_OK;
        } else {
          er := NotLockFirst(m);
        }
      } else {
        PutCurrent();
        er := E_ILUSE;
      }
    }

    // ---- Virtual priority inheritance (prinvermutex.c) -----------------------------------------

    method LocVirtual()
      requires Valid() && OutOf(Abs())
      modifies this, heads, links
      ensures Valid() && Abs() == KernelCalls.LocVirtual(old(Abs()))
    {
      if virt.value == 0 {
        WriteVirtual(virt.(value := virt.value + 1, locks := virt.locks + 1, owner := cur));
      } else {
        DownSystem();
      }
    }

    /** Queue on the virtual mutex, raising its owner. */
    method WaitVirtual(m: nat)
      requires Valid() && OutOf(Abs()) && m < |mtxs| && virt.owner != NO_OWNER && virt.owner != cur
      modifies this, heads, links
      ensures Valid() && Abs() == KernelCalls.LocVinher(old(Abs()), m).k
    {
      BoostOwner(virt.owner);
      WaitVirtualMtx(m);
    }

    method WaitVirtualMtx(m: nat)
      requires Valid() && OutOf(Abs()) && m < |mtxs|
      modifies this, heads, links
      ensures Valid() && Abs() == KernelCalls.WaitOn(old(Abs()), VirtQ, WAIT_VIRTUAL_MUTEX, OnMutex(m))
    {
      WaitOn(VirtQ, WAIT_VIRTUAL_MUTEX, OnMutex(m));
    }

    /** Count one more lock of the virtual mutex and take the free mutex m. */
    method LocNext(m: nat)
      requires Valid() && OutOf(Abs()) && m < |mtxs|
      modifies this, heads, links
      ensures Valid()
      ensures Abs() == KernelCalls.LocFirst(old(Abs()).(virt := old(virt).(locks := old(virt).locks + 1)), m)
    {
      WriteVirtual(virt.(locks := virt.locks + 1));
      LocFirst(m);
    }

    method LocBoth(m: nat)
      requires Valid() && OutOf(Abs()) && m < |mtxs| && !halted && virt.owner == NO_OWNER
      modifies this, heads, links
      ensures Valid() && Abs() == KernelCalls.LocVinher(old(Abs()), m).k
    {
      LocVirtual();
      if !halted { LocFirst(m); }
    }

    method LocVinher(m: nat) returns (er: int)
      requires Valid() && OutOf(Abs()) && m < |mtxs| && !halted
      modifies this, heads, links
      ensures Valid() && Ret(Abs(), er) == KernelCalls.LocVinher(old(Abs()), m)
    {
      hide Valid;
      er := E_OK;
      if virt.owner != NO_OWNER {
        if virt.owner != cur {
          WaitVirtual(m);
        } else if mtxs[m].owner != NO_OWNER {
          er := LocMultipl(m);
        } else {
          LocNext(m);
        }
      } else {
        LocBoth(m);
      }
    }

    method HandOver(w: nat, m: nat)
      requires Valid() && OutOf(Abs()) && w < |mtxs| && m < |mtxs|
      modifies this, heads, links
      ensures Valid() && Abs() == KernelCalls.HandOver(old(Abs()), w, m)
    {
      WriteMutex(w, mtxs[w].(value := 0, locks := 0));
      if w != m { WriteMutex(m, Free(mtxs[m])); }
      WriteVirtual(virt.(owner := cur));
    }

    /** The mutex that the next owner of the virtual mutex asked for. */
    method Wanted() returns (w: nat)
      requires Valid() && AtRest(Abs()) && q[VirtQ] != []
      ensures w == WokenWants(Abs())
    {
      var t := PickWaiter(VirtQ, virt.order);
      w := tasks[t].wobj.m;
    }

    method PutVirtualWait(m: nat)
      requires Valid() && AtRest(Abs()) && m < |mtxs| && q[VirtQ] != []
      modifies this, heads, links
      ensures Valid() && Abs() == KernelCalls.PutVirtualWait(old(Abs()), m)
      ensures forall i | 0 <= i < |old(q[VirtQ])| && Serves(old(tasks), old(virt.order), old(q[VirtQ]), i) ::
                var u := old(q[VirtQ])[i];
                && old(tasks)[u].wobj.OnMutex? && old(tasks)[u].wobj.m < |old(mtxs)|
                && mtxs == GivenTo(old(mtxs)[m := Free(old(mtxs)[m])], old(tasks)[u].wobj.m, u)
                && virt == old(virt).(owner := u)
                && tasks == old(tasks)[u := old(tasks)[u].(state := {READY}, wobj := NoObject)]
    {
      forall i | 0 <= i < |q[VirtQ]| && Serves(tasks, virt.order, q[VirtQ], i)
        ensures var k', u := KernelCalls.PutVirtualWait(Abs(), m), q[VirtQ][i];
                && tasks[u].wobj.OnMutex? && tasks[u].wobj.m < |mtxs|
                && k'.mtxs == GivenTo(mtxs[m := Free(mtxs[m])], tasks[u].wobj.m, u) && k'.virt == virt.(owner := u)
                && k'.tasks == tasks[u := tasks[u].(state := {READY}, wobj := NoObject)]
      {
        GivenWaiter(Abs(), m, i);
      }
      var w := Wanted();
      Wake(VirtQ, virt.order);
      HandOver(w, m);
      LocFirst(w);
    }

    method ClearVirtual()
      requires Valid()
      modifies this, heads, links
      ensures Valid() && Abs() == KernelCalls.ClearVirtual(old(Abs()))
    {
      WriteVirtual(virt.(value := virt.value - 1, owner := NO_OWNER, locks := virt.locks - 1));
    }

    /** The part of unl_vinhermtx_isr that gives up the virtual mutex too. */
    method ReleaseVirtual(m: nat)
      requires Valid() && OutOf(Abs()) && m < |mtxs|
      requires virt.owner == cur && virt.locks == 1 && mtxs[m].locks == 1
      modifies this, heads, links
      ensures Valid() && Ret(Abs(), E_OK) == KernelCalls.UnlVinher(old(Abs()), m)
    {
      RestorePriQueue(Abs(), VirtQ);
      var none := Empty(VirtQ);
      RestorePri();
      PutCurrentRests(Abs());
      PutCurrent();
      if none {
        ClearVirtual();
        ClearOwnership(m);
      } else {
        PutVirtualWait(m);
      }
    }

    method UnlVinher(m: nat) returns (er: int)
      requires Valid() && OutOf(Abs()) && m < |mtxs|
      modifies this, heads, links
      ensures Valid() && Ret(Abs(), er) == KernelCalls.UnlVinher(old(Abs()), m)
    {
      if virt.owner == cur {
        if mtxs[m].locks != 1 {
          er := NotLockFirst(m);
        } else if virt.locks == 1 {
          ReleaseVirtual(m);
          er := E_OK;
        } else {
          er := DropVirtual(m);
        }
      } else {
        PutCurrent();
        er := E_ILUSE;
      }
    }

    /** The part of unl_vinhermtx_isr that keeps the virtual mutex. */
    method DropVirtual(m: nat) returns (er: int)
      requires Valid() && OutOf(Abs()) && m < |mtxs|
      requires virt.owner == cur && virt.locks != 1 && mtxs[m].locks == 1
      modifies this, heads, links
      ensures Valid() && Ret(Abs(), er) == KernelCalls.UnlVinher(old(Abs()), m)
    {
      PutCurrentRests(Abs());
      PutCurrent();
      if virt.locks > 1 {
        WriteVirtual(virt.(locks := virt.locks - 1));
        er := E_OK;
      } else {
        er := E_ILUSE;
      }
      ClearOwnership(m);
    }

    // ---- Semaphores (semaphore.c) --------------------------------------------------------------

    method SigSemIsr(s: nat) returns (er: int)
      requires Valid() && AtRest(Abs()) && s < |sems|
      modifies this, heads, links
      ensures Valid() && Ret(Abs(), er) == KernelCalls.SigSemIsr(old(Abs()), s)
      ensures var sm, w := old(sems[s]), old(q[SemQ(s)]);
              && er == (if w != [] || sm.value == 0 || sm.value < sm.max then E_OK else E_QOVR)
              && sems == (if w == [] && er == E_OK then old(sems)[s := sm.(value := sm.value + 1)] else old(sems))
              && (w == [] ==> tasks == old(tasks) && q == old(q))
      ensures forall i | 0 <= i < |old(q[SemQ(s)])| && Serves(old(tasks), old(sems[s]).order, old(q[SemQ(s)]), i) ::
                var u := old(q[SemQ(s)])[i];
                tasks == old(tasks)[u := old(tasks)[u].(state := {READY}, wobj := NoObject)]
    {
      hide BitmapOk, ListOk, IsPatternTable, LinksClear, Requeued;
      forall i | 0 <= i < |q[SemQ(s)]| && Serves(tasks, sems[s].order, q[SemQ(s)], i)
        ensures var u := q[SemQ(s)][i];
                KernelCalls.SigSemIsr(Abs(), s).k.tasks == tasks[u := tasks[u].(state := {READY}, wobj := NoObject)]
      {
        WokenEffect(Abs(), SemQ(s), i, sems[s].order);
      }
      er := E_OK;
      var none := Empty(SemQ(s));
      if !none {
        Wake(SemQ(s), sems[s].order);
        PutCurrent();
      } else if sems[s].value == 0 || sems[s].value < sems[s].max {
        WriteSem(s, sems[s].(value := sems[s].value + 1));
      } else {
        er := E_QOVR;
      }
    }

    method SigSem(s: nat) returns (er: int)
      requires Valid() && OutOf(Abs()) && s < |sems|
      modifies this, heads, links
      ensures Valid() && Ret(Abs(), er) == KernelCalls.SigSem(old(Abs()), s)
    {
      PutCurrentRests(Abs());
      PutCurrent();
      er := SigSemIsr(s);
    }

    method WaiSem(s: nat) returns (er: int)
      requires Valid() && OutOf(Abs()) && s < |sems|
      modifies this, heads, links
      ensures Valid() && Ret(Abs(), er) == KernelCalls.WaiSem(old(Abs()), s)
    {
      hide BitmapOk, ListOk, IsPatternTable, LinksClear;
      if sems[s].value >= 1 {
        WriteSem(s, sems[s].(value := sems[s].value - 1));
        PutCurrent();
      } else {
        WaitOn(SemQ(s), WAIT_SEMAPHORE, OnSemaphore(s));
      }
      er := E_OK;
    }

    method PolSem(s: nat) returns (er: int)
      requires Valid() && OutOf(Abs()) && s < |sems|
      modifies this, heads, links
      ensures Valid() && Ret(Abs(), er) == KernelCalls.PolSem(old(Abs()), s)
    {
      hide Valid;
      if sems[s].value >= 1 {
        WriteSem(s, sems[s].(value := sems[s].value - 1));
        er := E_OK;
      } else {
        er := E_TMOUT;
      }
      PutCurrent();
    }

    // ---- Task calls (task_manage.c) ------------------------------------------------------------

    method ChgPri(t: nat, p: int) returns (er: int)
      requires Valid() && OutOf(Abs()) && t < |tasks| && p != PRIORITY_NUM
      modifies this, heads, links
      ensures Valid() && Ret(Abs(), er) == KernelCalls.ChgPri(old(Abs()), t, p)
    {
      er := E_OK;
      if p < 0 || PRIORITY_NUM < p {
        PutCurrent();
        er := E_PAR;
      } else if tasks[t].state == {DORMANT} {
        PutCurrent();
        er := E_OBJ;
      } else if t == cur {
        SetPri(t, p);
        PutCurrent();
      } else {
        ChgOther(t, p);
      }
    }

    method ChgOther(t: nat, p: int)
      requires Valid() && OutOf(Abs()) && t < |tasks| && PriInRange(p)
      requires t != cur && tasks[t].state != {DORMANT}
      modifies this, heads, links
      ensures Valid() && Abs() == KernelCalls.ChgPri(old(Abs()), t, p).k
    {
      hide Valid;
      PutCurrentRests(Abs());
      PutCurrent();
      ChgAtRest(t, p);
    }

    method ChgAtRest(t: nat, p: int)
      requires Valid() && AtRest(Abs()) && t < |tasks| && PriInRange(p)
      modifies this, heads, links
      ensures Valid()
      ensures Abs() == if old(tasks[t]).state == {READY} then KernelCalls.MoveReady(old(Abs()), t, p)
                       else KernelCalls.SetPri(old(Abs()), t, p)
    {
      if READY in tasks[t].state { MoveReady(t, p); } else { SetPri(t, p); }
    }

    method StaTsk(t: nat) returns (er: int)
      requires Valid() && OutOf(Abs()) && t < |tasks|
      modifies this, heads, links
      ensures Valid() && Ret(Abs(), er) == KernelCalls.StaTsk(old(Abs()), t)
    {
      hide Valid;
      PutCurrentRests(Abs());
      PutCurrent();
      SetCurrent(t);
      if tasks[t].state == {DORMANT} {
        Rewrite(t, WithState(tasks[t], {}));
        PutCurrent();
        er := E_OK;
      } else {
        er := E_OBJ;
      }
    }

    // ---- System calls and the scheduler --------------------------------------------------------

    method LocMtxCall(m: nat) returns (er: int)
      requires Valid() && OutOf(Abs()) && Admits(Abs(), KernelRun.LocMtx(m)) && !halted
      modifies this, heads, links, pcl, pcl.blocks
      ensures Valid() && Ret(Abs(), er) == KernelRun.LocMtxCall(old(Abs()), m)
    {
      if ids.mtx <= m {
        PutCurrent();
        er := E_ID;
      } else if |mtxs| <= m {
        PutCurrent();
        er := E_NOEXS;
      } else {
        match mtxs[m].protocol
        case VOIDPCL => er := LocVoid(m);
        case INHERIT => er := LocInher(m);
        case IMHIGHLOC => er := LocImHigh(m);
        case VINHERIT => er := LocVinher(m);
      }
    }

    method UnlMtxCall(m: nat) returns (er: int)
      requires Valid() && OutOf(Abs())
      modifies this, heads, links, pcl, pcl.blocks
      ensures Valid() && Ret(Abs(), er) == KernelRun.UnlMtxCall(old(Abs()), m)
    {
      if ids.mtx <= m {
        PutCurrent();
        er := E_ID;
      } else if |mtxs| <= m {
        PutCurrent();
        er := E_NOEXS;
      } else {
        match mtxs[m].protocol
        case VOIDPCL => er := UnlVoid(m);
        case INHERIT => er := UnlInher(m);
        case IMHIGHLOC => er := UnlImHigh(m);
        case VINHERIT => er := UnlVinher(m);
      }
    }

    method SemCall(c: Call) returns (er: int)
      requires Valid() && OutOf(Abs()) && (c.WaiSem? || c.PolSem? || c.SigSem?)
      modifies this, heads, links
      ensures Valid() && Ret(Abs(), er) == KernelRun.Dispatch(old(Abs()), c)
    {
      if ids.sem <= c.s {
        PutCurrent();
        er := E_ID;
      } else if |sems| <= c.s {
        PutCurrent();
        er := E_NOEXS;
      } else {
        match c
        case WaiSem(s) => er := WaiSem(s);
        case PolSem(s) => er := PolSem(s);
        case SigSem(s) => er := SigSem(s);
      }
    }

    method TaskCall(c: Call) returns (er: int)
      requires Valid() && OutOf(Abs()) && (c.ChgPri? || c.StaTsk?) && CallOk(c)
      modifies this, heads, links
      ensures Valid() && Ret(Abs(), er) == KernelRun.Dispatch(old(Abs()), c)
    {
      if ids.tsk <= c.t {
        PutCurrent();
        er := E_ID;
      } else if |tasks| <= c.t {
        PutCurrent();
        er := E_NOEXS;
      } else {
        match c
        case ChgPri(t, p) => er := ChgPri(t, p);
        case StaTsk(t) => er := StaTsk(t);
      }
    }

    /** call_functions */
    method Dispatch(c: Call) returns (er: int)
      requires Valid() && OutOf(Abs()) && Admits(Abs(), c) && !halted
      modifies this, heads, links, pcl, pcl.blocks
      ensures Valid() && Ret(Abs(), er) == KernelRun.Dispatch(old(Abs()), c)
    {
      match c
      case LocMtx(m) => er := LocMtxCall(m);
      case UnlMtx(m) => er := UnlMtxCall(m);
      case WaiSem(_) => er := SemCall(c);
      case PolSem(_) => er := SemCall(c);
      case SigSem(_) => er := SemCall(c);
      case ChgPri(_, _) => er := TaskCall(c);
      case StaTsk(_) => er := TaskCall(c);
    }

    /** The task at the head of a queue. */
    method First(id: QueueId) returns (t: nat)
      requires Linked() && id in que && q[id] != []
      ensures t == q[id][0] && t < |tasks|
    {
      assert Threads(id, q[id]) && QueueOk(tasks, q[id], id);
      t := que[id].head.id;
    }

    /** The best priority with a ready task, by bit search. */
    method BestReady() returns (r: Option<nat>)
      requires Valid() && AtRest(Abs())
      ensures r == LeastReady(q, 0)
    {
      var p := BitSearch(table, bitmap);
      SearchFindsLeast(bitmap, q, p);
      r := if p == E_NG then None else Some(p);
    }

    /** schedule_ps */
    method Schedule()
      requires Valid() && AtRest(Abs())
      modifies this, heads, links
      ensures Valid() && Abs() == KernelRun.Schedule(old(Abs()))
    {
      hide Wired, LinksClear, BitmapOk, ListOk, IsPatternTable;
      var p := BestReady();
      if p.Some? {
        var t := First(ReadyQ(p.value));
        SetCurrent(t);
      } else if initQue {
        SetCurrent(INIT_TASK_ID);
      } else {
        DownSystem();
      }
    }

    /** process_init_tsk: start the init task of a kernel that has just been set up. */
    method Boot(ghost pris: seq<int>)
      requires Valid() && |pris| > 0 && (forall t | 0 <= t < |pris| :: PriInRange(pris[t]))
      requires Abs() == Installed(pris, sems, mtxs, virt, ids) && ObjectsNew(sems, mtxs, virt)
      modifies this, heads, links
      ensures Valid() && Abs() == Booted(old(Abs())) && Started(Abs())
    {
      BootedIsStarted(pris, sems, mtxs, virt, ids);
      Rewrite(INIT_TASK_ID, WithState(tasks[INIT_TASK_ID], {}));
      assert {} + {READY} == {READY};
      PutCurrent();
      assert tasks == Booted(old(Abs())).tasks;
    }

    /** A whole call: take the caller out, run the call, pick the next task. */
    method Syscall(c: Call) returns (er: int)
      requires Valid() && Runnable(Abs()) && Admits(Abs(), c)
      modifies this, heads, links, pcl, pcl.blocks
      ensures Valid() && Ret(Abs(), er) == SyscallStep(old(Abs()), c)
    {
      hide Valid;
      GetCurrentOut(Abs());
      GetCurrent();
      er := Dispatch(c);
      if !halted { Schedule(); }
    }

    method RoundRobin()
      requires Valid() && Runnable(Abs())
      modifies this, heads, links
      ensures Valid() && Abs() == KernelRun.RoundRobin(old(Abs()))
      ensures tasks == old(tasks) && Requeued(old(Abs()), Abs(), old(cur), old(cur))
    {
      hide Valid, Requeued;
      RoundRobinEffect(Abs());
      GetCurrentOut(Abs());
      GetCurrent();
      PutCurrentRests(Abs());
      PutCurrent();
      Schedule();
    }

    method Demote()
      requires Valid() && OutOf(Abs())
      modifies this, heads, links
      ensures Valid() && Abs() == KernelRun.Demote(old(Abs()))
    {
      if tasks[cur].pri != PRIORITY_NUM - 1 { SetPri(cur, tasks[cur].pri + 1); }
    }

    method Feedback()
      requires Valid() && Runnable(Abs())
      modifies this, heads, links
      ensures Valid() && Abs() == KernelRun.Feedback(old(Abs()))
      ensures var tk, p := old(tasks[cur]), old(tasks[cur].pri);
              tasks == old(tasks)[old(cur) := tk.(pri := if p + 1 < PRIORITY_NUM then p + 1 else p)]
      ensures Requeued(old(Abs()), Abs(), old(cur), old(cur))
    {
      hide Valid, QueuesOk, Requeued, Others;
      FeedbackEffect(Abs());
      GetCurrentOut(Abs());
      GetCurrent();
      Demote();
      PutCurrentRests(Abs());
      PutCurrent();
      Schedule();
    }

    /** Any step of the kernel does to the blocks what the step function does to their value. */
    method Step(s: Step)
      requires Valid() && Runnable(Abs()) && StepOk(Abs(), s)
      modifies this, heads, links, pcl, pcl.blocks
      ensures Valid() && Abs() == StepTo(old(Abs()), s)
    {
      match s
      case Syscall(c) => var er := Syscall(c);
      case RoundRobinExpiry => RoundRobin();
      case FeedbackExpiry => Feedback();
    }

    method StepOn(s: Step)
      requires Valid() && LocksOk(Abs()) && (halted || Good(Abs())) && Next(Abs(), s).Some?
      modifies this, heads, links, pcl, pcl.blocks
      ensures Valid() && Some(Abs()) == Next(old(Abs()), s)
    {
      if !halted { Step(s); }
    }

    /** A run of the blocks is a run of their value: whatever holds after every run of the value holds
        of the blocks. */
    method RunSteps(steps: seq<Step>)
      requires Valid() && Good(Abs()) && Run(Abs(), steps).Some?
      modifies this, heads, links, pcl, pcl.blocks
      ensures Valid() && Some(Abs()) == Run(old(Abs()), steps)
    {
      hide Valid, Good, Next, StepOk;
      ghost var k := Abs();
      for i := 0 to |steps|
        invariant Valid() && Run(k, steps[..i]) == Some(Abs())
      {
        RunPrefix(k, steps, i + 1);
        RunNext(k, steps, i);
        StepOn(steps[i]);
      }
      assert steps[..|steps|] == steps;
    }
  }
}
