/** The ready structure of the EDF, LLF and Fair schedulers: a binary search tree with parent
    pointers, its nodes threaded on a sorted list whose head the scheduler runs, and ranked by dynamic
    priorities along that list. */
module ReadyTrees {
  import opened TaskQueues
  import opened Bitmaps
  import opened KernelState
  import opened Trees
  import opened DynamicRanks

  /** The part of a task control block that the tree uses. */
  class Node {
    const id: nat
    var key: int            // execution time, deadline or laxity
    var ready: bool         // TASK_READY
    var dynamicPrio: int
    var left: Node?
    var right: Node?
    var parent: Node?
    var sortNext: Node?
    var sortPrev: Node?

    constructor (id: nat, key: int)
      ensures this.id == id && this.key == key && !ready && dynamicPrio == 0
      ensures left == null && right == null && parent == null && sortNext == null && sortPrev == null
    {
      this.id, this.key, ready, dynamicPrio := id, key, false, 0;
      left, right, parent, sortNext, sortPrev := null, null, null, null, null;
    }
  }

  /** A task is started, the running task leaves, or its quantum expires. */
  datatype Deed = StartTask(x: nat) | LeaveRunning | ExpireQuantum(charge: int)

  /** What a deed, no stale start, does. */
  predicate Does(d: Deed, e: Event) {
    match d
    case StartTask(_) => e.Refused? || (e.Start? && !e.stale)
    case LeaveRunning => e.Leave?
    case ExpireQuantum(c) => e == Expiry(c)
  }

  /** The numbers from n down to 2. */
  ghost function Down(n: nat): (r: seq<nat>) {
    if n <= 1 then [] else [n] + Down(n - 1)
  }

  /** All keys are the same. */
  predicate Alike(keys: seq<int>) {
    forall y | 0 <= y < |keys| :: keys[y] == keys[0]
  }

  /** The first task started is at the root and runs first, the others in the reverse of the order in
      which they were started. */
  ghost predicate LastFirst(t: Tree, n: nat) {
    n > 0 ==> Root(t) == Some(1) && Walk(t) == [1] + Down(n)
  }

  /** A task that is in no tree. */
  ghost predicate Fresh(n: Node, id: nat, key: int)
    reads n
  {
    && n.id == id && n.key == key && !n.ready
    && n.left == null && n.right == null && n.parent == null && n.sortNext == null && n.sortPrev == null
  }

  method MakeNodes(keys: seq<int>) returns (r: seq<Node>)
    ensures |r| == |keys| && fresh(r) && forall y | 0 <= y < |r| :: Fresh(r[y], y, keys[y])
  {
    r := [];
    while |r| < |keys|
      invariant |r| <= |keys| && fresh(r) && forall y | 0 <= y < |r| :: Fresh(r[y], y, keys[y])
    {
      var n := new Node(|r|, keys[|r|]);
      r := r + [n];
    }
  }

  class ReadyTree {
    const nodes: seq<Node>      // by task ID
    var treeHead: Node?
    var slistHead: Node?
    var minPriority: int
    var tskNum: int
    var initQue: bool
    var cur: nat
    var halted: bool
    ghost var shape: Tree
    ghost var ranks: seq<int>   // the dynamic priorities along the list

    // ---- The invariant -------------------------------------------------------------------------

    ghost predicate Table() {
      forall i | 0 <= i < |nodes| :: nodes[i].id == i
    }

    ghost predicate InTable(s: seq<nat>) {
      forall i | 0 <= i < |s| :: s[i] < |nodes|
    }

    function Ptr(o: Option<nat>): (r: Node?)
      requires o.Some? ==> o.value < |nodes|
    {
      if o.None? then null else nodes[o.value]
    }

    /** The pointers of task y lead to its neighbours in the tree t. */
    ghost predicate Hung(t: Tree, y: nat)
      requires y < |nodes|
      reads nodes`left, nodes`right, nodes`parent
    {
      && (LeftOf(t, y).Some? ==> LeftOf(t, y).value < |nodes|) && nodes[y].left == Ptr(LeftOf(t, y))
      && (RightOf(t, y).Some? ==> RightOf(t, y).value < |nodes|) && nodes[y].right == Ptr(RightOf(t, y))
      && (ParentOf(t, y).Some? ==> ParentOf(t, y).value < |nodes|) && nodes[y].parent == Ptr(ParentOf(t, y))
    }

    ghost predicate Loose(y: nat)
      requires y < |nodes|
      reads nodes`left, nodes`right, nodes`parent
    {
      nodes[y].left == null && nodes[y].right == null && nodes[y].parent == null
    }

    /** The pointers spell out the tree t, and all other tasks are loose. */
    ghost predicate Hangs(t: Tree)
      reads this`treeHead, nodes`left, nodes`right, nodes`parent
    {
      && Proper(t)
      && (forall y | y in Ids(t) :: y < |nodes|)
      && treeHead == Ptr(Root(t))
      && (forall y: nat {:trigger Hung(t, y)} | y in Ids(t) :: Hung(t, y))
      && (forall y: nat {:trigger Loose(y)} | y < |nodes| && y !in Ids(t) :: Loose(y))
    }

    /** The sort links of position i of the list lead to the positions beside it. */
    ghost predicate LinkedAt(order: seq<nat>, i: nat)
      requires InTable(order) && i < |order|
      reads nodes`sortNext, nodes`sortPrev
    {
      && nodes[order[i]].sortNext == (if i + 1 < |order| then nodes[order[i + 1]] else null)
      && nodes[order[i]].sortPrev == (if 0 < i then nodes[order[i - 1]] else null)
    }

    /** The sort links lead through the tasks of order, forwards and backwards. */
    ghost predicate Lists(order: seq<nat>)
      reads this`slistHead, nodes`sortNext, nodes`sortPrev
    {
      && InTable(order)
      && slistHead == (if order == [] then null else nodes[order[0]])
      && (forall i {:trigger LinkedAt(order, i)} | 0 <= i < |order| :: LinkedAt(order, i))
    }

    ghost predicate Sorted(order: seq<nat>)
      reads nodes`key
    {
      && InTable(order)
      && (forall i, j {:trigger nodes[order[i]].key, nodes[order[j]].key} | 0 <= i < j < |order| ::
            nodes[order[i]].key <= nodes[order[j]].key)
    }

    /** The first n tasks of the list have the dynamic priorities of r. */
    ghost predicate RanksTo(order: seq<nat>, r: seq<int>, n: nat)
      reads nodes`dynamicPrio
    {
      && InTable(order) && n <= |order| && n <= |r|
      && forall i {:trigger nodes[order[i]].dynamicPrio} | 0 <= i < n :: nodes[order[i]].dynamicPrio == r[i]
    }

    /** Along the list the dynamic priorities are r, rise strictly and lie in 1..31. */
    ghost predicate Ranked(order: seq<nat>, r: seq<int>)
      reads nodes`dynamicPrio
    {
      && |r| == |order| && RanksTo(order, r, |order|) && Ascending(r)
      && (r != [] ==> r[|r| - 1] < PRIORITY_NUM)
    }

    ghost predicate Flagged()
      reads this`shape, this`initQue, nodes`ready
    {
      && INIT_TASK_ID !in Ids(shape) && INIT_TASK_ID < |nodes|
      && (nodes[INIT_TASK_ID].ready <==> initQue)
      && (forall y: nat | y < |nodes| && y != INIT_TASK_ID :: nodes[y].ready <==> y in Ids(shape))
    }

    ghost function Order(): (r: seq<nat>)
      reads this`shape
    {
      Walk(shape)
    }

    ghost predicate Valid()
      reads this, nodes
    {
      && Table() && cur < |nodes|
      && Hangs(shape) && Lists(Order()) && Sorted(Order()) && Flagged() && Ranked(Order(), ranks)
    }

    /** An empty tree over tasks with the given keys. */
    constructor (keys: seq<int>)
      requires |keys| > 0
      ensures Valid() && Order() == [] && |nodes| == |keys| && !halted && fresh(nodes)
      ensures minPriority == -1 && tskNum == 0 && cur == INIT_TASK_ID && !initQue
      ensures forall y | 0 <= y < |keys| :: Fresh(nodes[y], y, keys[y])
    {
      var ns := MakeNodes(keys);
      nodes := ns;
      treeHead, slistHead, minPriority, tskNum, initQue, cur, halted := null, null, -1, 0, false, 0, false;
      shape, ranks := Leaf, [];
    }

    // ---- Descending ----------------------------------------------------------------------------

    ghost predicate KeysAtMost(s: seq<nat>, c: int)
      reads nodes`key
    {
      InTable(s) && forall i | 0 <= i < |s| :: nodes[s[i]].key <= c
    }

    ghost predicate KeysAtLeast(s: seq<nat>, c: int)
      reads nodes`key
    {
      InTable(s) && forall i | 0 <= i < |s| :: c <= nodes[s[i]].key
    }

    /** No task of s has the key c. */
    ghost predicate KeysDiffer(s: seq<nat>, c: int)
      reads nodes`key
    {
      InTable(s) && forall i {:trigger nodes[s[i]].key} | 0 <= i < |s| :: nodes[s[i]].key != c
    }

    /** Task p has the key c, and every other task with that key stands below it: of all such tasks it is
        the nearest to the root. */
    ghost predicate Topmost(t: Tree, p: nat, c: int)
      reads nodes`key
    {
      && p in Ids(t) && p < |nodes| && nodes[p].key == c
      && forall y {:trigger nodes[y].key} | y in Ids(t) && y < |nodes| && nodes[y].key == c :: y in Ids(Subtree(t, p))
    }

    /** Task p, on the given side of which a key c belongs: the walk up to there is at most c, the rest
        at least c, and no task has the key c unless p has, and is the one nearest to the root. */
    ghost predicate Fits(t: Tree, p: nat, side: Side, c: int)
      reads nodes`key
    {
      && p in Ids(t) && p < |nodes|
      && KeysAtMost(Before(t, p), c) && KeysAtLeast(After(t, p), c)
      && (side == ToLeft ==> LeftOf(t, p) == None && c < nodes[p].key)
      && (side == ToRight ==> nodes[p].key <= c && (RightOf(t, p) == None || nodes[p].key == c))
      && (nodes[p].key != c ==> KeysDiffer(Before(t, p), c) && KeysDiffer(After(t, p), c))
      && (nodes[p].key == c ==> Topmost(t, p, c))
    }

    /** A key c belongs into the subtree sub: the walk before it is less than c, behind it more. */
    ghost predicate Narrowed(sub: Tree, pre: seq<nat>, post: seq<nat>, c: int)
      reads this`shape, nodes`key
    {
      && Within(sub, shape) && sub.Branch? && sub.node < |nodes|
      && Walk(shape) == pre + Walk(sub) + post
      && KeysAtMost(pre, c) && KeysAtLeast(post, c)
      && KeysDiffer(pre, c) && KeysDiffer(post, c)
    }

    /** From the root down to the task below which a key belongs. */
    method Descend(c: int) returns (p: Node, side: Side)
      requires Table() && Hangs(shape) && Sorted(Order()) && shape.Branch?
      ensures p.id < |nodes| && p == nodes[p.id] && Fits(shape, p.id, side, c)
    {
      AtRoot(c);
      p := treeHead;
      ghost var sub, pre, post := shape, [], [];
      while true
        invariant Narrowed(sub, pre, post, c) && p == nodes[sub.node]
        decreases sub
      {
        Pointers(sub);
        SubtreeSplit(shape, sub, pre, post);
        SortedSplit(pre + Walk(sub.left), sub.node, Walk(sub.right) + post);
        if p.key > c {
          if p.left != null {
            GoLeft(sub, pre, post, c);
            p, sub, post := p.left, sub.left, [sub.node] + (Walk(sub.right) + post);
          } else {
            return p, ToLeft;
          }
        } else if p.key < c {
          if p.right != null {
            GoRight(sub, pre, post, c);
            p, sub, pre := p.right, sub.right, pre + Walk(sub.left) + [sub.node];
          } else {
            return p, ToRight;
          }
        } else {
          FoundEqual(sub, pre, post, c);
          return p, ToRight;
        }
      }
    }

    lemma FoundEqual(sub: Tree, pre: seq<nat>, post: seq<nat>, c: int)
      requires Hangs(shape) && Narrowed(sub, pre, post, c) && nodes[sub.node].key == c
      ensures Topmost(shape, sub.node, c)
    {
      WithinNeighbours(sub, shape);
      SubtreeUnique(sub, shape);
      WalkIds(shape);
      WalkIds(sub);
      forall y | y in Ids(shape) && y < |nodes| && nodes[y].key == c ensures y in Ids(sub) {
        assert y !in pre && y !in post;
        assert y in pre + Walk(sub) + post;
      }
    }

    lemma AtRoot(c: int)
      requires Hangs(shape) && shape.Branch?
      ensures shape.node < |nodes| && treeHead == nodes[shape.node] && Narrowed(shape, [], [], c)
    {
      assert shape.node in Ids(shape);
      assert Walk(shape) == [] + Walk(shape) + [];
    }

    lemma Pointers(sub: Tree)
      requires Hangs(shape) && Within(sub, shape) && sub.Branch?
      ensures sub.node in Ids(shape) && sub.node < |nodes|
      ensures sub.left.Branch? ==> sub.left.node < |nodes|
      ensures sub.right.Branch? ==> sub.right.node < |nodes|
      ensures nodes[sub.node].left == (if sub.left.Branch? then nodes[sub.left.node] else null)
      ensures nodes[sub.node].right == (if sub.right.Branch? then nodes[sub.right.node] else null)
      ensures LeftOf(shape, sub.node) == Root(sub.left) && RightOf(shape, sub.node) == Root(sub.right)
    {
      WithinNeighbours(sub, shape);
      assert Hung(shape, sub.node);
    }

    lemma GoLeft(sub: Tree, pre: seq<nat>, post: seq<nat>, c: int)
      requires Narrowed(sub, pre, post, c) && sub.left.Branch? && sub.left.node < |nodes|
      requires c < nodes[sub.node].key && KeysAtLeast(Walk(sub.right) + post, nodes[sub.node].key)
      ensures Narrowed(sub.left, pre, [sub.node] + (Walk(sub.right) + post), c)
    {
      WithinChildren(sub, shape);
      var rest := Walk(sub.right) + post;
      assert Walk(sub) == Walk(sub.left) + [sub.node] + Walk(sub.right);
      assert pre + Walk(sub) + post == pre + Walk(sub.left) + ([sub.node] + rest);
      assert forall i | 0 < i <= |rest| :: ([sub.node] + rest)[i] == rest[i - 1];
    }

    lemma GoRight(sub: Tree, pre: seq<nat>, post: seq<nat>, c: int)
      requires Narrowed(sub, pre, post, c) && sub.right.Branch? && sub.right.node < |nodes|
      requires nodes[sub.node].key < c && KeysAtMost(pre + Walk(sub.left), nodes[sub.node].key)
      ensures Narrowed(sub.right, pre + Walk(sub.left) + [sub.node], post, c)
    {
      WithinChildren(sub, shape);
      assert Walk(sub) == Walk(sub.left) + [sub.node] + Walk(sub.right);
      assert pre + Walk(sub) + post == (pre + Walk(sub.left) + [sub.node]) + Walk(sub.right) + post;
    }

    lemma SortedSplit(a: seq<nat>, p: nat, b: seq<nat>)
      requires Sorted(a + [p] + b)
      ensures p < |nodes| && KeysAtMost(a, nodes[p].key) && KeysAtLeast(b, nodes[p].key)
    {
      var w := a + [p] + b;
      assert w[|a|] == p;
      assert forall i | 0 <= i < |a| :: w[i] == a[i];
      assert forall i | 0 <= i < |b| :: w[|a| + 1 + i] == b[i];
    }

    // ---- Hanging in the current task -----------------------------------------------------------

    /** Make the current task the left child of p. */
    method HangLeft(p: Node)
      requires Table() && Hangs(shape) && cur < |nodes| && cur !in Ids(shape)
      requires p.id in Ids(shape) && p.id < |nodes| && p == nodes[p.id] && LeftOf(shape, p.id) == None
      modifies this`shape, this`tskNum, nodes`left, nodes`right, nodes`parent
      ensures shape == PutLeft(old(shape), p.id, cur) && Hangs(shape) && tskNum == old(tskNum) + 1
      ensures nodes[cur].parent == p && p.left == nodes[cur]
    {
      assert Hung(shape, p.id) && Loose(cur);
      ghost var t, t' := shape, PutLeft(shape, p.id, cur);
      PutLeftIds(t, p.id, cur);
      p.left := nodes[cur];
      tskNum := tskNum + 1;
      nodes[cur].parent := p;
      shape := t';
      forall y: nat | y in Ids(t') ensures Hung(t', y) {
        PutLeftNeighbours(t, p.id, cur, y);
        assert y == cur || old(Hung(t, y));
      }
      forall y: nat | y < |nodes| && y !in Ids(t') ensures Loose(y) { assert old(Loose(y)); }
    }

    /** The pointer x is null or leads to a task in the table. */
    ghost predicate Known(x: Node?) {
      x != null ==> x.id < |nodes| && x == nodes[x.id]
    }

    /** The pointer x leads to task y. */
    ghost predicate IsTask(x: Node?, y: nat) {
      x != null && x.id == y
    }

    /** A write through a null pointer is skipped. */
    method SetParent(x: Node?, p: Node?)
      requires Table() && Known(x)
      modifies nodes`parent
      ensures forall y: nat | y < |nodes| :: nodes[y].parent == if IsTask(x, y) then p else old(nodes[y].parent)
    {
      if x != null { x.parent := p; }
    }

    /** The pointer writes that put the current task between p and its right child. */
    method Splice(p: Node)
      requires Table() && cur < |nodes| && p.id < |nodes| && p == nodes[p.id] && p.id != cur
      requires Known(p.right) && !IsTask(p.right, cur)
      modifies nodes`right, nodes`parent
      ensures forall y: nat | y < |nodes| :: nodes[y].right ==
                if y == p.id then nodes[cur] else if y == cur then old(p.right) else old(nodes[y].right)
      ensures forall y: nat | y < |nodes| :: nodes[y].parent ==
                if y == cur then p else if IsTask(old(p.right), y) then nodes[cur] else old(nodes[y].parent)
    {
      var c := nodes[cur];
      c.right := p.right;
      SetParent(p.right, c);
      p.right := c;
      c.parent := p;
    }

    /** Make the current task the right child of p; it takes over the right child that p had. */
    method HangRight(p: Node)
      requires Table() && Hangs(shape) && cur < |nodes| && cur !in Ids(shape)
      requires p.id in Ids(shape) && p.id < |nodes| && p == nodes[p.id]
      modifies this`shape, this`tskNum, nodes`right, nodes`parent
      ensures shape == PutRight(old(shape), p.id, cur) && Hangs(shape) && tskNum == old(tskNum) + 1
      ensures nodes[cur].parent == p
    {
      PutRightGrows(shape, p.id, cur);
      SpliceAs(p, PutRight(shape, p.id, cur));
    }

    /** The links of every node after the splice are those of t'. */
    method SpliceNodes(p: Node, ghost t': Tree)
      requires Table() && Hangs(shape) && cur < |nodes| && cur !in Ids(shape)
      requires p.id in Ids(shape) && p.id < |nodes| && p == nodes[p.id] && GrewRight(shape, p.id, cur, t')
      modifies nodes`right, nodes`parent
      ensures forall y: nat {:trigger Hung(t', y)} | y in Ids(t') :: y < |nodes| && Hung(t', y)
      ensures forall y: nat {:trigger Loose(y)} | y < |nodes| && y !in Ids(t') :: Loose(y)
      ensures nodes[cur].parent == p
    {
      ghost var t := shape;
      Neighbours(t, p.id);
      assert Hung(t, p.id) && Loose(cur);
      Splice(p);
      forall y: nat | y in Ids(t') && y != cur ensures Hung(t', y) { assert old(Hung(t, y)); }
      assert Hung(t', cur);
      forall y: nat | y < |nodes| && y !in Ids(t') ensures Loose(y) {
        assert old(Loose(y)) && y != p.id && y != cur && !IsTask(old(p.right), y);
      }
    }

    method SpliceAs(p: Node, ghost t': Tree)
      requires Table() && Hangs(shape) && cur < |nodes| && cur !in Ids(shape)
      requires p.id in Ids(shape) && p.id < |nodes| && p == nodes[p.id] && GrewRight(shape, p.id, cur, t')
      modifies this`shape, this`tskNum, nodes`right, nodes`parent
      ensures shape == t' && Hangs(shape) && tskNum == old(tskNum) + 1
      ensures nodes[cur].parent == p
    {
      SpliceNodes(p, t');
      tskNum := tskNum + 1;
      shape := t';
    }

    // ---- The sorted list -----------------------------------------------------------------------

    /** put_sortlist for a left child: the task comes just before its parent p. */
    method LinkBefore(p: Node, ghost a: seq<nat>, ghost b: seq<nat>)
      requires Table() && cur < |nodes| && p.id < |nodes| && p == nodes[p.id]
      requires Lists(a + [p.id] + b) && NoDup(a + [cur, p.id] + b)
      modifies this`slistHead, nodes`sortNext, nodes`sortPrev
      ensures Lists(a + [cur, p.id] + b)
    {
      ghost var s, s', rest := a + [p.id] + b, a + [cur, p.id] + b, [p.id] + b;
      assert s == a + rest && s' == a + [cur] + rest;
      assert s[|a|] == p.id && LinkedAt(s, |a|);
      assert s'[|a| + 1] == p.id && (a != [] ==> s'[0] == a[0]);
      HeadOf(a, p.id, b);
      LinkIn(p.sortPrev, p, slistHead == p, a, rest);
    }

    /** put_sortlist for a right child: the task comes just after its parent p. */
    method LinkAfter(p: Node, ghost a: seq<nat>, ghost b: seq<nat>)
      requires Table() && cur < |nodes| && p.id < |nodes| && p == nodes[p.id]
      requires Lists(a + [p.id] + b) && NoDup(a + [p.id, cur] + b)
      modifies this`slistHead, nodes`sortNext, nodes`sortPrev
      ensures Lists(a + [p.id, cur] + b)
    {
      ghost var s, s', front := a + [p.id] + b, a + [p.id, cur] + b, a + [p.id];
      assert s == front + b && s' == front + [cur] + b;
      assert s[|a|] == p.id && LinkedAt(s, |a|);
      LinkIn(p, p.sortNext, false, front, b);
    }

    lemma HeadOf(a: seq<nat>, p: nat, b: seq<nat>)
      requires Table() && Lists(a + [p] + b) && (a != [] ==> a[0] != p)
      ensures p < |nodes| && (slistHead == nodes[p] <==> a == [])
    {
      var s := a + [p] + b;
      assert s[|a|] == p && (a != [] ==> s[0] == a[0]);
    }

    /** The link writes that put the current task between u and w, in front of the list or not. */
    method Join(u: Node?, w: Node?, front: bool)
      requires Table() && cur < |nodes| && Known(w) && (!front ==> u != null && Known(u) && !IsTask(u, cur))
      modifies this`slistHead, nodes`sortNext, nodes`sortPrev
      ensures slistHead == if front then nodes[cur] else old(slistHead)
      ensures forall y: nat | y < |nodes| :: nodes[y].sortNext ==
                if y == cur then w else if !front && IsTask(u, y) then nodes[cur] else old(nodes[y].sortNext)
      ensures forall y: nat | y < |nodes| :: nodes[y].sortPrev ==
                if IsTask(w, y) then nodes[cur] else if y == cur then u else old(nodes[y].sortPrev)
    {
      var c := nodes[cur];
      c.sortNext := w;
      c.sortPrev := u;
      if front { slistHead := c; } else { u.sortNext := c; }
      if w != null { w.sortPrev := c; }
    }

    /** The current task goes between its neighbours u and w, null at the ends of the list. */
    method LinkIn(u: Node?, w: Node?, front: bool, ghost a: seq<nat>, ghost b: seq<nat>)
      requires Table() && cur < |nodes| && a + b != [] && Lists(a + b) && NoDup(a + [cur] + b)
      requires front <==> a == []
      requires if a == [] then u == null else a[|a| - 1] < |nodes| && u == nodes[a[|a| - 1]]
      requires if b == [] then w == null else b[0] < |nodes| && w == nodes[b[0]]
      modifies this`slistHead, nodes`sortNext, nodes`sortPrev
      ensures Lists(a + [cur] + b)
    {
      ghost var s, s', n := a + b, a + [cur] + b, |a|;
      Spread(s, s', n);
      assert s'[n] == cur && (n > 0 ==> s'[n - 1] == s[n - 1] == a[n - 1]);
      assert b != [] ==> s'[n + 1] == s[n] == b[0];
      Join(u, w, front);
      forall i | 0 <= i < |s'| ensures LinkedAt(s', i) {
        assert i != n ==> s'[i] != cur;
        assert i != n - 1 ==> !IsTask(u, s'[i]);
        assert i != n + 1 ==> !IsTask(w, s'[i]);
        if i < n {
          assert old(LinkedAt(s, i));
        } else if i > n {
          assert old(LinkedAt(s, i - 1));
        }
      }
    }

    /** s' is s with one task more, at position k. */
    lemma Spread(s: seq<nat>, s': seq<nat>, k: nat)
      requires |s'| == |s| + 1 && k <= |s| && s'[..k] == s[..k] && s'[k + 1..] == s[k..]
      ensures forall i | 0 <= i < k :: s'[i] == s[i]
      ensures forall i | k < i < |s'| :: s'[i] == s[i - 1]
    {
      assert forall i | 0 <= i < k :: s'[i] == s'[..k][i] == s[..k][i];
      assert forall i | k < i < |s'| :: s'[i] == s'[k + 1..][i - k - 1] == s[k..][i - k - 1];
    }

    /** The list of n tasks was ranked anew after the current task went in behind tasks with the ranks r;
        the kernel halts if and only if the last task would get a priority past the last one. */
    ghost predicate Reranked(n: nat, r: seq<int>, exhausted: bool)
      requires |r| < n
      reads this`minPriority, this`halted, this`ranks
    {
      var s := Renumbered(r, n, exhausted);
      && (halted <==> s[n - 1] >= PRIORITY_NUM)
      && (!halted ==> ranks == s && minPriority == s[n - 1] + 1)
    }

    /** adjust_priority_btree: rank the list anew from the current task on, or from its head when the
        priorities have run out. */
    method AdjustPriority(ghost order: seq<nat>, ghost at: nat)
      requires Table() && Lists(order) && NoDup(order) && at < |order| && order[at] == cur && !halted
      requires at <= |ranks| && RanksTo(order, ranks[..at], at) && Ascending(ranks)
      modifies this`minPriority, this`halted, this`ranks, nodes`dynamicPrio
      ensures Reranked(|order|, old(ranks)[..at], Exhausted(old(minPriority), tskNum))
      ensures !halted ==> Ranked(order, ranks)
    {
      ghost var s := Renumbered(ranks[..at], |order|, Exhausted(minPriority, tskNum));
      RenumberedAscends(ranks[..at], |order|, Exhausted(minPriority, tskNum));
      RankAnew(order, at, ranks[..at], s);
      if !halted { ranks := s; }
    }

    method RankAnew(ghost order: seq<nat>, ghost at: nat, ghost r: seq<int>, ghost s: seq<int>)
      requires Table() && Lists(order) && NoDup(order) && at == |r| < |order| && order[at] == cur && !halted
      requires RanksTo(order, r, at) && s == Renumbered(r, |order|, Exhausted(minPriority, tskNum))
      modifies this`minPriority, this`halted, nodes`dynamicPrio
      ensures halted <==> s[|order| - 1] >= PRIORITY_NUM
      ensures !halted ==> RanksTo(order, s, |order|) && minPriority == s[|order| - 1] + 1
    {
      assert LinkedAt(order, at);
      var tmp, priority := RankStart();
      priority := RankFrom(order, if Exhausted(minPriority, tskNum) then 0 else at, tmp, priority, s, {});
      minPriority := priority;
    }

    /** Where the ranking starts, and with which priority: at the head when they have run out. */
    method RankStart() returns (tmp: Node?, priority: int)
      requires cur < |nodes|
      ensures tmp == if Exhausted(minPriority, tskNum) then slistHead else nodes[cur]
      ensures var u := nodes[cur].sortPrev;
              priority == if !Exhausted(minPriority, tskNum) && u != null then u.dynamicPrio + 1 else 1
    {
      if minPriority == PRIORITY_NUM / 2 && tskNum != PRIORITY_NUM / 2 {
        return slistHead, 1;
      }
      tmp := nodes[cur];
      if tmp.sortPrev != null {
        priority := tmp.sortPrev.dynamicPrio + 1;
      } else {
        priority := 1;
      }
    }

    /** The sort links lead from the nodes of c to nodes of c, and to no end. */
    ghost predicate Endless(c: set<Node>)
      reads nodes`sortNext
    {
      forall x | x in c :: x in nodes && x.sortNext != null && x.sortNext in c
    }

    /** Rank the list from position at on; or else from a node of the circle c, to which there is no end
        but the halt. */
    method RankFrom(ghost order: seq<nat>, ghost at: nat, from: Node?, first: int, ghost s: seq<int>,
                    ghost c: set<Node>)
      returns (priority: int)
      requires Table() && !halted && Endless(c)
      requires c != {} ==> from in c
      requires c == {} ==> Lists(order) && NoDup(order) && at < |order| == |s| && from == nodes[order[at]]
      requires c == {} ==> RanksTo(order, s, at) && forall i | at <= i < |s| :: s[i] == first + (i - at)
      modifies this`halted, nodes`dynamicPrio
      ensures c != {} ==> halted
      ensures c == {} ==> (halted <==> s[|s| - 1] >= PRIORITY_NUM)
      ensures c == {} && !halted ==> RanksTo(order, s, |order|) && priority == s[|s| - 1] + 1
    {
      var tmp := from;
      priority := first;
      ghost var k := at;
      while tmp != null
        invariant !halted && k >= at && priority == first + (k - at)
        invariant c != {} ==> tmp in c
        invariant c == {} ==> k <= |order| && RanksTo(order, s, k)
        invariant c == {} ==> tmp == (if k < |order| then nodes[order[k]] else null)
        invariant c == {} && k > at ==> s[k - 1] < PRIORITY_NUM
        decreases PRIORITY_NUM - priority
      {
        if PRIORITY_NUM <= priority {
          assert c == {} ==> s[k] <= s[|s| - 1];
          halted := true;
          return;
        }
        RankOne(order, k, tmp, priority, s, c);
        assert c == {} ==> LinkedAt(order, k);
        tmp, priority, k := tmp.sortNext, priority + 1, k + 1;
      }
    }

    method RankOne(ghost order: seq<nat>, ghost k: nat, x: Node, priority: int, ghost s: seq<int>,
                   ghost c: set<Node>)
      requires Table()
      requires c == {} ==> NoDup(order) && k < |order| == |s| && RanksTo(order, s, k)
      requires c == {} ==> x == nodes[order[k]] && priority == s[k]
      modifies x`dynamicPrio
      ensures c == {} ==> RanksTo(order, s, k + 1)
    {
      x.dynamicPrio := priority;
      assert c == {} ==> forall i | 0 <= i < k :: nodes[order[i]] != x;
    }

    // ---- put_current_btree ---------------------------------------------------------------------

    /** The list with task x at position i. */
    function Inserted(order: seq<nat>, i: nat, x: nat): (r: seq<nat>)
      requires i <= |order|
    {
      order[..i] + [x] + order[i..]
    }

    /** The current task was hung into the tree t on the given side of p, where its key belongs, and taken
        into the list there; and the list, whose ranks had been r, was ranked anew.  m and n are min_priority
        and tsk_num before. */
    ghost predicate TakenIn(t: Tree, r: seq<int>, m: int, n: int, p: nat, side: Side)
      reads this`shape, this`cur, this`minPriority, this`tskNum, this`halted, this`ranks, nodes`key
    {
      var order, i := Walk(t), Position(t, p, side);
      && InTable(order) && i <= |order| == |r| && cur < |nodes|
      && Fits(t, p, side, nodes[cur].key) && shape == PutAt(t, p, side, cur)
      && Order() == Inserted(order, i, cur) && Sorted(Order())
      && tskNum == n + 1
      && Reranked(|order| + 1, r[..i], Exhausted(m, n + 1))
    }

    ghost predicate Grown(t: Tree, r: seq<int>, m: int, n: int)
      reads this`shape, this`cur, this`minPriority, this`tskNum, this`halted, this`ranks, nodes`key
    {
      exists p: nat, side :: TakenIn(t, r, m, n, p, side)
    }

    ghost predicate Clear(x: nat)
      requires x < |nodes|
      reads nodes`sortNext, nodes`sortPrev
    {
      nodes[x].sortNext == null && nodes[x].sortPrev == null
    }

    /** The tree is that of task x alone, and so is the head of the list. */
    ghost predicate Rooted(x: nat)
      reads this, nodes
    {
      && Table() && cur < |nodes| && x < |nodes| && Hangs(shape) && Flagged()
      && shape == Branch(Leaf, x, Leaf) && slistHead == nodes[x]
    }

    /** The current task is to be put into an empty tree, with sort links left over from earlier. */
    ghost predicate Stale()
      requires cur < |nodes|
      reads this`shape, this`cur, nodes`ready, nodes`sortNext, nodes`sortPrev
    {
      shape == Leaf && cur != INIT_TASK_ID && !nodes[cur].ready && !Clear(cur)
    }

    /** Put the current task into the tree and the list: in sorted position, with the ranks of the list
        renewed, or else the kernel halts.  Tree and list agree after it if and only if the task had no
        stale links in front of an empty tree. */
    method PutCurrent()
      requires Valid() && !halted
      modifies this`treeHead, this`slistHead, this`minPriority, this`tskNum, this`initQue, this`halted
      modifies this`ranks, this`shape
      modifies nodes`ready, nodes`dynamicPrio, nodes`left, nodes`right, nodes`parent, nodes`sortNext, nodes`sortPrev
      ensures !halted ==> (Valid() <==> !old(Stale()))
      ensures nodes[cur].ready && initQue == (old(initQue) || cur == INIT_TASK_ID)
      ensures Ids(shape) ==
              if old(nodes[cur].ready) || cur == INIT_TASK_ID then old(Ids(shape)) else old(Ids(shape)) + {cur}
      ensures old(nodes[cur].ready) || cur == INIT_TASK_ID ==>
                !halted && shape == old(shape) && Numbers() == old(Numbers()) && ranks == old(ranks)
      ensures !old(nodes[cur].ready) && cur != INIT_TASK_ID && old(shape) == Leaf ==>
                !halted && Order() == [cur] && ranks == [1] && Numbers() == old(Numbers())
      ensures !old(nodes[cur].ready) && cur != INIT_TASK_ID && old(shape) != Leaf ==>
                Grown(old(shape), old(ranks), old(minPriority), old(tskNum))
    {
      hide TakenIn, Hangs, Lists, Sorted, Ranked;
      var c := nodes[cur];
      if c.ready {
      } else if cur == INIT_TASK_ID {
        PutInit();
      } else {
        PutReady();
      }
    }

    /** The same for a task other than the init task that is not ready. */
    method PutReady()
      requires Valid() && !halted && !nodes[cur].ready && cur != INIT_TASK_ID
      modifies this`treeHead, this`slistHead, this`minPriority, this`tskNum, this`halted, this`ranks, this`shape
      modifies nodes`ready, nodes`dynamicPrio, nodes`left, nodes`right, nodes`parent, nodes`sortNext, nodes`sortPrev
      ensures !halted ==> (Valid() <==> !old(Stale()))
      ensures nodes[cur].ready && Ids(shape) == old(Ids(shape)) + {cur}
      ensures old(shape) == Leaf ==>
                !halted && Order() == [cur] && ranks == [1] && Numbers() == old(Numbers())
      ensures old(shape) == Leaf ==> Rooted(cur) && nodes[cur].sortNext == old(nodes[cur].sortNext)
      ensures old(shape) != Leaf ==> Grown(old(shape), old(ranks), old(minPriority), old(tskNum))
    {
      if treeHead == null {
        PutRoot();
      } else {
        var p, side := Descend(nodes[cur].key);
        if side == ToLeft { PutBefore(p); } else { PutAfter(p); }
      }
    }

    /** min_priority and tsk_num. */
    ghost function Numbers(): (r: (int, int))
      reads this`minPriority, this`tskNum
    {
      (minPriority, tskNum)
    }

    method PutInit()
      requires Valid() && cur == INIT_TASK_ID
      modifies this`initQue, nodes`ready
      ensures Valid() && nodes[cur].ready && initQue
    {
      initQue := true;
      nodes[cur].ready := true;
    }

    method PutRoot()
      requires Valid() && !halted && !nodes[cur].ready && cur != INIT_TASK_ID && treeHead == null
      modifies this`treeHead, this`slistHead, this`shape, this`ranks, nodes`ready, nodes`dynamicPrio
      ensures (Valid() <==> Clear(cur)) && Rooted(cur) && Order() == [cur] && ranks == [1]
      ensures nodes[cur].ready && Ids(shape) == {cur}
    {
      assert Loose(cur);
      nodes[cur].dynamicPrio := 1;
      treeHead, slistHead := nodes[cur], nodes[cur];
      nodes[cur].ready := true;
      shape, ranks := Branch(Leaf, cur, Leaf), [1];
      assert Hung(shape, cur);
      assert LinkedAt(Order(), 0) <==> Clear(cur);
      forall y: nat | y < |nodes| && y != cur ensures Loose(y) { assert old(Loose(y)); }
    }

    /** The current task goes between a and b: the list stays sorted, and its ranks hold up to there. */
    lemma InsertFits(a: seq<nat>, b: seq<nat>)
      requires cur < |nodes| && Sorted(a + b) && RanksTo(a + b, ranks, |a + b|)
      requires KeysAtMost(a, nodes[cur].key) && KeysAtLeast(b, nodes[cur].key)
      ensures Sorted(a + [cur] + b) && RanksTo(a + [cur] + b, ranks[..|a|], |a|)
    {
      var s, s' := a + b, a + [cur] + b;
      assert forall i | 0 <= i < |a| :: s'[i] == s[i] == a[i];
      assert forall i | |a| < i < |s'| :: s'[i] == s[i - 1] == b[i - |a| - 1];
    }

    /** The tree and the list take the current task in just before p. */
    method GrowLeft(p: Node, ghost a: seq<nat>, ghost b: seq<nat>)
      requires Table() && cur < |nodes| && cur != INIT_TASK_ID && cur !in Ids(shape) && Hangs(shape) && Flagged()
      requires p.id in Ids(shape) && p.id < |nodes| && p == nodes[p.id] && LeftOf(shape, p.id) == None
      requires Lists(a + [p.id] + b) && NoDup(a + [cur, p.id] + b)
      modifies this`slistHead, this`tskNum, this`shape
      modifies nodes`ready, nodes`left, nodes`right, nodes`parent, nodes`sortNext, nodes`sortPrev
      ensures shape == PutLeft(old(shape), p.id, cur) && Hangs(shape) && Flagged() && tskNum == old(tskNum) + 1
      ensures Ids(shape) == old(Ids(shape)) + {cur}
      ensures Lists(a + [cur, p.id] + b) && nodes[cur].ready
    {
      PutLeftIds(shape, p.id, cur);
      HangLeft(p);
      nodes[cur].ready := true;
      LinkBefore(p, a, b);
    }

    /** The tree and the list take the current task in just after p. */
    method GrowRight(p: Node, ghost a: seq<nat>, ghost b: seq<nat>)
      requires Table() && cur < |nodes| && cur != INIT_TASK_ID && cur !in Ids(shape) && Hangs(shape) && Flagged()
      requires p.id in Ids(shape) && p.id < |nodes| && p == nodes[p.id]
      requires Lists(a + [p.id] + b) && NoDup(a + [p.id, cur] + b)
      modifies this`slistHead, this`tskNum, this`shape
      modifies nodes`ready, nodes`left, nodes`right, nodes`parent, nodes`sortNext, nodes`sortPrev
      ensures shape == PutRight(old(shape), p.id, cur) && Hangs(shape) && Flagged() && tskNum == old(tskNum) + 1
      ensures Ids(shape) == old(Ids(shape)) + {cur}
      ensures Lists(a + [p.id, cur] + b) && nodes[cur].ready
    {
      PutRightIds(shape, p.id, cur);
      HangRight(p);
      nodes[cur].ready := true;
      LinkAfter(p, a, b);
    }

    /** The walk of the grown tree has the current task between a and b, where it fits. */
    ghost predicate Between(t: Tree, a: seq<nat>, b: seq<nat>)
      reads this`shape, this`cur, this`ranks, nodes`key, nodes`dynamicPrio
    {
      && Order() == a + b && Walk(t) == a + [cur] + b && NoDup(Walk(t))
      && Sorted(Walk(t)) && |a| <= |ranks| && RanksTo(Walk(t), ranks[..|a|], |a|)
    }

    lemma LeftBetween(p: nat, t: Tree)
      requires Valid() && cur !in Ids(shape) && Fits(shape, p, ToLeft, nodes[cur].key) && t == PutLeft(shape, p, cur)
      ensures var a, b := Before(shape, p), After(shape, p);
              Between(t, a, [p] + b) && Walk(t) == a + [cur, p] + b && Order() == a + [p] + b
      ensures GrownAt(shape, p, ToLeft)
    {
      var a, b := Before(shape, p), After(shape, p);
      WalkSplit(shape, p);
      PutLeftIds(shape, p, cur);
      PutLeftWalk(shape, p, cur);
      WalkNoDup(t);
      Regroup(a, cur, p, b);
      AtLeastFrom(p, b, nodes[cur].key);
      InsertFits(a, [p] + b);
    }

    lemma Regroup(a: seq<nat>, x: nat, p: nat, b: seq<nat>)
      ensures a + [x, p] + b == a + [x] + ([p] + b) && a + [p] + b == a + ([p] + b)
    {
    }

    lemma AtLeastFrom(p: nat, b: seq<nat>, c: int)
      requires p < |nodes| && c <= nodes[p].key && KeysAtLeast(b, c)
      ensures KeysAtLeast([p] + b, c)
    {
    }

    lemma RightBetween(p: nat, t: Tree)
      requires Valid() && cur !in Ids(shape) && Fits(shape, p, ToRight, nodes[cur].key) && t == PutRight(shape, p, cur)
      ensures var a, b := Before(shape, p), After(shape, p);
              Between(t, a + [p], b) && Walk(t) == a + [p, cur] + b && Order() == a + [p] + b
      ensures GrownAt(shape, p, ToRight)
    {
      var a, b := Before(shape, p), After(shape, p);
      WalkSplit(shape, p);
      PutRightIds(shape, p, cur);
      PutRightWalk(shape, p, cur);
      WalkNoDup(t);
      RegroupAfter(a, p, cur, b);
      AtMostTo(a, p, nodes[cur].key);
      InsertFits(a + [p], b);
    }

    lemma RegroupAfter(a: seq<nat>, p: nat, x: nat, b: seq<nat>)
      ensures a + [p, x] + b == (a + [p]) + [x] + b
    {
    }

    lemma AtMostTo(a: seq<nat>, p: nat, c: int)
      requires p < |nodes| && nodes[p].key <= c && KeysAtMost(a, c)
      ensures KeysAtMost(a + [p], c)
    {
    }

    method PutBefore(p: Node)
      requires Valid() && !halted && cur !in Ids(shape) && cur != INIT_TASK_ID
      requires p.id < |nodes| && p == nodes[p.id] && Fits(shape, p.id, ToLeft, nodes[cur].key)
      modifies this`slistHead, this`minPriority, this`tskNum, this`halted, this`ranks, this`shape
      modifies nodes`ready, nodes`dynamicPrio, nodes`left, nodes`right, nodes`parent, nodes`sortNext, nodes`sortPrev
      ensures !halted ==> Valid()
      ensures Grown(old(shape), old(ranks), old(minPriority), old(tskNum))
      ensures nodes[cur].ready && Ids(shape) == old(Ids(shape)) + {cur}
    {
      hide TakenIn, Hangs, Lists, Flagged, Sorted, Proper;
      LeftBetween(p.id, PutLeft(shape, p.id, cur));
      PutBeforeAs(p, Before(shape, p.id), After(shape, p.id), PutLeft(shape, p.id, cur));
    }

    method PutBeforeAs(p: Node, ghost a: seq<nat>, ghost b: seq<nat>, ghost t: Tree)
      requires Valid() && !halted && cur !in Ids(shape) && cur != INIT_TASK_ID
      requires p.id < |nodes| && p == nodes[p.id] && t == PutLeft(shape, p.id, cur) && Between(t, a, [p.id] + b)
      requires Walk(t) == a + [cur, p.id] + b && Order() == a + [p.id] + b
      requires Fits(shape, p.id, ToLeft, nodes[cur].key) && GrownAt(shape, p.id, ToLeft)
      requires p.id in Ids(shape) && LeftOf(shape, p.id) == None
      requires a == Before(shape, p.id)
      modifies this`slistHead, this`minPriority, this`tskNum, this`halted, this`ranks, this`shape
      modifies nodes`ready, nodes`dynamicPrio, nodes`left, nodes`right, nodes`parent, nodes`sortNext, nodes`sortPrev
      ensures !halted ==> Valid()
      ensures TakenIn(old(shape), old(ranks), old(minPriority), old(tskNum), p.id, ToLeft)
      ensures shape == t && nodes[cur].ready && Ids(shape) == old(Ids(shape)) + {cur}
    {
      hide Hangs, Lists, Flagged, Sorted, Proper, RanksTo, Fits, Reranked, GrownAt, TakenIn;
      ghost var t0, r, m, n := shape, ranks, minPriority, tskNum;
      GrowLeft(p, a, b);
      Renew(|a|);
      Assemble(t0, r, m, n, p.id, ToLeft);
    }

    method PutAfter(p: Node)
      requires Valid() && !halted && cur !in Ids(shape) && cur != INIT_TASK_ID
      requires p.id < |nodes| && p == nodes[p.id] && Fits(shape, p.id, ToRight, nodes[cur].key)
      modifies this`slistHead, this`minPriority, this`tskNum, this`halted, this`ranks, this`shape
      modifies nodes`ready, nodes`dynamicPrio, nodes`left, nodes`right, nodes`parent, nodes`sortNext, nodes`sortPrev
      ensures !halted ==> Valid()
      ensures Grown(old(shape), old(ranks), old(minPriority), old(tskNum))
      ensures nodes[cur].ready && Ids(shape) == old(Ids(shape)) + {cur}
    {
      hide TakenIn, Hangs, Lists, Flagged, Sorted, Proper;
      RightBetween(p.id, PutRight(shape, p.id, cur));
      PutAfterAs(p, Before(shape, p.id), After(shape, p.id), PutRight(shape, p.id, cur));
    }

    method PutAfterAs(p: Node, ghost a: seq<nat>, ghost b: seq<nat>, ghost t: Tree)
      requires Valid() && !halted && cur !in Ids(shape) && cur != INIT_TASK_ID
      requires p.id < |nodes| && p == nodes[p.id] && t == PutRight(shape, p.id, cur) && Between(t, a + [p.id], b)
      requires Walk(t) == a + [p.id, cur] + b && Order() == a + [p.id] + b
      requires Fits(shape, p.id, ToRight, nodes[cur].key) && GrownAt(shape, p.id, ToRight) && p.id in Ids(shape)
      requires a == Before(shape, p.id)
      modifies this`slistHead, this`minPriority, this`tskNum, this`halted, this`ranks, this`shape
      modifies nodes`ready, nodes`dynamicPrio, nodes`left, nodes`right, nodes`parent, nodes`sortNext, nodes`sortPrev
      ensures !halted ==> Valid()
      ensures TakenIn(old(shape), old(ranks), old(minPriority), old(tskNum), p.id, ToRight)
      ensures shape == t && nodes[cur].ready && Ids(shape) == old(Ids(shape)) + {cur}
    {
      hide Hangs, Lists, Flagged, Sorted, Proper, RanksTo, Fits, Reranked, GrownAt, TakenIn;
      ghost var t0, r, m, n := shape, ranks, minPriority, tskNum;
      GrowRight(p, a, b);
      Renew(|a| + 1);
      Assemble(t0, r, m, n, p.id, ToRight);
    }

    /** The walk of the tree t with the current task on the given side of p has that task at its position
        more than the walk of t. */
    ghost predicate GrownAt(t: Tree, p: nat, side: Side)
      reads this`cur
    {
      var order, i, s := Walk(t), Position(t, p, side), Walk(PutAt(t, p, side, cur));
      && InTable(order) && i <= |order| && cur < |nodes| && InTable(s) && s == Inserted(order, i, cur)
      && s[..i] == order[..i]
    }

    /** Renew the ranks of the list after the current task went in at position at. */
    method Renew(ghost at: nat)
      requires Table() && Hangs(shape) && Flagged() && !halted && at < |Order()| && Order()[at] == cur
      requires Lists(Order()) && NoDup(Order()) && Sorted(Order())
      requires at <= |ranks| < |Order()| && Ascending(ranks) && RanksTo(Order(), ranks[..at], at)
      modifies this`minPriority, this`halted, this`ranks, nodes`dynamicPrio
      ensures !halted ==> Valid()
      ensures Reranked(|Order()|, old(ranks)[..at], Exhausted(old(minPriority), tskNum))
    {
      hide Hangs, Lists, Flagged, Sorted, Ranked, Reranked;
      AdjustPriority(Order(), at);
    }

    lemma Assemble(t: Tree, r: seq<int>, m: int, n: int, p: nat, side: Side)
      requires GrownAt(t, p, side) && shape == PutAt(t, p, side, cur) && Fits(t, p, side, nodes[cur].key)
      requires Sorted(Order()) && tskNum == n + 1 && |r| == |Walk(t)|
      requires Reranked(|Walk(t)| + 1, r[..Position(t, p, side)], Exhausted(m, n + 1))
      ensures TakenIn(t, r, m, n, p, side)
    {
    }

    // ---- get_tskcurrent_btree ------------------------------------------------------------------

    /** Let the pointer that leads to x, from the head or from its parent, lead to h instead. */
    method Replace(x: Node, h: Node?)
      requires Table() && (x == treeHead || x.parent != null) && Known(x.parent)
      modifies this`treeHead, nodes`left, nodes`right
      ensures treeHead == if old(treeHead) == x then h else old(treeHead)
      ensures forall y: nat | y < |nodes| :: nodes[y].left ==
                if old(treeHead) != x && IsTask(x.parent, y) && old(nodes[y].left) == x then h else old(nodes[y].left)
      ensures forall y: nat | y < |nodes| :: nodes[y].right ==
                if old(treeHead) != x && IsTask(x.parent, y) && old(nodes[y].left) != x then h else old(nodes[y].right)
    {
      if x == treeHead {
        treeHead := h;
      } else if x.parent.left == x {
        x.parent.left := h;
      } else {
        x.parent.right := h;
      }
    }

    /** Take out task x, which has at most one child. */
    method CutOneChild(x: nat, ghost t': Tree)
      requires Table() && Hangs(shape) && x < |nodes| && x in Ids(shape) && Shrunk(shape, x, t')
      requires LeftOf(shape, x) == None || RightOf(shape, x) == None
      modifies this`treeHead, this`shape, nodes`left, nodes`right, nodes`parent
      ensures shape == t' && Hangs(shape)
    {
      ghost var t := shape;
      Neighbours(t, x);
      assert Hung(t, x);
      Bypass(nodes[x], if nodes[x].left != null then nodes[x].left else nodes[x].right);
      shape := t';
      assert treeHead == Ptr(Root(t'));
      forall y: nat | y in Ids(t') ensures Hung(t', y) {
        assert old(Hung(t, y));
      }
      forall y: nat | y < |nodes| && y !in Ids(t') ensures Loose(y) { assert y == x || old(Loose(y)); }
    }

    /** The pointer writes that put h, the child of x if any, in the place of x. */
    method Bypass(x: Node, h: Node?)
      requires Table() && x.id < |nodes| && x == nodes[x.id] && (x == treeHead || x.parent != null)
      requires Known(x.parent) && !IsTask(x.parent, x.id) && Known(h) && !IsTask(h, x.id)
      modifies this`treeHead, nodes`left, nodes`right, nodes`parent
      ensures treeHead == if old(treeHead) == x then h else old(treeHead)
      ensures forall y: nat | y < |nodes| && y != x.id :: nodes[y].left ==
                if old(treeHead) != x && IsTask(old(x.parent), y) && old(nodes[y].left) == x then h
                else old(nodes[y].left)
      ensures forall y: nat | y < |nodes| && y != x.id :: nodes[y].right ==
                if old(treeHead) != x && IsTask(old(x.parent), y) && old(nodes[y].left) != x then h
                else old(nodes[y].right)
      ensures forall y: nat | y < |nodes| && y != x.id ::
                nodes[y].parent == if IsTask(h, y) then old(x.parent) else old(nodes[y].parent)
      ensures x.left == null && x.right == null && x.parent == null
    {
      Replace(x, h);
      SetParent(h, x.parent);
      x.left, x.right, x.parent := null, null, null;
    }

    /** Take out task x, whose left child has no right child: the left child takes its place, and its
        right child over.  (The search for the last task on the right of the left child ends at once.) */
    method CutTwoChildren(x: nat, ghost t': Tree)
      requires Table() && Hangs(shape) && x < |nodes| && x in Ids(shape) && Shrunk(shape, x, t')
      requires LeftOf(shape, x) != None && RightOf(shape, x) != None && RightOf(shape, LeftOf(shape, x).value) == None
      modifies this`treeHead, this`shape, nodes`left, nodes`right, nodes`parent
      ensures shape == t' && Hangs(shape)
    {
      ghost var t := shape;
      Neighbours(t, x);
      assert Hung(t, x);
      Neighbours(t, nodes[x].left.id);
      Adopt(nodes[x]);
      shape := t';
      assert treeHead == Ptr(Root(t'));
      forall y: nat | y in Ids(t') ensures Hung(t', y) {
        assert old(Hung(t, y));
      }
      forall y: nat | y < |nodes| && y !in Ids(t') ensures Loose(y) { assert y == x || old(Loose(y)); }
    }

    /** The pointer writes that put the left child of x in its place, above the right child of x. */
    method Adopt(x: Node)
      requires Table() && x.id < |nodes| && x == nodes[x.id] && (x == treeHead || x.parent != null)
      requires Known(x.parent) && Known(x.left) && Known(x.right) && x.left != null && x.right != null
      requires x.left != x && x.right != x && x.parent != x && x.right != x.left && x.parent != x.left
      modifies this`treeHead, nodes`left, nodes`right, nodes`parent
      ensures treeHead == if old(treeHead) == x then old(x.left) else old(treeHead)
      ensures forall y: nat | y < |nodes| && y != x.id :: nodes[y].left ==
                if old(treeHead) != x && IsTask(old(x.parent), y) && old(nodes[y].left) == x then old(x.left)
                else old(nodes[y].left)
      ensures forall y: nat | y < |nodes| && y != x.id :: nodes[y].right ==
                if IsTask(old(x.left), y) then old(x.right)
                else if old(treeHead) != x && IsTask(old(x.parent), y) && old(nodes[y].left) != x then old(x.left)
                else old(nodes[y].right)
      ensures forall y: nat | y < |nodes| && y != x.id :: nodes[y].parent ==
                if IsTask(old(x.left), y) then old(x.parent)
                else if IsTask(old(x.right), y) then old(x.left)
                else old(nodes[y].parent)
      ensures x.left == null && x.right == null && x.parent == null
    {
      var tmp := x.left;
      Replace(x, tmp);
      SetParent(x.right, tmp);
      tmp.parent := x.parent;
      tmp.right := x.right;
      x.left, x.right, x.parent := null, null, null;
    }

    /** The link writes that bring u and w together, past x. */
    method Part(x: Node)
      requires Table() && x.id < |nodes| && x == nodes[x.id] && Known(x.sortPrev) && Known(x.sortNext)
      requires slistHead == x || x.sortPrev != null
      requires !IsTask(x.sortPrev, x.id) && !IsTask(x.sortNext, x.id)
      modifies this`slistHead, nodes`sortNext, nodes`sortPrev
      ensures slistHead == if old(slistHead) == x then x.sortNext else old(slistHead)
      ensures forall y: nat | y < |nodes| :: nodes[y].sortNext ==
                if old(slistHead) != x && IsTask(x.sortPrev, y) then x.sortNext else old(nodes[y].sortNext)
      ensures forall y: nat | y < |nodes| :: nodes[y].sortPrev ==
                if IsTask(x.sortNext, y) then x.sortPrev else old(nodes[y].sortPrev)
      ensures x.sortNext == old(x.sortNext) && x.sortPrev == old(x.sortPrev)
    {
      if slistHead == x { slistHead := x.sortNext; } else { x.sortPrev.sortNext := x.sortNext; }
      if x.sortNext != null { x.sortNext.sortPrev := x.sortPrev; }
    }

    /** get_sortlist: x leaves the list; its own sort links stay as they were. */
    method Unlink(x: nat, ghost a: seq<nat>, ghost b: seq<nat>)
      requires Table() && x < |nodes| && Lists(a + [x] + b) && NoDup(a + [x] + b)
      modifies this`slistHead, nodes`sortNext, nodes`sortPrev
      ensures Lists(a + b)
      ensures forall y: nat | y < |nodes| && y !in a + b :: nodes[y].sortNext == old(nodes[y].sortNext)
      ensures a + b == [] ==> Clear(x)
    {
      ghost var s, s', n := a + [x] + b, a + b, |a|;
      Gap(a, x, b);
      assert s[n] == x && LinkedAt(s, n);
      assert n > 0 ==> s[n - 1] == s'[n - 1] && s[0] == s'[0];
      assert b != [] ==> s[n + 1] == s'[n];
      Part(nodes[x]);
      forall i | 0 <= i < |s'| ensures LinkedAt(s', i) {
        assert old(LinkedAt(s, if i < n then i else i + 1));
        assert i != n - 1 ==> s'[i] != (if n > 0 then s'[n - 1] else x);
        assert i != n ==> s'[i] != (if b != [] then s'[n] else x);
      }
    }

    lemma Shorter(a: seq<nat>, x: nat, b: seq<nat>)
      requires Sorted(a + [x] + b) && Ranked(a + [x] + b, ranks)
      ensures Sorted(a + b) && Ranked(a + b, Without(ranks, |a|))
    {
      Gap(a, x, b);
      var s, s' := a + [x] + b, a + b;
      forall i, j | 0 <= i < j < |s'|
        ensures nodes[s'[i]].key <= nodes[s'[j]].key
      {
        var i', j' := if i < |a| then i else i + 1, if j < |a| then j else j + 1;
        assert s'[i] == s[i'] && s'[j] == s[j'];
      }
    }

    lemma Gap(a: seq<nat>, x: nat, b: seq<nat>)
      ensures forall i {:trigger (a + b)[i]} | 0 <= i < |a| :: (a + b)[i] == (a + [x] + b)[i]
      ensures forall i {:trigger (a + b)[i]} | |a| <= i < |a + b| :: (a + b)[i] == (a + [x] + b)[i + 1]
    {
    }

    /** Take task x out of the tree and the list, or the init task out of its cell, and make it current.
        There is still a tree after it if and only if x had at most one child, or a left child that had
        no right child. */
    method GetTask(x: nat)
      requires Valid() && x < |nodes| && nodes[x].ready
      modifies this`treeHead, this`slistHead, this`initQue, this`cur, this`shape, this`ranks
      modifies nodes`ready, nodes`left, nodes`right, nodes`parent, nodes`sortNext, nodes`sortPrev
      ensures cur == x && !nodes[x].ready && initQue == (old(initQue) && x != INIT_TASK_ID)
      ensures x == INIT_TASK_ID ==> Valid() && shape == old(shape) && ranks == old(ranks)
      ensures x != INIT_TASK_ID && Removable(old(shape), x) ==>
                && Valid() && GoneFrom(old(shape), old(ranks), x) && Ids(shape) == old(Ids(shape)) - {x}
                && shape == Remove(old(shape), x) && (shape == Leaf ==> Clear(x))
      ensures x != INIT_TASK_ID && !Removable(old(shape), x) ==>
                (forall t :: !Hangs(t)) && Lists(Before(old(shape), x) + After(old(shape), x))
      ensures Valid() ==>
                forall y: nat | y < |nodes| && y !in Order() :: nodes[y].sortNext == old(nodes[y].sortNext)
    {
      hide Lists, Sorted, Ranked, Removable;
      if x == INIT_TASK_ID {
        GetInit();
      } else {
        DeepTest(x);
        var n := nodes[x];
        if n.left != null && n.right != null && n.left.right != null {
          CutDeep(x);
          cur := x;
        } else {
          Cut(x, Remove(shape, x));
          SetCurrent(x);
        }
      }
    }

    lemma DeepTest(x: nat)
      requires Table() && Hangs(shape) && x in Ids(shape) && x < |nodes|
      ensures var n := nodes[x];
              n.left != null && n.right != null && n.left.right != null <==> !Removable(shape, x)
    {
      assert Hung(shape, x);
      Neighbours(shape, x);
      if LeftOf(shape, x).Some? { assert Hung(shape, LeftOf(shape, x).value); }
    }

    /** Task x goes although the left child has a right child: the last task on the right of the left child
        takes the place of x, but the left child goes on pointing to x as its parent. */
    method CutDeep(x: nat)
      requires Valid() && x < |nodes| && nodes[x].ready && x != INIT_TASK_ID && !Removable(shape, x)
      modifies this`treeHead, this`slistHead
      modifies nodes`ready, nodes`left, nodes`right, nodes`parent, nodes`sortNext, nodes`sortPrev
      ensures !nodes[x].ready && (forall t :: !Hangs(t))
      ensures Lists(Before(shape, x) + After(shape, x))
    {
      WalkSplit(shape, x);
      WalkNoDup(shape);
      ghost var l := CutPointers(x);
      forall t ensures !Hangs(t) { NoTree(t, x, l); }
      nodes[x].ready := false;
      Unlink(x, Before(shape, x), After(shape, x));
    }

    /** A task that points to a loose one as its parent hangs in no tree. */
    lemma NoTree(t: Tree, x: nat, l: nat)
      requires Table() && x < |nodes| && l < |nodes| && Loose(x) && nodes[l].parent == nodes[x]
      ensures !Hangs(t)
    {
      assert !Loose(l);
      if Proper(t) && l in Ids(t) && Hung(t, l) {
        Neighbours(t, l);
        assert ParentOf(t, l) == Some(x) && !Hung(t, x);
      }
    }

    /** The pointer writes for task x; l is its left child. */
    method CutPointers(x: nat) returns (ghost l: nat)
      requires Table() && Hangs(shape) && x < |nodes| && x in Ids(shape) && !Removable(shape, x)
      modifies this`treeHead, nodes`left, nodes`right, nodes`parent
      ensures l < |nodes| && Loose(x) && nodes[l].parent == nodes[x]
    {
      ghost var sub := Subtree(shape, x);
      Pointers(sub);
      Neighbours(shape, x);
      assert Hung(shape, x);
      WithinChildren(sub, shape);
      l := sub.left.node;
      assert Hung(shape, l);
      var tmp := LastRight(nodes[x].left, sub.left);
      ProperWithin(sub, shape);
      Supplant(nodes[x], tmp);
    }

    /** The last task on the right below p. */
    method LastRight(p: Node, ghost sub: Tree) returns (tmp: Node)
      requires Table() && Hangs(shape) && Within(sub, shape) && sub.Branch?
      requires sub.node < |nodes| && p == nodes[sub.node] && p.right != null
      ensures tmp.id < |nodes| && tmp == nodes[tmp.id] && tmp.id in Ids(sub) && tmp != p && tmp.right == null
      ensures Known(tmp.parent) && tmp.parent != null && tmp.parent.right == tmp
    {
      ProperWithin(sub, shape);
      tmp := p;
      ghost var s := sub;
      while tmp.right != null
        invariant Within(s, shape) && s.Branch? && s.node < |nodes| && tmp == nodes[s.node] && s.node in Ids(sub)
        invariant s == sub || Ids(s) <= Ids(sub.right)
        invariant tmp != p ==> Known(tmp.parent) && tmp.parent != null && tmp.parent.right == tmp
        decreases s
      {
        Pointers(s);
        WithinChildren(s, shape);
        Neighbours(shape, s.node);
        assert Hung(shape, s.node) && Hung(shape, s.right.node);
        tmp, s := tmp.right, s.right;
      }
    }

    /** tmp takes the place of x, above both children of x. */
    method Supplant(x: Node, tmp: Node)
      requires Table() && x.id < |nodes| && x == nodes[x.id] && (x == treeHead || x.parent != null) && Known(x.parent)
      requires Known(x.left) && Known(x.right) && x.left != null && x.right != null && x.left != x.right
      requires x.left != x && tmp.id < |nodes| && tmp == nodes[tmp.id] && tmp != x && tmp != x.left
      requires Known(tmp.parent) && tmp.parent != null && x.left.parent == x && x.right != tmp
      modifies this`treeHead, nodes`left, nodes`right, nodes`parent
      ensures x.left == null && x.right == null && x.parent == null && old(x.left).parent == x
    {
      var l := x.left;
      Replace(x, tmp);
      SetParent(x.right, tmp);
      if tmp.parent.right == tmp {
        tmp.parent.right := null;
        tmp.left := x.left;
      } else {
        x.left := null;
      }
      tmp.parent := x.parent;
      tmp.right := x.right;
      x.left, x.right, x.parent := null, null, null;
    }

    /** Task x is gone from the list of the tree t, and its rank from the ranks r. */
    ghost predicate GoneFrom(t: Tree, r: seq<int>, x: nat)
      reads this`shape, this`ranks
    {
      var a := Before(t, x);
      Order() == a + After(t, x) && |a| < |r| && ranks == Without(r, |a|)
    }

    method GetInit()
      requires Valid() && nodes[INIT_TASK_ID].ready
      modifies this`initQue, this`cur, nodes`ready
      ensures Valid() && cur == INIT_TASK_ID && !nodes[INIT_TASK_ID].ready && !initQue
    {
      initQue := false;
      nodes[INIT_TASK_ID].ready := false;
      cur := INIT_TASK_ID;
    }

    method SetCurrent(x: nat)
      requires Valid() && x < |nodes|
      modifies this`cur
      ensures Valid() && cur == x
    {
      cur := x;
    }

    method Cut(x: nat, ghost t': Tree)
      requires Valid() && x < |nodes| && nodes[x].ready && x != INIT_TASK_ID && Removable(shape, x)
      requires t' == Remove(shape, x)
      modifies this`treeHead, this`slistHead, this`shape, this`ranks
      modifies nodes`ready, nodes`left, nodes`right, nodes`parent, nodes`sortNext, nodes`sortPrev
      ensures Valid() && !nodes[x].ready && GoneFrom(old(shape), old(ranks), x) && shape == t'
      ensures Ids(shape) == old(Ids(shape)) - {x}
      ensures forall y: nat | y < |nodes| && y !in Order() :: nodes[y].sortNext == old(nodes[y].sortNext)
      ensures shape == Leaf ==> Clear(x)
    {
      RemovedSplit(x);
      CutAs(x, t', Before(shape, x), After(shape, x), Without(ranks, |Before(shape, x)|));
    }

    method CutAs(x: nat, ghost t': Tree, ghost a: seq<nat>, ghost b: seq<nat>, ghost r: seq<int>)
      requires Valid() && x < |nodes| && nodes[x].ready && x != INIT_TASK_ID && Removable(shape, x)
      requires Shrunk(shape, x, t') && Order() == a + [x] + b && NoDup(a + [x] + b)
      requires Walk(t') == a + b && Sorted(Walk(t')) && Ranked(Walk(t'), r)
      modifies this`treeHead, this`slistHead, this`shape, this`ranks
      modifies nodes`ready, nodes`left, nodes`right, nodes`parent, nodes`sortNext, nodes`sortPrev
      ensures Valid() && !nodes[x].ready && shape == t' && ranks == r
      ensures forall y: nat | y < |nodes| && y !in Order() :: nodes[y].sortNext == old(nodes[y].sortNext)
      ensures shape == Leaf ==> Clear(x)
    {
      Forget(x, t');
      Close(x, a, b, r);
    }

    /** The list closed over task x, which is out of the tree already. */
    method Close(x: nat, ghost a: seq<nat>, ghost b: seq<nat>, ghost r: seq<int>)
      requires Table() && cur < |nodes| && Hangs(shape) && Flagged() && x < |nodes|
      requires Lists(a + [x] + b) && NoDup(a + [x] + b)
      requires Order() == a + b && Sorted(Order()) && Ranked(Order(), r)
      modifies this`slistHead, this`ranks, nodes`sortNext, nodes`sortPrev
      ensures Valid() && ranks == r
      ensures forall y: nat | y < |nodes| && y !in Order() :: nodes[y].sortNext == old(nodes[y].sortNext)
      ensures Order() == [] ==> Clear(x)
    {
      Unlink(x, a, b);
      ranks := r;
    }

    method Forget(x: nat, ghost t': Tree)
      requires Table() && Hangs(shape) && Flagged() && x < |nodes| && x in Ids(shape) && Removable(shape, x)
      requires Shrunk(shape, x, t')
      modifies this`treeHead, this`shape, nodes`ready, nodes`left, nodes`right, nodes`parent
      ensures shape == t' && Hangs(shape) && Flagged() && !nodes[x].ready
    {
      CutTree(x, t');
      nodes[x].ready := false;
    }

    method CutTree(x: nat, ghost t': Tree)
      requires Table() && Hangs(shape) && x < |nodes| && x in Ids(shape) && Removable(shape, x) && Shrunk(shape, x, t')
      modifies this`treeHead, this`shape, nodes`left, nodes`right, nodes`parent
      ensures shape == t' && Hangs(shape)
    {
      assert Hung(shape, x);
      if nodes[x].left != null && nodes[x].right != null { CutTwoChildren(x, t'); } else { CutOneChild(x, t'); }
    }

    lemma RemovedSplit(x: nat)
      requires Valid() && x in Ids(shape) && Removable(shape, x)
      ensures Shrunk(shape, x, Remove(shape, x))
      ensures var a, b := Before(shape, x), After(shape, x);
              && Order() == a + [x] + b && NoDup(a + [x] + b)
              && Walk(Remove(shape, x)) == a + b && Sorted(a + b)
              && |a| < |ranks| && Ranked(a + b, Without(ranks, |a|))
    {
      WalkSplit(shape, x);
      WalkNoDup(shape);
      RemoveWalk(shape, x);
      RemoveShrinks(shape, x);
      Shorter(Before(shape, x), x, After(shape, x));
    }

    // ---- The scheduler -------------------------------------------------------------------------

    /** The running task: the head of the list, or the init task when the list is empty. */
    ghost predicate Running()
      reads this, nodes
      requires Valid()
    {
      if Order() == [] then cur == INIT_TASK_ID && initQue else cur == Order()[0]
    }

    /** The pick of schedule_fr, schedule_edf and schedule_llf.  It halts only if no task is ready, and
        otherwise runs a task with the least key and the best dynamic priority of all ready tasks. */
    method Pick()
      requires Valid() && !halted
      modifies this`cur, this`halted
      ensures Valid() && (halted <==> forall y: nat | y < |nodes| :: !nodes[y].ready)
      ensures !halted ==> Running() && nodes[cur].ready
      ensures !halted ==> forall y | y in Ids(shape) ::
                nodes[cur].key <= nodes[y].key && (y != cur ==> nodes[cur].dynamicPrio < nodes[y].dynamicPrio)
    {
      WalkIds(shape);
      if slistHead == null {
        if initQue { cur := INIT_TASK_ID; } else { halted := true; }
      } else {
        assert Order()[0] in Ids(shape);
        cur := slistHead.id;
      }
    }

    /** Taking out the running task and putting it back, its key raised by tmout, as a Fair quantum
        expiry does (an EDF or LLF call does it with 0): the same tasks are ready, and all is in order,
        unless the dynamic priorities run out. */
    method Requeue(tmout: int)
      requires Valid() && !halted && Running()
      modifies this`treeHead, this`slistHead, this`minPriority, this`tskNum, this`initQue, this`halted, this`cur
      modifies this`ranks, this`shape
      modifies {nodes[cur]}`key, nodes`ready, nodes`dynamicPrio, nodes`left, nodes`right, nodes`parent
      modifies nodes`sortNext, nodes`sortPrev
      ensures !halted ==> Valid()
      ensures initQue == old(initQue)
      ensures cur == old(cur) && nodes[cur].key == old(nodes[cur].key) + tmout
      ensures BackIn(old(shape), old(ranks), old(minPriority), old(tskNum))
    {
      hide Valid;
      TakeAndCharge(tmout);
      PutBack(old(shape), old(ranks));
    }

    /** The head of the list of the tree t is back in it; if it is not alone, it was hung into the tree
        without it, and the list was ranked anew. */
    ghost predicate BackIn(t: Tree, r: seq<int>, m: int, n: int)
      reads this`shape, this`cur, this`minPriority, this`tskNum, this`halted, this`ranks, nodes`key
    {
      var order := Walk(t);
      if |order| <= 1 then !halted && Order() == order && Numbers() == (m, n) && ranks == Rising(1, |order|)
      else r != [] && Walk(Remove(t, cur)) == order[1..] && Grown(Remove(t, cur), r[1..], m, n)
    }

    method PutBack(ghost t: Tree, ghost r: seq<int>)
      requires Valid() && !halted && HeadGone(t, r) && !nodes[cur].ready
      requires cur != INIT_TASK_ID && shape == Leaf ==> Clear(cur)
      modifies this`treeHead, this`slistHead, this`minPriority, this`tskNum, this`initQue, this`halted
      modifies this`ranks, this`shape
      modifies nodes`ready, nodes`dynamicPrio, nodes`left, nodes`right, nodes`parent
      modifies nodes`sortNext, nodes`sortPrev
      ensures !halted ==> Valid()
      ensures initQue == (old(initQue) || cur == INIT_TASK_ID)
      ensures BackIn(t, r, old(minPriority), old(tskNum))
    {
      WalkIds(shape);
      PutCurrent();
    }

    method TakeAndCharge(tmout: int)
      requires Valid() && !halted && Running()
      modifies this`treeHead, this`slistHead, this`initQue, this`cur, this`shape, this`ranks
      modifies {nodes[cur]}`key, nodes`ready, nodes`left, nodes`right, nodes`parent, nodes`sortNext, nodes`sortPrev
      ensures Valid() && cur == old(cur) && !nodes[cur].ready && cur !in Ids(shape)
      ensures Ids(shape) == old(Ids(shape)) - {cur} && initQue == (old(initQue) && cur != INIT_TASK_ID)
      ensures HeadGone(old(shape), old(ranks))
      ensures if cur == INIT_TASK_ID then old(initQue) else cur in old(Ids(shape))
      ensures cur != INIT_TASK_ID && shape == Leaf ==> Clear(cur)
      ensures nodes[cur].key == old(nodes[cur].key) + tmout
    {
      TakeRunning();
      Charge(tmout);
    }

    /** The head of the list is gone from the tree t, or the init task ran with the tree empty. */
    ghost predicate HeadGone(t: Tree, r: seq<int>)
      reads this`shape, this`ranks, this`cur
    {
      if cur == INIT_TASK_ID then t == Leaf && shape == t && ranks == r
      else
        && t != Leaf && r != [] && Walk(t)[0] == cur && Order() == Walk(t)[1..] && ranks == r[1..]
        && shape == Remove(t, cur)
    }

    method TakeRunning()
      requires Valid() && !halted && Running()
      modifies this`treeHead, this`slistHead, this`initQue, this`cur, this`shape, this`ranks
      modifies nodes`ready, nodes`left, nodes`right, nodes`parent, nodes`sortNext, nodes`sortPrev
      ensures Valid() && cur == old(cur) && !nodes[cur].ready && cur !in Ids(shape)
      ensures Ids(shape) == old(Ids(shape)) - {cur} && initQue == (old(initQue) && cur != INIT_TASK_ID)
      ensures HeadGone(old(shape), old(ranks))
      ensures if cur == INIT_TASK_ID then old(initQue) else cur in old(Ids(shape))
      ensures cur != INIT_TASK_ID && shape == Leaf ==> Clear(cur)
      ensures forall y: nat | y < |nodes| && y !in Order() :: nodes[y].sortNext == old(nodes[y].sortNext)
    {
      HeadRemovable();
      HeadSplit();
      GetTask(cur);
    }

    /** Nothing stands before the running task. */
    lemma HeadSplit()
      requires Valid() && Running()
      ensures cur == INIT_TASK_ID <==> Order() == []
      ensures cur != INIT_TASK_ID ==> Before(shape, cur) == [] && After(shape, cur) == Order()[1..]
    {
      WalkIds(shape);
      if Order() != [] {
        WalkSplit(shape, cur);
        WalkNoDup(shape);
        assert Order()[|Before(shape, cur)|] == cur;
      }
    }

    /** The head of the list has no left child. */
    lemma HeadRemovable()
      requires Valid() && Running()
      ensures nodes[cur].ready && (cur != INIT_TASK_ID ==> Removable(shape, cur))
    {
      WalkIds(shape);
      if shape.Branch? { FirstHasNoLeft(shape); }
    }

    method Charge(tmout: int)
      requires Valid() && cur !in Ids(shape)
      modifies {nodes[cur]}`key
      ensures Valid() && nodes[cur].key == old(nodes[cur].key) + tmout
    {
      WalkIds(shape);
      nodes[cur].key := nodes[cur].key + tmout;
      assert Sorted(Order());
    }

    // ---- Starts, ends and quantum expiries -----------------------------------------------------

    /** The keys of the tasks of order. */
    ghost predicate Keyed(keys: seq<int>, order: seq<nat>)
      reads nodes`key
    {
      && InTable(order) && |keys| == |order|
      && forall i {:trigger keys[i]} {:trigger order[i]} | 0 <= i < |order| :: keys[i] == nodes[order[i]].key
    }

    /** The list, its ranks and the numbers are those of l. */
    ghost predicate Shows(l: Line)
      reads this`shape, this`ranks, this`minPriority, this`tskNum, nodes`key
    {
      && LineOk(l) && Keyed(l.keys, Order()) && ranks == Rising(l.first, |l.keys|)
      && minPriority == l.m && tskNum == l.t
    }

    /** The line after the current task went into the list that l spoke of. */
    lemma TakenShows(l: Line, t: Tree, r: seq<int>, p: nat, side: Side)
      requires LineOk(l) && l.keys != [] && Keyed(l.keys, Walk(t)) && r == Rising(l.first, |Walk(t)|)
      requires TakenIn(t, r, l.m, l.t, p, side)
      ensures var l' := Put(l, nodes[cur].key);
              tskNum == l.t + 1 && (halted <==> l'.None?) && (!halted ==> Shows(l'.value))
    {
      hide Sorted, Keyed, Insert, InOrder, Fits, PutAt, Position, Walk, Put, Rising, Renumbered;
      TakenKeys(l.keys, t, p, side);
      PutOk(l, nodes[cur].key);
      PutRanks(l, nodes[cur].key, Position(t, p, side));
    }

    /** The keys along the list, and whether the task went to the front. */
    lemma TakenKeys(keys: seq<int>, t: Tree, p: nat, side: Side)
      requires keys != [] && Keyed(keys, Walk(t)) && cur < |nodes| && Fits(t, p, side, nodes[cur].key)
      requires Position(t, p, side) <= |Walk(t)|
      requires Order() == Inserted(Walk(t), Position(t, p, side), cur) && Sorted(Order())
      ensures |keys| == |Walk(t)| && Keyed(Insert(keys, nodes[cur].key), Order())
      ensures Position(t, p, side) == 0 <==> nodes[cur].key < keys[0]
    {
      hide Sorted, KeysDiffer, Insert, Fits, Position, Walk;
      var order, i, k := Walk(t), Position(t, p, side), nodes[cur].key;
      InsertedKeys(keys, order, i);
      InsertAt(keys, k, i);
      if i == 0 { FrontDiffers(t, p, side, k); }
      FrontLess(keys, order, i);
    }

    /** A key that goes to the front is no other task's. */
    lemma FrontDiffers(t: Tree, p: nat, side: Side, c: int)
      requires Fits(t, p, side, c) && Position(t, p, side) == 0
      ensures KeysDiffer(Walk(t), c)
    {
      WalkSplit(t, p);
    }

    /** The task went to the front just if its key is less than all others. */
    lemma FrontLess(keys: seq<int>, order: seq<nat>, i: nat)
      requires i <= |order| && order != [] && cur < |nodes| && Keyed(keys, order)
      requires InOrder(keys[..i] + [nodes[cur].key] + keys[i..])
      requires i == 0 ==> KeysDiffer(order, nodes[cur].key)
      ensures i == 0 <==> nodes[cur].key < keys[0]
    {
      var ks := keys[..i] + [nodes[cur].key] + keys[i..];
      assert if i > 0 then ks[0] == keys[0] && ks[i] == nodes[cur].key else ks[0] == nodes[cur].key && ks[1] == keys[0];
    }

    lemma InsertedKeys(keys: seq<int>, order: seq<nat>, i: nat)
      requires i <= |order| && cur < |nodes| && Keyed(keys, order) && Sorted(Inserted(order, i, cur))
      ensures Keyed(keys[..i] + [nodes[cur].key] + keys[i..], Inserted(order, i, cur))
      ensures InOrder(keys[..i] + [nodes[cur].key] + keys[i..])
    {
      var s := Inserted(order, i, cur);
      var ks := keys[..i] + [nodes[cur].key] + keys[i..];
      forall j | 0 <= j < |s| ensures ks[j] == nodes[s[j]].key {
        if j < i { assert s[j] == order[j]; } else if j > i { assert s[j] == order[j - 1]; }
      }
    }

    /** The line after an expiry that charged c, up to the pick. */
    lemma BackShows(l: Line, t: Tree, order: seq<nat>, r: seq<int>, c: int)
      requires LineOk(l) && |l.keys| == |order| && r == Rising(l.first, |order|)
      requires order == Walk(t) && BackIn(t, r, l.m, l.t) && InTable(order)
      requires order != [] ==> cur == order[0] && nodes[cur].key == l.keys[0] + c && Keyed(l.keys[1..], order[1..])
      ensures var p := Occur(l, Expiry(c));
              (halted <==> p.None?) && (!halted ==> Shows(p.value))
      ensures |order| >= 2 ==> tskNum == l.t + 1
    {
      hide Sorted, Insert, Reranked, TakenIn;
      if |order| >= 2 {
        var p: nat, side :| TakenIn(Remove(t, cur), r[1..], l.m, l.t, p, side);
        RestOk(l);
        RestRanks(l);
        TakenShows(Rest(l), Remove(t, cur), r[1..], p, side);
      } else if |order| == 1 {
        RestOk(l);
        PutOk(Rest(l), l.keys[0] + c);
      }
    }

    lemma RestRanks(l: Line)
      requires LineOk(l) && |l.keys| >= 2
      ensures Rising(l.first, |l.keys|)[1..] == Rising(Rest(l).first, |Rest(l).keys|)
    {
    }

    /** schedule_fr_callrte and the scheduler after it, with the running task charged tmout. */
    method Expire(tmout: int, ghost l: Line)
      requires Valid() && !halted && Running() && Shows(l)
      modifies this, {nodes[cur]}`key, nodes`ready, nodes`dynamicPrio, nodes`left, nodes`right, nodes`parent
      modifies nodes`sortNext, nodes`sortPrev
      ensures halted <==> Occur(l, Expiry(tmout)).None?
      ensures !halted ==> Valid() && Running() && Shows(Occur(l, Expiry(tmout)).value)
      ensures nodes[old(cur)].key == old(nodes[cur].key) + tmout
      ensures |l.keys| >= 2 ==> tskNum == old(tskNum) + 1
    {
      Cycle(tmout, l);
      if !halted { PickNext(); }
    }

    /** An expiry up to the pick: the running task out of the list, charged tmout, and in again. */
    method Cycle(tmout: int, ghost l: Line)
      requires Valid() && !halted && Running() && Shows(l)
      modifies this, {nodes[cur]}`key, nodes`ready, nodes`dynamicPrio, nodes`left, nodes`right, nodes`parent
      modifies nodes`sortNext, nodes`sortPrev
      ensures halted <==> Occur(l, Expiry(tmout)).None?
      ensures !halted ==> Valid() && (Order() != [] || initQue) && Shows(Occur(l, Expiry(tmout)).value)
      ensures cur == old(cur) && nodes[cur].key == old(nodes[cur].key) + tmout
      ensures |l.keys| >= 2 ==> tskNum == old(tskNum) + 1
    {
      hide BackIn, Lists, Ranked;
      ghost var t, order, r := shape, Order(), ranks;
      WalkNoDup(shape);
      assert forall i | 0 < i < |order| :: order[i] != order[0];
      Requeue(tmout);
      BackShows(l, t, order, r, tmout);
    }

    /** The pick when some task is ready. */
    method PickNext()
      requires Valid() && !halted && (Order() != [] || initQue)
      modifies this`cur
      ensures Valid() && Running()
    {
      WalkIds(shape);
      cur := if slistHead == null then INIT_TASK_ID else slistHead.id;
    }

    /** The running task leaves the ready list, as it does to wait or to end, and the scheduler picks. */
    method Leave(ghost l: Line)
      requires Valid() && !halted && Running() && Shows(l)
      modifies this`treeHead, this`slistHead, this`initQue, this`cur, this`shape, this`ranks, this`halted
      modifies nodes`ready, nodes`left, nodes`right, nodes`parent, nodes`sortNext, nodes`sortPrev
      ensures Valid() && Shows(Rest(l)) && initQue == (old(initQue) && l.keys != [])
      ensures Ids(shape) == old(Ids(shape)) - {old(cur)}
      ensures forall y: nat | y < |nodes| && y !in Order() :: nodes[y].sortNext == old(nodes[y].sortNext)
      ensures halted <==> Order() == [] && !initQue
      ensures !halted ==> Running()
    {
      hide Hangs, Lists, Flagged, Sorted, Ranked;
      TakeHead(l);
      Pick();
      SomeReady();
    }

    method TakeHead(ghost l: Line)
      requires Valid() && !halted && Running() && Shows(l)
      modifies this`treeHead, this`slistHead, this`initQue, this`cur, this`shape, this`ranks
      modifies nodes`ready, nodes`left, nodes`right, nodes`parent, nodes`sortNext, nodes`sortPrev
      ensures Valid() && Shows(Rest(l)) && initQue == (old(initQue) && l.keys != [])
      ensures Ids(shape) == old(Ids(shape)) - {old(cur)}
      ensures forall y: nat | y < |nodes| && y !in Order() :: nodes[y].sortNext == old(nodes[y].sortNext)
    {
      hide Hangs, Lists, Flagged, Sorted, Ranked, HeadGone, Keyed;
      ghost var t, r := shape, ranks;
      TakeRunning();
      RestShows(l, t, r);
    }

    /** The line once its first task is gone. */
    lemma RestShows(l: Line, t: Tree, r: seq<int>)
      requires LineOk(l) && Keyed(l.keys, Walk(t)) && r == Rising(l.first, |l.keys|) && HeadGone(t, r)
      requires minPriority == l.m && tskNum == l.t
      ensures Shows(Rest(l))
    {
      RestOk(l);
    }

    lemma SomeReady()
      requires Valid()
      ensures (forall y: nat | y < |nodes| :: !nodes[y].ready) <==> Order() == [] && !initQue
    {
      WalkIds(shape);
      if Order() != [] { assert Order()[0] in Ids(shape); }
    }

    /** sta_tsk for a task that is not ready. */
    method Start(x: nat, ghost l: Line)
      requires Valid() && !halted && x < |nodes| && x != INIT_TASK_ID && !nodes[x].ready && Shows(l)
      modifies this`treeHead, this`slistHead, this`minPriority, this`tskNum, this`halted
      modifies this`ranks, this`shape, this`cur
      modifies nodes`ready, nodes`dynamicPrio, nodes`left, nodes`right, nodes`parent, nodes`sortNext, nodes`sortPrev
      ensures halted <==> Put(l, nodes[x].key).None?
      ensures !halted ==> Shows(Put(l, nodes[x].key).value) && (Valid() <==> !old(shape == Leaf && !Clear(x)))
      ensures old(shape) == Leaf ==> Rooted(x) && nodes[x].sortNext == old(nodes[x].sortNext)
      ensures old(shape) != Leaf ==> Grown(old(shape), old(ranks), old(minPriority), old(tskNum))
      ensures cur == x && Ids(shape) == old(Ids(shape)) + {x}
    {
      hide Hangs, Lists, Flagged, Sorted, Ranked, TakenIn;
      ghost var t, r := shape, ranks;
      SetCurrent(x);
      PutReady();
      PutShows(l, t, r);
    }

    /** The line after the current task went in, into an empty tree or not. */
    lemma PutShows(l: Line, t: Tree, r: seq<int>)
      requires LineOk(l) && cur < |nodes| && Keyed(l.keys, Walk(t)) && r == Rising(l.first, |Walk(t)|)
      requires t == Leaf ==> !halted && Order() == [cur] && ranks == [1] && Numbers() == (l.m, l.t)
      requires t != Leaf ==> Grown(t, r, l.m, l.t)
      ensures var p := Put(l, nodes[cur].key);
              (halted <==> p.None?) && (!halted ==> Shows(p.value))
    {
      PutOk(l, nodes[cur].key);
      if t != Leaf {
        var p: nat, side :| TakenIn(t, r, l.m, l.t, p, side);
        TakenShows(l, t, r, p, side);
      }
    }

    // ---- Runs of starts, ends and expiries -----------------------------------------------------

    /** The deed is the start of a task with left-over sort links while no task is ready. */
    ghost predicate StaleDeed(d: Deed)
      reads this, nodes
    {
      && d.StartTask? && d.x < |nodes| && d.x != INIT_TASK_ID && !nodes[d.x].ready
      && shape == Leaf && !Clear(d.x)
    }

    /** The kernel halts for want of a priority, or for want of a ready task, or shows the line r. */
    ghost predicate Arrives(r: Option<Line>)
      reads this, nodes
    {
      && (r.None? ==> halted)
      && (r.Some? ==> Valid() && Shows(r.value) && (halted <==> Order() == [] && !initQue) && (!halted ==> Running()))
    }

    /** One deed, unless it is stale: starting a task that is ready already, or none, is refused. */
    method Do(d: Deed, ghost l: Line) returns (stale: bool, ghost e: Event)
      requires Valid() && !halted && Running() && Shows(l)
      modifies this, nodes
      ensures stale <==> old(StaleDeed(d))
      ensures stale ==> StaleDeed(d) && Valid() && !halted && Running() && Shows(l)
      ensures !stale ==> Does(d, e) && Arrives(Occur(l, e))
    {
      hide Hangs, Lists, Sorted, Ranked;
      stale, e := false, Refused;
      match d
      case StartTask(x) =>
        if x < |nodes| && x != INIT_TASK_ID && !nodes[x].ready {
          EmptyTree();
          stale := treeHead == null && (nodes[x].sortNext != null || nodes[x].sortPrev != null);
          if !stale {
            e := Event.Start(nodes[x].key, false);
            StartAndPick(x, l);
          }
        } else {
          SomeRunning();
        }
      case LeaveRunning =>
        e := Event.Leave;
        Leave(l);
      case ExpireQuantum(c) =>
        e := Expiry(c);
        ExpireOne(c, l);
        if !halted { SomeRunning(); }
    }

    lemma EmptyTree()
      requires Valid()
      ensures treeHead == null <==> shape == Leaf
    {
    }

    lemma SomeRunning()
      requires Valid() && Running()
      ensures Order() != [] || initQue
    {
    }

    method StartAndPick(x: nat, ghost l: Line)
      requires Valid() && !halted && x < |nodes| && x != INIT_TASK_ID && !nodes[x].ready && Shows(l)
      requires shape == Leaf ==> Clear(x)
      modifies this, nodes
      ensures Arrives(Put(l, nodes[x].key)) && nodes[x].key == old(nodes[x].key)
      ensures !halted ==> forall y: nat | 0 < y < |nodes| && (y == x || old(nodes[y].ready)) :: nodes[y].ready
    {
      hide Hangs, Lists, Sorted, Ranked, Put, Keyed, Grown;
      Start(x, l);
      if !halted {
        WalkIds(shape);
        PickNext();
      }
    }

    /** Any run of starts, ends and expiries, up to the first stale start: it does to the line what its
        events do, and halts the kernel just when they run out of priorities or no task is ready. */
    method Perform(ds: seq<Deed>, ghost l: Line) returns (done: nat, ghost es: seq<Event>)
      requires Valid() && !halted && Running() && Shows(l)
      modifies this, nodes
      ensures done == |es| <= |ds| && forall i | 0 <= i < done :: Does(ds[i], es[i])
      ensures Guarded(es) && AtMost(l, es, |nodes| - 1) && Arrives(Follow(l, es))
      ensures done < |ds| && !halted ==> StaleDeed(ds[done])
    {
      hide Valid, Shows, Occur, Follow;
      done, es := 0, [];
      ghost var now := l;
      FollowNone(l);
      while done < |ds| && !halted
        invariant done == |es| <= |ds| && forall i | 0 <= i < done :: Does(ds[i], es[i])
        invariant AtMost(l, es, |nodes| - 1) && Arrives(Follow(l, es))
        invariant !halted ==> Follow(l, es) == Some(now)
      {
        var stale; ghost var e;
        stale, e := Do(ds[done], now);
        if stale { return; }
        FollowNext(l, es, e);
        Crowded(Occur(now, e));
        AtMostNext(l, es, e, |nodes| - 1);
        es, done := es + [e], done + 1;
        if !halted { now := Follow(l, es).value; }
      }
    }

    lemma FollowNone(l: Line)
      requires Valid() && Shows(l) && !halted && Running()
      ensures Follow(l, []) == Some(l) && AtMost(l, [], |nodes| - 1) && Arrives(Some(l))
    {
      SomeRunning();
      Crowded(Some(l));
    }

    /** No more tasks are in the list than there are. */
    lemma Crowded(r: Option<Line>)
      requires Arrives(r)
      ensures r.Some? ==> |r.value.keys| <= |nodes| - 1
    {
      if r.Some? { AtMostTasks(); }
    }

    lemma AtMostTasks()
      requires Valid()
      ensures |Order()| <= |nodes| - 1
      ensures (forall y: nat | 0 < y < |nodes| :: nodes[y].ready) ==> |Order()| == |nodes| - 1
    {
      WalkLength(shape);
      SubsetSize(Ids(shape), UpTo(|nodes| - 1));
      if forall y: nat | 0 < y < |nodes| :: nodes[y].ready { assert Ids(shape) == UpTo(|nodes| - 1); }
    }

    /** With at most 15 tasks beside the init task no run ever halts the kernel for want of a priority, as
        long as no start is stale, once 16 insertions have been counted and min_priority is at most 16. */
    method FewTasks(ds: seq<Deed>, ghost l: Line) returns (done: nat, ghost es: seq<Event>)
      requires Valid() && !halted && Running() && Shows(l) && Settled(l) && |nodes| - 1 < HALF
      modifies this, nodes
      ensures done == |es| <= |ds| && forall i | 0 <= i < done :: Does(ds[i], es[i])
      ensures Valid() && Follow(l, es).Some? && Shows(Follow(l, es).value)
      ensures halted <==> Order() == [] && !initQue
      ensures done < |ds| && !halted ==> StaleDeed(ds[done])
    {
      done, es := Perform(ds, l);
      FewerStill(l, es, |nodes| - 1, HALF - 1);
      SettledRuns(l, es);
    }

    /** With 16 tasks or more some run does, without a stale start: all tasks are started that it takes, and
        then charged. */
    method ManyTasks(l: Line) returns (ghost ds: seq<Deed>, ghost es: seq<Event>)
      requires Valid() && !halted && Running() && Shows(l) && l.keys != [] && |nodes| - 1 >= HALF
      modifies this, nodes
      ensures halted && Follow(l, es).None?
      ensures |ds| == |es| && forall i | 0 <= i < |ds| :: Does(ds[i], es[i])
    {
      hide Hangs, Lists, Sorted, Ranked, Flagged, Put;
      var now := l;
      ds, es := [], [];
      FollowNone(l);
      var x := 1;
      while x < |nodes| && |now.keys| < HALF
        invariant 0 < x <= |nodes| && LineOk(now) && now.keys != []
        invariant Valid() && !halted && Running() && Shows(now) && Follow(l, es) == Some(now)
        invariant |ds| == |es| && forall i | 0 <= i < |ds| :: Does(ds[i], es[i])
        invariant forall y: nat | 0 < y < x :: nodes[y].ready
      {
        if !nodes[x].ready {
          var k := nodes[x].key;
          FollowStart(l, es, now, k);
          StartAndPick(x, now);
          ds, es := ds + [StartTask(x)], es + [Event.Start(k, false)];
          if halted { return; }
          now := Put(now, k).value;
        }
        x := x + 1;
      }
      AtMostTasks();
      var tmouts, done := RuinousExpiries(now);
      FollowOn(l, es, Charges(tmouts[..done]));
      es := es + Charges(tmouts[..done]);
      ds := ds + seq(done, i requires 0 <= i < done => ExpireQuantum(tmouts[i]));
    }

    // ---- Stale starts --------------------------------------------------------------------------

    /** The one ready task a has a sort link to b, which is not ready. */
    ghost predicate Misled(a: nat, b: nat)
      reads this, nodes
    {
      && Rooted(a) && b < |nodes| && b != a && b != INIT_TASK_ID && nodes[a].sortNext == nodes[b]
    }

    /** put_current_btree for the task b that a left-over link leads to: it becomes its own successor, or
        with a smaller key that of a, and the ranking goes round until the priorities have run out. */
    method StartLed(b: nat, ghost a: nat)
      requires Misled(a, b) && !halted
      modifies this, nodes`ready, nodes`dynamicPrio, nodes`left, nodes`right, nodes`parent
      modifies nodes`sortNext, nodes`sortPrev
      ensures halted && nodes[a].sortNext == nodes[b]
      ensures nodes[b].sortNext == if nodes[b].key >= nodes[a].key then nodes[b] else nodes[a]
    {
      cur := b;
      var p, side := HangLed(b, a);
      JoinLed(p, side, a);
      RankRound(a);
    }

    /** The sort links lead from a to the current task and from there to no end. */
    method RankRound(ghost a: nat)
      requires Table() && cur < |nodes| && a < |nodes| && !halted && nodes[a].sortNext == nodes[cur]
      requires nodes[cur].sortNext == nodes[cur] || nodes[cur].sortNext == nodes[a]
      requires slistHead == nodes[a] || slistHead == nodes[cur]
      modifies this`halted, nodes`dynamicPrio
      ensures halted
    {
      var tmp, first := RankStart();
      var priority := RankFrom([], 0, tmp, first, [], {nodes[a], nodes[cur]});
    }

    lemma LedTree(a: nat)
      requires Rooted(a)
      ensures Ids(shape) == {a} && Sorted(Order())
    {
      assert Walk(Leaf) == [];
      assert Order() == [a];
    }

    /** The task b, smaller or not, as the left or the right child of a. */
    method HangLed(b: nat, ghost a: nat) returns (p: Node, side: Side)
      requires Misled(a, b) && cur == b
      modifies this`shape, this`tskNum, nodes`ready, nodes`left, nodes`right, nodes`parent
      ensures p == nodes[a] && side == if nodes[b].key < nodes[a].key then ToLeft else ToRight
    {
      LedTree(a);
      p, side := Descend(nodes[b].key);
      if side == ToLeft { HangLeft(p); } else { HangRight(p); }
      nodes[b].ready := true;
    }

    method JoinLed(p: Node, side: Side, ghost a: nat)
      requires Table() && cur < |nodes| && a < |nodes| && a != cur && p == nodes[a]
      requires slistHead == p && p.sortNext == nodes[cur]
      modifies this`slistHead, nodes`sortNext, nodes`sortPrev
      ensures nodes[a].sortNext == nodes[cur] && slistHead == if side == ToLeft then nodes[cur] else nodes[a]
      ensures nodes[cur].sortNext == if side == ToLeft then nodes[a] else nodes[cur]
    {
      if side == ToLeft { Join(p.sortPrev, p, slistHead == p); } else { Join(p, p.sortNext, false); }
    }

    /** From every state with two ready tasks or more: all of them leave, the first one comes back, which is
        a stale start, and when the second comes back the kernel halts. */
    method AllReturn(ghost l: Line)
      requires Valid() && !halted && Running() && initQue && Shows(l) && |l.keys| >= 2
      modifies this, nodes
      ensures halted
    {
      SecondNext();
      var a, b := cur, nodes[cur].sortNext.id;
      ghost var now := AllLeave(a, l);
      Start(a, now);
      StartLed(b, a);
    }

    lemma SecondNext()
      requires Valid() && Running() && |Order()| >= 2
      ensures cur == Order()[0] && cur in Ids(shape)
      ensures Order()[1] < |nodes| && nodes[cur].sortNext == nodes[Order()[1]]
      ensures Order()[1] != INIT_TASK_ID && Order()[1] != cur
    {
      WalkIds(shape);
      WalkNoDup(shape);
      assert LinkedAt(Order(), 0) && Order()[1] in Ids(shape);
    }

    method AllLeave(a: nat, ghost l: Line) returns (ghost now: Line)
      requires Valid() && !halted && Running() && initQue && Shows(l) && a == cur && shape != Leaf
      requires a != INIT_TASK_ID
      modifies this, nodes`ready, nodes`left, nodes`right, nodes`parent, nodes`sortNext, nodes`sortPrev
      ensures Valid() && !halted && shape == Leaf && Shows(now) && !nodes[a].ready
      ensures nodes[a].sortNext == old(nodes[a].sortNext)
    {
      hide Hangs, Lists, Sorted, Ranked;
      LeaveWith(a, l);
      now := Rest(l);
      EmptyTree();
      while treeHead != null
        invariant Valid() && !halted && Running() && initQue && Shows(now) && a !in Ids(shape)
        invariant treeHead == null <==> shape == Leaf
        invariant nodes[a].sortNext == old(nodes[a].sortNext)
        decreases |now.keys|
      {
        LeaveWith(a, now);
        now := Rest(now);
        EmptyTree();
      }
    }

    /** The running task leaves; a, which it is or which is not in the list, keeps its link. */
    method LeaveWith(a: nat, ghost l: Line)
      requires Valid() && !halted && Running() && initQue && Shows(l) && shape != Leaf
      requires a == cur || a !in Ids(shape)
      requires a < |nodes| && a != INIT_TASK_ID
      modifies this, nodes`ready, nodes`left, nodes`right, nodes`parent, nodes`sortNext, nodes`sortPrev
      ensures Valid() && !halted && Running() && initQue && Shows(Rest(l)) && a !in Ids(shape)
      ensures nodes[a].sortNext == old(nodes[a].sortNext) && |Rest(l).keys| < |l.keys|
    {
      hide Hangs, Lists, Sorted, Ranked;
      Leave(l);
      WalkIds(shape);
    }

    // ---- Runs of quantum expiries --------------------------------------------------------------

    /** Any run of quantum expiries, whatever each charges: the kernel halts just when the run of the line
        does, and otherwise shows the line after it; done is the number of expiries it got to. */
    method Expiries(tmouts: seq<int>, ghost l: Line) returns (done: nat)
      requires Valid() && !halted && Running() && Shows(l)
      modifies this, nodes
      ensures halted <==> Follow(l, Charges(tmouts)).None?
      ensures !halted ==> Valid() && Running() && Shows(Follow(l, Charges(tmouts)).value)
      ensures done <= |tmouts| && (!halted ==> done == |tmouts|)
      ensures halted <==> Follow(l, Charges(tmouts[..done])).None?
      ensures |l.keys| >= 2 ==> tskNum == old(tskNum) + done
    {
      hide Valid, Shows, Put;
      done := 0;
      ghost var now := l;
      while done < |tmouts| && !halted
        invariant done <= |tmouts|
        invariant halted <==> Follow(l, Charges(tmouts[..done])).None?
        invariant !halted ==> Valid() && Running() && Shows(now) && Follow(l, Charges(tmouts[..done])) == Some(now)
        invariant |now.keys| == |l.keys|
        invariant |l.keys| >= 2 ==> tskNum == old(tskNum) + done
      {
        assert tmouts[..done + 1] == tmouts[..done] + [tmouts[done]];
        ChargesNext(tmouts[..done], tmouts[done]);
        FollowNext(l, Charges(tmouts[..done]), Expiry(tmouts[done]));
        ExpireOne(tmouts[done], now);
        if !halted { now := Occur(now, Expiry(tmouts[done])).value; }
        done := done + 1;
      }
      if halted { ChargesHalt(l, tmouts, done); } else { assert tmouts[..done] == tmouts; }
    }

    method ExpireOne(tmout: int, ghost l: Line)
      requires Valid() && !halted && Running() && Shows(l)
      modifies this, nodes
      ensures halted <==> Occur(l, Expiry(tmout)).None?
      ensures !halted ==> Valid() && Running() && Shows(Occur(l, Expiry(tmout)).value)
      ensures !halted ==> |Occur(l, Expiry(tmout)).value.keys| == |l.keys|
      ensures |l.keys| >= 2 ==> tskNum == old(tskNum) + 1
    {
      Expire(tmout, l);
      OccurOk(l, Expiry(tmout));
    }

    /** From a lasting line no run of expiries ever halts the kernel for want of a priority. */
    method LastingExpiries(tmouts: seq<nat>, ghost l: Line)
      requires Valid() && !halted && Running() && Shows(l) && Lasting(l)
      modifies this, nodes
      ensures !halted && Valid() && Running()
      ensures var r := Follow(l, Charges(tmouts)); r.Some? && Shows(r.value)
    {
      LastingRuns(l, tmouts);
      var done := Expiries(tmouts, l);
    }

    /** From any other line some run does. */
    method RuinousExpiries(l: Line) returns (tmouts: seq<nat>, done: nat)
      requires Valid() && !halted && Running() && Shows(l) && !Lasting(l)
      modifies this, nodes
      ensures halted && done <= |tmouts| <= PRIORITY_NUM + 1 && Follow(l, Charges(tmouts[..done])).None?
      ensures tskNum == old(tskNum) + done
    {
      tmouts := Ruin(l);
      RuinHalts(l);
      done := Expiries(tmouts, l);
    }

    /** Tasks that are not more than c apart and are charged c each: none is ever put in front. */
    method EqualExpiries(c: int, k: nat, ghost l: Line)
      requires Valid() && !halted && Running() && Shows(l) && |l.keys| >= 2 && Near(l.keys, c)
      modifies this, nodes
      ensures halted <==> Course(|l.keys|, old(minPriority), old(tskNum), k).None?
      ensures Noticed(|l.keys|, old(minPriority), old(tskNum)) ==> !halted
      ensures !Noticed(|l.keys|, old(minPriority), old(tskNum)) && k >= PRIORITY_NUM ==> halted
    {
      FollowEqual(l, c, k);
      CourseForever(|l.keys|, l.m, l.t, k);
      var done := Expiries(Same(c, k), l);
    }

    /** Two tasks with the keys 0 and 3, charged 2 for every quantum: within 31 of them the priorities have
        run out. */
    method StarveTwo() returns (done: nat)
      requires Valid() && !halted && Running() && Shows(Line([0, 3], 1, 3, 1))
      modifies this, nodes
      ensures halted && done <= 31 && Follow(Line([0, 3], 1, 3, 1), Charges(Same(2, done))).None?
      ensures tskNum == old(tskNum) + done
    {
      TwoStarve();
      done := Expiries(Same(2, 31), Line([0, 3], 1, 3, 1));
      assert Same(2, 31)[..done] == Same(2, done);
    }

    // ---- From a fresh kernel -------------------------------------------------------------------

    /** The init task is put into its cell. */
    method StartInit()
      requires Valid() && !halted && shape == Leaf && cur == INIT_TASK_ID && !initQue
      modifies this`initQue, nodes`ready
      ensures Valid() && initQue && forall y: nat | 0 < y < |nodes| :: nodes[y].ready == old(nodes[y].ready)
    {
      PutInit();
    }

    lemma FreshShows()
      requires Valid() && shape == Leaf && minPriority == -1 && tskNum == 0
      ensures Shows(FRESH) && Follow(FRESH, Starts([])) == Some(FRESH)
    {
    }

    /** Among tasks with the key c alone, another one goes in behind the root. */
    lemma EqualAtRoot(t: Tree, p: nat, side: Side, c: int)
      requires Proper(t) && t.Branch? && Fits(t, p, side, c)
      requires forall y | y in Ids(t) :: y < |nodes| && nodes[y].key == c
      ensures p == t.node && side == ToRight
    {
      RootIn(t);
      RootOnTop(t, p);
    }

    lemma RootFirst(t: Tree)
      requires Proper(t) && t.Branch? && Walk(t)[0] == t.node
      ensures Before(t, t.node) == []
    {
      WalkSplit(t, t.node);
      WalkNoDup(t);
      assert Walk(t)[|Before(t, t.node)|] == t.node;
    }

    /** A task whose key is that of all others goes in just behind the root. */
    lemma BehindRoot(t: Tree, r: seq<int>, m: int, n: int, i: nat)
      requires Grown(t, r, m, n) && cur == i + 1 && Proper(t) && LastFirst(t, i)
      requires i > 0 && forall y | y in Ids(t) :: y < |nodes| && nodes[y].key == nodes[cur].key
      ensures LastFirst(shape, i + 1)
    {
      hide Fits, Sorted, Reranked, Proper, Walk, Before;
      var p: nat, side :| TakenIn(t, r, m, n, p, side);
      EqualAtRoot(t, p, side, nodes[cur].key);
      RootFirst(t);
      assert Inserted([1] + Down(i), 1, i + 1) == [1] + Down(i + 1);
    }

    /** Tasks 1 to i, whose keys are the first i ones of keys, have been started, and no others. */
    ghost predicate StartedTo(keys: seq<int>, i: nat)
      reads this, nodes
    {
      && i <= |keys| < |nodes| && Valid()
      && (forall y: nat | 0 < y <= |keys| :: nodes[y].key == keys[y - 1])
      && (forall y: nat | y in Ids(shape) :: 0 < y <= i) && (i > 0 <==> shape != Leaf)
      && (i == 0 && |keys| > 0 ==> Clear(1))
      && (Alike(keys) ==> LastFirst(shape, i))
      && Follow(FRESH, Starts(keys[..i])).Some? && Shows(Follow(FRESH, Starts(keys[..i])).value)
    }

    lemma StartedLast(t: Tree, r: seq<int>, m: int, n: int, i: nat, keys: seq<int>)
      requires cur == i + 1 && |keys| < |nodes| && i < |keys| && Proper(t)
      requires forall y: nat | 0 < y <= |keys| :: nodes[y].key == keys[y - 1]
      requires if t == Leaf then i == 0 && Rooted(1) else i > 0 && Grown(t, r, m, n)
      requires (forall y: nat | y in Ids(t) :: 0 < y <= i) && (Alike(keys) ==> LastFirst(t, i))
      ensures Alike(keys) ==> LastFirst(shape, i + 1)
    {
      if Alike(keys) && i > 0 { BehindRoot(t, r, m, n, i); }
    }

    /** Task i + 1 is started after tasks 1 to i. */
    method StartNext(i: nat, ghost keys: seq<int>)
      requires !halted && i < |keys| && StartedTo(keys, i)
      modifies this`treeHead, this`slistHead, this`minPriority, this`tskNum, this`halted
      modifies this`ranks, this`shape, this`cur
      modifies nodes`ready, nodes`dynamicPrio, nodes`left, nodes`right, nodes`parent, nodes`sortNext, nodes`sortPrev
      ensures halted <==> Follow(FRESH, Starts(keys[..i + 1])).None?
      ensures !halted ==> StartedTo(keys, i + 1)
    {
      hide Lists, Sorted, Ranked, Put, Keyed, Grown, Alike, LastFirst, Follow, Shows;
      ghost var l, t, r, m, n := Follow(FRESH, Starts(keys[..i])).value, shape, ranks, minPriority, tskNum;
      Start(i + 1, l);
      StartedLast(t, r, m, n, i, keys);
      StartsFollow(l, keys, i);
    }

    lemma StartsFollow(l: Line, keys: seq<int>, i: nat)
      requires i < |keys| && Follow(FRESH, Starts(keys[..i])) == Some(l)
      ensures Follow(FRESH, Starts(keys[..i + 1])) == Put(l, keys[i])
    {
      assert keys[..i + 1] == keys[..i] + [keys[i]];
      StartsNext(keys[..i], keys[i]);
      FollowNext(FRESH, Starts(keys[..i]), Event.Start(keys[i], false));
    }

    lemma NoneStarted(keys: seq<int>)
      requires Valid() && shape == Leaf && |keys| < |nodes| && minPriority == -1 && tskNum == 0
      requires forall y: nat | 0 < y <= |keys| :: nodes[y].key == keys[y - 1]
      requires |keys| > 0 ==> Clear(1)
      ensures StartedTo(keys, 0)
    {
      FreshShows();
    }

    lemma AllStarted(keys: seq<int>)
      requires StartedTo(keys, |keys|)
      ensures Follow(FRESH, Starts(keys)).Some?
      ensures Valid() && Shows(Follow(FRESH, Starts(keys)).value) && (Alike(keys) ==> LastFirst(shape, |keys|))
    {
      assert keys[..|keys|] == keys;
    }

    /** Tasks 1 to n started one after the other. */
    method StartAll(n: nat, ghost keys: seq<int>)
      requires Valid() && !halted && shape == Leaf && n == |keys| < |nodes| && minPriority == -1 && tskNum == 0
      requires forall y: nat | 0 < y <= n :: nodes[y].key == keys[y - 1]
      requires n > 0 ==> Clear(1)
      modifies this`treeHead, this`slistHead, this`minPriority, this`tskNum, this`halted
      modifies this`ranks, this`shape, this`cur
      modifies nodes`ready, nodes`dynamicPrio, nodes`left, nodes`right, nodes`parent, nodes`sortNext, nodes`sortPrev
      ensures halted <==> Follow(FRESH, Starts(keys)).None?
      ensures !halted ==> Valid() && Shows(Follow(FRESH, Starts(keys)).value)
      ensures !halted && Alike(keys) ==> LastFirst(shape, n)
    {
      hide Valid, StartedTo, Shows, Follow, Alike, LastFirst;
      NoneStarted(keys);
      for i := 0 to n
        invariant !halted && StartedTo(keys, i)
      {
        StartNext(i, keys);
        if halted {
          StartsHalt(FRESH, keys, i + 1);
          return;
        }
      }
      AllStarted(keys);
    }

    method LeaveBoth()
      requires Valid() && !halted && Running() && initQue
      requires Shows(Line([0, 1], 1, 3, 1)) && |nodes| == 3 && nodes[1].key == 0 && nodes[2].key == 1
      modifies this, nodes`ready, nodes`left, nodes`right, nodes`parent, nodes`sortNext, nodes`sortPrev
      ensures Valid() && !halted && Shows(Line([], 1, 3, 1)) && nodes[1].sortNext == nodes[2]
      ensures shape == Leaf && !nodes[1].ready
    {
      hide Hangs, Lists, Sorted, Ranked;
      FirstLink();
      TwoLines();
      Leave(Line([0, 1], 1, 3, 1));
      SecondLeft();
      Leave(Line([1], 2, 3, 1));
    }

    lemma SecondLeft()
      requires Valid() && Shows(Line([1], 2, 3, 1)) && |nodes| == 3 && nodes[1].key == 0
      ensures 1 !in Order()
    {
      var s := Order();
      assert s == [s[0]] && nodes[s[0]].key == 1;
    }

    /** Tasks 1 and 2 in the list, in that order. */
    lemma FirstLink()
      requires Valid() && Shows(Line([0, 1], 1, 3, 1)) && |nodes| == 3 && nodes[1].key == 0 && nodes[2].key == 1
      ensures Order() == [1, 2] && nodes[1].sortNext == nodes[2]
    {
      var s := Order();
      WalkIds(shape);
      assert s[0] in Ids(shape) && s[1] in Ids(shape) && nodes[s[0]].key == 0 && nodes[s[1]].key == 1;
      assert LinkedAt(s, 0);
    }
  }

  /** A fresh kernel in which only the init task is ready. */
  method InitTree(keys: seq<int>) returns (s: ReadyTree)
    requires |keys| > 0
    ensures fresh(s) && fresh(s.nodes) && s.Valid() && !s.halted && s.initQue && s.shape == Leaf
    ensures |s.nodes| == |keys| && s.minPriority == -1 && s.tskNum == 0
    ensures forall y: nat | y < |keys| :: s.nodes[y].key == keys[y] && s.Clear(y)
  {
    s := new ReadyTree(keys);
    assert forall y: nat | y < |keys| :: Fresh(s.nodes[y], y, keys[y]);
    s.StartInit();
  }

  /** n equal tasks in a fresh kernel, all charged c for every quantum: with at most 14 of them the kernel
      goes on for ever, and with more it has halted after 18 quanta. */
  method EqualTasks(n: nat, k: int, c: int, quanta: nat) returns (s: ReadyTree)
    requires c >= 0
    ensures n <= 14 ==> !s.halted
    ensures n >= 15 && quanta >= 18 ==> s.halted
  {
    s := StartEqual(n, k);
    FreshForever(n, k, c, quanta);
    FollowOn(FRESH, Same(Event.Start(k, false), n), Charges(Same(c, quanta)));
    FreshLine(n, k);
    if !s.halted { var done := s.Expiries(Same(c, quanta), FreshTasks(n, k)); }
  }

  /** n equal tasks started in a fresh kernel: the first one runs, the last one comes next. */
  method StartEqual(n: nat, k: int) returns (s: ReadyTree)
    ensures fresh(s) && fresh(s.nodes) && (s.halted <==> n >= PRIORITY_NUM)
    ensures !s.halted ==> s.Valid() && s.Running() && s.Shows(FreshTasks(n, k)) && LastFirst(s.shape, n)
  {
    hide ReadyTree.Hangs, ReadyTree.Lists, ReadyTree.Sorted, ReadyTree.Ranked, ReadyTree.Flagged;
    s := InitTree([k] + Same(k, n));
    s.StartAll(n, Same(k, n));
    SameStarts(k, n);
    FreshLine(n, k);
    if !s.halted { s.PickNext(); }
  }

  /** Tasks 1 and 2, started in a fresh kernel with execution times 0 and 3. */
  method TwoTasks() returns (s: ReadyTree)
    ensures fresh(s) && fresh(s.nodes) && s.Valid() && !s.halted && s.Running() && s.Shows(Line([0, 3], 1, 3, 1))
  {
    hide ReadyTree.Hangs, ReadyTree.Lists, ReadyTree.Sorted, ReadyTree.Ranked, ReadyTree.Flagged;
    s := new ReadyTree([9, 0, 3]);
    assert Fresh(s.nodes[1], 1, 0) && Fresh(s.nodes[2], 2, 3);
    s.StartAll(2, [0, 3]);
    TwoStart();
    s.PickNext();
  }

  /** Those two, charged 2 for every quantum. */
  method TwoTasksStarve() returns (s: ReadyTree, done: nat)
    ensures s.halted && done <= 31 && Follow(Line([0, 3], 1, 3, 1), Charges(Same(2, done))).None?
    ensures s.tskNum == 1 + done
  {
    s := TwoTasks();
    done := s.StarveTwo();
  }

  /** Two tasks run and leave, the first one with a sort link that leads to the second.  The first one,
      started again when no task is ready, brings the second back into the list. */
  method StaleStart() returns (s: ReadyTree)
    ensures !s.halted && s.Shows(Line([0], 1, 3, 1)) && !s.Valid()
  {
    hide ReadyTree.Hangs, ReadyTree.Lists, ReadyTree.Sorted, ReadyTree.Ranked, ReadyTree.Flagged;
    s := InitAndTwo();
    TwoLines();
    s.LeaveBoth();
    s.Start(1, Line([], 1, 3, 1));
  }

  method InitAndTwo() returns (s: ReadyTree)
    ensures fresh(s) && fresh(s.nodes) && s.Valid() && !s.halted && s.Running() && s.initQue
    ensures s.Shows(Line([0, 1], 1, 3, 1)) && |s.nodes| == 3 && s.nodes[1].key == 0 && s.nodes[2].key == 1
  {
    hide ReadyTree.Hangs, ReadyTree.Lists, ReadyTree.Sorted, ReadyTree.Ranked, ReadyTree.Flagged, ReadyTree.Running;
    hide ReadyTree.Shows, Alike, LastFirst;
    s := InitTree([9, 0, 1]);
    s.StartAll(2, [0, 1]);
    TwoLines();
    s.PickNext();
  }

  /** Two tasks with the keys 0 and 1 are started, run, leave, and come back: the kernel is down. */
  method StaleStarve() returns (s: ReadyTree)
    ensures s.halted && |s.nodes| == 3
  {
    s := InitAndTwo();
    s.AllReturn(Line([0, 1], 1, 3, 1));
  }
}
