/** Binary trees of task IDs, and what hanging in or taking out a task does to the in-order walk and
    to every task's neighbours in the tree. */
module Trees {
  import opened KernelState

  datatype Tree = Leaf | Branch(left: Tree, node: nat, right: Tree)

  /** The tasks from left to right. */
  function Walk(t: Tree): (r: seq<nat>) {
    match t
    case Leaf => []
    case Branch(l, x, r) => Walk(l) + [x] + Walk(r)
  }

  function Ids(t: Tree): (r: set<nat>) {
    match t
    case Leaf => {}
    case Branch(l, x, r) => Ids(l) + {x} + Ids(r)
  }

  lemma {:induction false} WalkIds(t: Tree)
    ensures forall y :: y in Walk(t) <==> y in Ids(t)
  {
    if t.Branch? {
      WalkIds(t.left);
      WalkIds(t.right);
    }
  }

  lemma {:induction false} WalkLength(t: Tree)
    requires Proper(t)
    ensures |Walk(t)| == |Ids(t)|
  {
    if t.Branch? {
      WalkLength(t.left);
      WalkLength(t.right);
    }
  }

  /** The numbers from 1 to n. */
  function UpTo(n: nat): (r: set<nat>)
    ensures |r| == n && forall y: nat :: y in r <==> 0 < y <= n
  {
    if n == 0 then {} else UpTo(n - 1) + {n}
  }

  lemma {:induction false} SubsetSize(a: set<nat>, b: set<nat>)
    requires a <= b
    ensures |a| <= |b|
  {
    if a != {} {
      var x :| x in a;
      SubsetSize(a - {x}, b - {x});
    }
  }

  function Root(t: Tree): (r: Option<nat>) {
    if t.Leaf? then None else Some(t.node)
  }

  /** No task stands twice in the tree. */
  ghost predicate Proper(t: Tree) {
    match t
    case Leaf => true
    case Branch(l, x, r) =>
      && Proper(l) && Proper(r)
      && x !in Ids(l) && x !in Ids(r) && Ids(l) !! Ids(r)
  }

  // ---- Neighbours ------------------------------------------------------------------------------

  function LeftOf(t: Tree, y: nat): (r: Option<nat>) {
    match t
    case Leaf => None
    case Branch(l, x, r) =>
      if y == x then Root(l) else if y in Ids(l) then LeftOf(l, y) else LeftOf(r, y)
  }

  function RightOf(t: Tree, y: nat): (r: Option<nat>) {
    match t
    case Leaf => None
    case Branch(l, x, r) =>
      if y == x then Root(r) else if y in Ids(l) then RightOf(l, y) else RightOf(r, y)
  }

  function ParentOf(t: Tree, y: nat): (r: Option<nat>) {
    match t
    case Leaf => None
    case Branch(l, x, r) =>
      if y == x then None
      else if Root(l) == Some(y) || Root(r) == Some(y) then Some(x)
      else if y in Ids(l) then ParentOf(l, y) else ParentOf(r, y)
  }

  /** The walk before and after task p. */
  function Before(t: Tree, p: nat): (r: seq<nat>) {
    match t
    case Leaf => []
    case Branch(l, x, r) =>
      if p == x then Walk(l) else if p in Ids(l) then Before(l, p) else Walk(l) + [x] + Before(r, p)
  }

  function After(t: Tree, p: nat): (r: seq<nat>) {
    match t
    case Leaf => []
    case Branch(l, x, r) =>
      if p == x then Walk(r) else if p in Ids(l) then After(l, p) + [x] + Walk(r) else After(r, p)
  }

  lemma {:induction false} WalkSplit(t: Tree, p: nat)
    requires p in Ids(t)
    ensures Walk(t) == Before(t, p) + [p] + After(t, p)
  {
    if p != t.node {
      if p in Ids(t.left) { WalkSplit(t.left, p); } else { WalkSplit(t.right, p); }
    }
  }

  lemma {:induction false} WalkNoDup(t: Tree)
    requires Proper(t)
    ensures NoDup(Walk(t))
  {
    if t.Branch? {
      WalkNoDup(t.left);
      WalkNoDup(t.right);
      WalkIds(t.left);
      WalkIds(t.right);
      var w, n := Walk(t), |Walk(t.left)|;
      assert forall i | 0 <= i < n :: w[i] == Walk(t.left)[i] && w[i] in Walk(t.left);
      assert forall i | n < i < |w| :: w[i] == Walk(t.right)[i - n - 1] && w[i] in Walk(t.right);
    }
  }

  /** Neighbours are in the tree, and a child's parent is the task it is a child of. */
  lemma {:induction false} Neighbours(t: Tree, y: nat)
    requires Proper(t) && y in Ids(t)
    ensures LeftOf(t, y).Some? ==> LeftOf(t, y).value in Ids(t) && ParentOf(t, LeftOf(t, y).value) == Some(y)
    ensures RightOf(t, y).Some? ==> RightOf(t, y).value in Ids(t) && ParentOf(t, RightOf(t, y).value) == Some(y)
    ensures ParentOf(t, y).Some? ==>
              var p := ParentOf(t, y).value;
              p in Ids(t) && (LeftOf(t, p) == Some(y) || RightOf(t, p) == Some(y)) && LeftOf(t, p) != RightOf(t, p)
    ensures ParentOf(t, y).None? <==> Root(t) == Some(y)
    ensures LeftOf(t, y) != Some(y) && RightOf(t, y) != Some(y) && ParentOf(t, y) != Some(y)
    ensures LeftOf(t, y).Some? ==> LeftOf(t, y) != RightOf(t, y)
    ensures ParentOf(t, y).Some? ==> ParentOf(t, y) != LeftOf(t, y) && ParentOf(t, y) != RightOf(t, y)
  {
    RootIn(t.left);
    RootIn(t.right);
    if y != t.node {
      if y in Ids(t.left) { Neighbours(t.left, y); } else { Neighbours(t.right, y); }
    }
  }

  lemma RootIn(t: Tree)
    ensures t.Branch? ==> t.node in Ids(t)
  {
  }

  // ---- Subtrees --------------------------------------------------------------------------------

  ghost predicate Within(sub: Tree, t: Tree) {
    sub == t || (t.Branch? && (Within(sub, t.left) || Within(sub, t.right)))
  }

  lemma {:induction false} WithinNeighbours(sub: Tree, t: Tree)
    requires Proper(t) && Within(sub, t) && sub.Branch?
    ensures Ids(sub) <= Ids(t)
    ensures LeftOf(t, sub.node) == Root(sub.left) && RightOf(t, sub.node) == Root(sub.right)
  {
    if sub != t {
      if Within(sub, t.left) { WithinNeighbours(sub, t.left); } else { WithinNeighbours(sub, t.right); }
    }
  }

  lemma {:induction false} WithinChildren(sub: Tree, t: Tree)
    requires Within(sub, t) && sub.Branch?
    ensures Within(sub.left, t) && Within(sub.right, t)
  {
    if sub != t {
      if Within(sub, t.left) { WithinChildren(sub, t.left); } else { WithinChildren(sub, t.right); }
    }
  }

  /** The subtree with root x. */
  function Subtree(t: Tree, x: nat): (sub: Tree)
    ensures x in Ids(t) ==> Within(sub, t) && sub.Branch? && sub.node == x
  {
    match t
    case Leaf => Leaf
    case Branch(l, y, r) =>
      if y == x then t else Subtree(if x in Ids(l) then l else r, x)
  }

  /** There is only one. */
  lemma {:induction false} SubtreeUnique(sub: Tree, t: Tree)
    requires Proper(t) && Within(sub, t) && sub.Branch?
    ensures Subtree(t, sub.node) == sub
  {
    if sub != t {
      if Within(sub, t.left) {
        WithinNeighbours(sub, t.left);
        SubtreeUnique(sub, t.left);
      } else {
        WithinNeighbours(sub, t.right);
        SubtreeUnique(sub, t.right);
      }
    }
  }

  /** The root stands in no subtree but the whole tree. */
  lemma RootOnTop(t: Tree, x: nat)
    requires Proper(t) && x in Ids(t) && t.node in Ids(Subtree(t, x))
    ensures x == t.node
  {
    if x != t.node {
      var s := if x in Ids(t.left) then t.left else t.right;
      WithinNeighbours(Subtree(s, x), s);
    }
  }

  lemma {:induction false} ProperWithin(sub: Tree, t: Tree)
    requires Proper(t) && Within(sub, t)
    ensures Proper(sub)
  {
    if sub != t {
      if Within(sub, t.left) { ProperWithin(sub, t.left); } else { ProperWithin(sub, t.right); }
    }
  }

  /** A task that stands once splits the walk in one way only. */
  lemma SplitUnique(a: seq<nat>, p: nat, b: seq<nat>, a': seq<nat>, b': seq<nat>)
    requires a + [p] + b == a' + [p] + b' && NoDup(a + [p] + b)
    ensures a == a' && b == b'
  {
    var s := a + [p] + b;
    assert s[|a|] == p && s[|a'|] == p;
    assert a == s[..|a|] && a' == s[..|a'|] && b == s[|a| + 1..] && b' == s[|a'| + 1..];
  }

  /** Where the walk of a subtree lies in the whole walk decides what comes before its root. */
  lemma SubtreeSplit(t: Tree, sub: Tree, pre: seq<nat>, post: seq<nat>)
    requires Proper(t) && Within(sub, t) && sub.Branch? && Walk(t) == pre + Walk(sub) + post
    ensures Before(t, sub.node) == pre + Walk(sub.left)
    ensures After(t, sub.node) == Walk(sub.right) + post
    ensures Walk(t) == pre + Walk(sub.left) + [sub.node] + (Walk(sub.right) + post)
  {
    WithinNeighbours(sub, t);
    WalkSplit(t, sub.node);
    WalkNoDup(t);
    Regroup3(pre, Walk(sub.left), sub.node, Walk(sub.right), post);
    SplitUnique(pre + Walk(sub.left), sub.node, Walk(sub.right) + post, Before(t, sub.node), After(t, sub.node));
  }

  lemma Regroup3(pre: seq<nat>, l: seq<nat>, x: nat, r: seq<nat>, post: seq<nat>)
    ensures pre + (l + [x] + r) + post == pre + l + [x] + (r + post)
  {
  }

  // ---- Hanging in a task -----------------------------------------------------------------------

  /** Task x as the left child of p, which has none. */
  function PutLeft(t: Tree, p: nat, x: nat): (r: Tree) {
    match t
    case Leaf => Leaf
    case Branch(l, y, r) =>
      if y == p then Branch(Branch(Leaf, x, Leaf), y, r)
      else if p in Ids(l) then Branch(PutLeft(l, p, x), y, r)
      else Branch(l, y, PutLeft(r, p, x))
  }

  /** Task x as the right child of p; the right child that p had goes below x. */
  function PutRight(t: Tree, p: nat, x: nat): (r: Tree) {
    match t
    case Leaf => Leaf
    case Branch(l, y, r) =>
      if y == p then Branch(l, y, Branch(Leaf, x, r))
      else if p in Ids(l) then Branch(PutRight(l, p, x), y, r)
      else Branch(l, y, PutRight(r, p, x))
  }

  datatype Side = ToLeft | ToRight

  /** Task x on the given side of p. */
  function PutAt(t: Tree, p: nat, side: Side, x: nat): (r: Tree) {
    if side == ToLeft then PutLeft(t, p, x) else PutRight(t, p, x)
  }

  /** Its position in the walk. */
  function Position(t: Tree, p: nat, side: Side): (i: nat) {
    |Before(t, p)| + if side == ToLeft then 0 else 1
  }

  lemma {:induction false} PutLeftIds(t: Tree, p: nat, x: nat)
    requires Proper(t) && p in Ids(t) && x !in Ids(t) && LeftOf(t, p) == None
    ensures Proper(PutLeft(t, p, x)) && Root(PutLeft(t, p, x)) == Root(t)
    ensures Ids(PutLeft(t, p, x)) == Ids(t) + {x}
  {
    if p == t.node {
      assert Ids(Branch(Leaf, x, Leaf)) == {x};
    } else if p in Ids(t.left) {
      PutLeftIds(t.left, p, x);
    } else {
      PutLeftIds(t.right, p, x);
    }
  }

  lemma {:induction false} PutLeftWalk(t: Tree, p: nat, x: nat)
    requires Proper(t) && p in Ids(t) && x !in Ids(t) && LeftOf(t, p) == None
    ensures Walk(PutLeft(t, p, x)) == Before(t, p) + [x, p] + After(t, p)
  {
    if p == t.node {
      assert Walk(Branch(Leaf, x, Leaf)) == [x];
    } else if p in Ids(t.left) {
      PutLeftWalk(t.left, p, x);
    } else {
      PutLeftWalk(t.right, p, x);
    }
  }

  lemma {:induction false} PutRightIds(t: Tree, p: nat, x: nat)
    requires Proper(t) && p in Ids(t) && x !in Ids(t)
    ensures Proper(PutRight(t, p, x)) && Root(PutRight(t, p, x)) == Root(t)
    ensures Ids(PutRight(t, p, x)) == Ids(t) + {x}
  {
    if p == t.node {
      assert Ids(Branch(Leaf, x, t.right)) == {x} + Ids(t.right);
    } else if p in Ids(t.left) {
      PutRightIds(t.left, p, x);
    } else {
      PutRightIds(t.right, p, x);
    }
  }

  lemma {:induction false} PutRightWalk(t: Tree, p: nat, x: nat)
    requires Proper(t) && p in Ids(t) && x !in Ids(t)
    ensures Walk(PutRight(t, p, x)) == Before(t, p) + [p, x] + After(t, p)
  {
    if p == t.node {
      assert Walk(Branch(Leaf, x, t.right)) == [x] + Walk(t.right);
      assert [p] + ([x] + Walk(t.right)) == [p, x] + Walk(t.right);
    } else if p in Ids(t.left) {
      PutRightWalk(t.left, p, x);
    } else {
      PutRightWalk(t.right, p, x);
    }
  }

  lemma {:induction false} PutLeftNeighbours(t: Tree, p: nat, x: nat, y: nat)
    requires Proper(t) && p in Ids(t) && x !in Ids(t) && LeftOf(t, p) == None && (y == x || y in Ids(t))
    ensures var t' := PutLeft(t, p, x);
            && LeftOf(t', y) == (if y == p then Some(x) else if y == x then None else LeftOf(t, y))
            && RightOf(t', y) == (if y == x then None else RightOf(t, y))
            && ParentOf(t', y) == (if y == x then Some(p) else ParentOf(t, y))
  {
    RootIn(t.left);
    RootIn(t.right);
    if p != t.node {
      if p in Ids(t.left) {
        PutLeftIds(t.left, p, x);
        if y == x || y in Ids(t.left) { PutLeftNeighbours(t.left, p, x, y); }
      } else {
        PutLeftIds(t.right, p, x);
        if y == x || y in Ids(t.right) { PutLeftNeighbours(t.right, p, x, y); }
      }
    }
  }

  lemma {:induction false} PutRightNeighbours(t: Tree, p: nat, x: nat, y: nat)
    requires Proper(t) && p in Ids(t) && x !in Ids(t) && (y == x || y in Ids(t))
    ensures var t' := PutRight(t, p, x);
            && LeftOf(t', y) == (if y == x then None else LeftOf(t, y))
            && RightOf(t', y) == (if y == p then Some(x) else if y == x then RightOf(t, p) else RightOf(t, y))
            && ParentOf(t', y) == (if y == x then Some(p)
                                   else if RightOf(t, p) == Some(y) then Some(x) else ParentOf(t, y))
  {
    RootIn(t.left);
    RootIn(t.right);
    if p != t.node {
      if p in Ids(t.left) {
        Neighbours(t.left, p);
        PutRightIds(t.left, p, x);
        if y == x || y in Ids(t.left) { PutRightNeighbours(t.left, p, x, y); }
      } else {
        Neighbours(t.right, p);
        PutRightIds(t.right, p, x);
        if y == x || y in Ids(t.right) { PutRightNeighbours(t.right, p, x, y); }
      }
    }
  }

  /** t' is t with x as the right child of p, in the place of the child that p had. */
  ghost predicate GrewRight(t: Tree, p: nat, x: nat, t': Tree) {
    && Proper(t') && Root(t') == Root(t) && Ids(t') == Ids(t) + {x}
    && (forall y | y in Ids(t') ::
          && LeftOf(t', y) == (if y == x then None else LeftOf(t, y))
          && RightOf(t', y) == (if y == p then Some(x) else if y == x then RightOf(t, p) else RightOf(t, y))
          && ParentOf(t', y) ==
             (if y == x then Some(p) else if RightOf(t, p) == Some(y) then Some(x) else ParentOf(t, y)))
  }

  lemma PutRightGrows(t: Tree, p: nat, x: nat)
    requires Proper(t) && p in Ids(t) && x !in Ids(t)
    ensures GrewRight(t, p, x, PutRight(t, p, x))
  {
    PutRightIds(t, p, x);
    forall y | y in Ids(PutRight(t, p, x))
      ensures LeftOf(PutRight(t, p, x), y) == (if y == x then None else LeftOf(t, y))
      ensures RightOf(PutRight(t, p, x), y) ==
              (if y == p then Some(x) else if y == x then RightOf(t, p) else RightOf(t, y))
      ensures ParentOf(PutRight(t, p, x), y) ==
              (if y == x then Some(p) else if RightOf(t, p) == Some(y) then Some(x) else ParentOf(t, y))
    {
      PutRightNeighbours(t, p, x, y);
    }
  }

  // ---- Taking out a task -----------------------------------------------------------------------

  /** Task x has at most one child, or its left child has no right child. */
  predicate Removable(t: Tree, x: nat) {
    LeftOf(t, x) == None || RightOf(t, x) == None || RightOf(t, LeftOf(t, x).value) == None
  }

  /** What takes the place of the subtree with root x. */
  function Joined(l: Tree, r: Tree): (s: Tree) {
    if l.Leaf? then r else if r.Leaf? then l else Branch(l.left, l.node, r)
  }

  function Remove(t: Tree, x: nat): (r: Tree) {
    match t
    case Leaf => Leaf
    case Branch(l, y, r) =>
      if y == x then Joined(l, r)
      else if x in Ids(l) then Branch(Remove(l, x), y, r)
      else Branch(l, y, Remove(r, x))
  }

  /** The task that takes the place of x. */
  function Heir(t: Tree, x: nat): (r: Option<nat>) {
    if LeftOf(t, x) == None then RightOf(t, x) else LeftOf(t, x)
  }

  lemma {:induction false} RemoveIds(t: Tree, x: nat)
    requires Proper(t) && x in Ids(t) && Removable(t, x)
    ensures Proper(Remove(t, x)) && Ids(Remove(t, x)) == Ids(t) - {x}
    ensures Root(Remove(t, x)) == if Root(t) == Some(x) then Heir(t, x) else Root(t)
  {
    if x == t.node {
      JoinedIds(t.left, x, t.right);
    } else if x in Ids(t.left) {
      Neighbours(t.left, x);
      RemoveIds(t.left, x);
    } else {
      Neighbours(t.right, x);
      RemoveIds(t.right, x);
    }
  }

  lemma {:induction false} RemoveWalk(t: Tree, x: nat)
    requires Proper(t) && x in Ids(t) && Removable(t, x)
    ensures Walk(Remove(t, x)) == Before(t, x) + After(t, x)
  {
    if x == t.node {
      JoinedWalk(t.left, x, t.right);
    } else if x in Ids(t.left) {
      Neighbours(t.left, x);
      RemoveWalk(t.left, x);
    } else {
      Neighbours(t.right, x);
      RemoveWalk(t.right, x);
    }
  }

  lemma JoinedIds(l: Tree, x: nat, r: Tree)
    requires Proper(Branch(l, x, r)) && Removable(Branch(l, x, r), x)
    ensures Proper(Joined(l, r)) && Ids(Joined(l, r)) == Ids(l) + Ids(r)
  {
    if l.Branch? && r.Branch? { assert RightOf(Branch(l, x, r), l.node) == Root(l.right); }
  }

  lemma JoinedWalk(l: Tree, x: nat, r: Tree)
    requires Proper(Branch(l, x, r)) && Removable(Branch(l, x, r), x)
    ensures Walk(Joined(l, r)) == Walk(l) + Walk(r)
  {
    if l.Branch? && r.Branch? {
      assert RightOf(Branch(l, x, r), l.node) == Root(l.right);
      assert Walk(l) == Walk(l.left) + [l.node];
    }
  }

  /** Task y's neighbours after x is gone: the heir takes the place of x, and if x had two children
      the heir, its left child, takes the right one over. */
  ghost predicate Inherits(t: Tree, x: nat, y: nat) {
    var t', h := Remove(t, x), Heir(t, x);
    && LeftOf(t', y) == (if LeftOf(t, y) == Some(x) then h else LeftOf(t, y))
    && RightOf(t', y) == (if RightOf(t, y) == Some(x) then h
                          else if LeftOf(t, x) == Some(y) && RightOf(t, x) != None then RightOf(t, x)
                          else RightOf(t, y))
    && ParentOf(t', y) == (if h == Some(y) then ParentOf(t, x)
                           else if RightOf(t, x) == Some(y) then h
                           else ParentOf(t, y))
  }

  lemma {:induction false} RemoveNeighbours(t: Tree, x: nat, y: nat)
    requires Proper(t) && x in Ids(t) && Removable(t, x) && y in Ids(t) && y != x
    ensures Inherits(t, x, y)
  {
    if x == t.node {
      RootHeir(t, y);
    } else if x in Ids(t.left) {
      Neighbours(t.left, x);
      if y in Ids(t.left) { RemoveNeighbours(t.left, x, y); }
      InheritsLeft(t, x, y);
    } else {
      Neighbours(t.right, x);
      if y in Ids(t.right) { RemoveNeighbours(t.right, x, y); }
      InheritsRight(t, x, y);
    }
  }

  lemma InheritsLeft(t: Tree, x: nat, y: nat)
    requires Proper(t) && t.Branch? && x in Ids(t.left) && Removable(t.left, x) && y in Ids(t) && y != x
    requires y in Ids(t.left) ==> Inherits(t.left, x, y)
    ensures Inherits(t, x, y)
  {
    RootIn(t.left);
    RootIn(t.right);
    Neighbours(t.left, x);
    RemoveIds(t.left, x);
    if y in Ids(t.left) {
      assert y != t.node && y !in Ids(t.right);
    } else if y != t.node {
      Neighbours(t.right, y);
      assert y in Ids(t.right);
    } else {
      assert LeftOf(t, y) == Root(t.left);
    }
  }

  lemma InheritsRight(t: Tree, x: nat, y: nat)
    requires Proper(t) && t.Branch? && x in Ids(t.right) && Removable(t.right, x) && y in Ids(t) && y != x
    requires y in Ids(t.right) ==> Inherits(t.right, x, y)
    ensures Inherits(t, x, y)
  {
    RootIn(t.left);
    RootIn(t.right);
    Neighbours(t.right, x);
    RemoveIds(t.right, x);
    if y in Ids(t.right) {
      assert y != t.node && y !in Ids(t.left);
    } else if y != t.node {
      Neighbours(t.left, y);
      assert y in Ids(t.left);
    } else {
      assert RightOf(t, y) == Root(t.right);
    }
  }

  lemma RootHeir(t: Tree, y: nat)
    requires Proper(t) && t.Branch? && Removable(t, t.node) && y in Ids(t) && y != t.node
    ensures var t', h := Joined(t.left, t.right), Heir(t, t.node);
            && LeftOf(t', y) == LeftOf(t, y)
            && RightOf(t', y) == (if Root(t.left) == Some(y) && Root(t.right) != None then Root(t.right)
                                  else RightOf(t, y))
            && ParentOf(t', y) == (if h == Some(y) then None
                                   else if Root(t.right) == Some(y) then h
                                   else ParentOf(t, y))
    ensures LeftOf(t, y) != Some(t.node) && RightOf(t, y) != Some(t.node)
  {
    RootIn(t.left);
    RootIn(t.right);
    if y in Ids(t.left) { Neighbours(t.left, y); } else { Neighbours(t.right, y); }
  }

  /** t' is t without x, whose heir has taken its place. */
  ghost predicate Shrunk(t: Tree, x: nat, t': Tree) {
    var h := Heir(t, x);
    && Proper(t') && Ids(t') == Ids(t) - {x}
    && Root(t') == (if Root(t) == Some(x) then h else Root(t))
    && (forall y | y in Ids(t') ::
          && LeftOf(t', y) == (if ParentOf(t, x) == Some(y) && LeftOf(t, y) == Some(x) then h else LeftOf(t, y))
          && RightOf(t', y) == (if LeftOf(t, x) == Some(y) && RightOf(t, x) != None then RightOf(t, x)
                                else if ParentOf(t, x) == Some(y) && LeftOf(t, y) != Some(x) then h
                                else RightOf(t, y))
          && ParentOf(t', y) == (if h == Some(y) then ParentOf(t, x)
                                 else if RightOf(t, x) == Some(y) then h
                                 else ParentOf(t, y)))
  }

  lemma RemoveShrinks(t: Tree, x: nat)
    requires Proper(t) && x in Ids(t) && Removable(t, x)
    ensures Shrunk(t, x, Remove(t, x))
  {
    RemoveIds(t, x);
    Neighbours(t, x);
    forall y | y in Ids(Remove(t, x)) ensures Inherits(t, x, y) && OnlyParent(t, x, y) {
      RemoveNeighbours(t, x, y);
      Neighbours(t, y);
    }
  }

  /** Only the parent of x has it as a child. */
  ghost predicate OnlyParent(t: Tree, x: nat, y: nat) {
    && (LeftOf(t, y) == Some(x) ==> ParentOf(t, x) == Some(y) && RightOf(t, y) != Some(x))
    && (RightOf(t, y) == Some(x) ==> ParentOf(t, x) == Some(y))
  }

  /** The first task of the walk has no left child. */
  lemma {:induction false} FirstHasNoLeft(t: Tree)
    requires Proper(t) && t.Branch?
    ensures Before(t, Walk(t)[0]) == [] && LeftOf(t, Walk(t)[0]) == None
  {
    if t.left.Branch? {
      FirstHasNoLeft(t.left);
      assert Walk(t)[0] == Walk(t.left)[0];
    }
  }
}
