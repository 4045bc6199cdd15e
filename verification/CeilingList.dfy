/** The list of the immediate-highest-locker mutexes that raised their owners, threaded through the
    mutex control blocks.  It has a head but no tail. */
module CeilingLists {
  import opened TaskQueues
  import opened KernelState
  import opened KernelCalls

  /** The link pair of a mutex control block. */
  class PclLink {
    const m: nat
    var next: PclLink?
    var prev: PclLink?

    constructor (m: nat)
      ensures this.m == m && next == null && prev == null
    {
      this.m, next, prev := m, null, null;
    }
  }

  method MakePclLinks(n: nat) returns (r: seq<PclLink>)
    ensures |r| == n && fresh(r)
    ensures forall m | 0 <= m < n :: r[m].m == m && r[m].next == null && r[m].prev == null
  {
    r := [];
    while |r| < n
      invariant |r| <= n && fresh(r)
      invariant forall m | 0 <= m < |r| :: r[m].m == m && r[m].next == null && r[m].prev == null
    {
      var l := new PclLink(|r|);
      r := r + [l];
    }
  }

  class CeilingList {
    const blocks: seq<PclLink>      // by mutex
    var head: PclLink?
    ghost var items: seq<nat>       // the mutexes on the list, head first

    ghost predicate Table() {
      forall m | 0 <= m < |blocks| :: blocks[m].m == m
    }

    ghost predicate InTable(s: seq<nat>) {
      forall i | 0 <= i < |s| :: s[i] < |blocks|
    }

    ghost predicate LinkedAt(s: seq<nat>, i: nat)
      requires InTable(s) && i < |s|
      reads blocks
    {
      && blocks[s[i]].next == (if i + 1 < |s| then blocks[s[i + 1]] else null)
      && blocks[s[i]].prev == (if 0 < i then blocks[s[i - 1]] else null)
    }

    /** The links lead through the mutexes of items, forwards and backwards; all others are clear. */
    ghost predicate Valid()
      reads this, blocks
    {
      && Table() && InTable(items) && NoDup(items)
      && head == (if items == [] then null else blocks[items[0]])
      && (forall i {:trigger LinkedAt(items, i)} | 0 <= i < |items| :: LinkedAt(items, i))
      && (forall m {:trigger blocks[m]} | 0 <= m < |blocks| && m !in items ::
            blocks[m].next == null && blocks[m].prev == null)
    }

    constructor (n: nat)
      ensures Valid() && items == [] && |blocks| == n && fresh(blocks)
    {
      var ls := MakePclLinks(n);
      blocks, head, items := ls, null, [];
    }

    /** put_imhighest_loker_mtx */
    method PutHead(m: nat)
      requires Valid() && m < |blocks| && m !in items
      modifies this, blocks
      ensures Valid() && items == [m] + old(items)
    {
      var x := blocks[m];
      x.next, x.prev := head, null;
      if x.next != null { x.next.prev := x; }
      head := x;
      ghost var was := items;
      items := [m] + items;
      forall i | 0 <= i < |items| ensures LinkedAt(items, i) {
        if i > 0 { assert old(LinkedAt(items, i - 1)); }
      }
    }

    /** The link writes that take a block out. */
    method Bypass(x: PclLink)
      requires Table() && x.m < |blocks| && x == blocks[x.m] && x.next != x && x.prev != x
      requires (x.next != null ==> x.next in blocks) && (x.prev != null ==> x.prev in blocks)
      modifies this`head, blocks
      ensures head == if old(head) == x then old(x.next) else old(head)
      ensures x.next == null && x.prev == null
      ensures forall y {:trigger blocks[y].next} | 0 <= y < |blocks| && y != x.m :: blocks[y].next ==
                if old(head) != x && old(x.prev) == blocks[y] then old(x.next) else old(blocks[y].next)
      ensures forall y {:trigger blocks[y].prev} | 0 <= y < |blocks| && y != x.m :: blocks[y].prev ==
                if old(x.next) != blocks[y] then old(blocks[y].prev) else if old(head) == x then null else old(x.prev)
    {
      if x == head {
        head := x.next;
        if head != null { head.prev := null; }
      } else {
        if x.prev != null { x.prev.next := x.next; }
        if x.next != null { x.next.prev := x.prev; }
      }
      x.next, x.prev := null, null;
    }

    /** get_imhighest_loker_mtx: the links of a mutex that is not on the list are clear, so nothing
        happens to the others. */
    method Remove(m: nat)
      requires Valid() && m < |blocks|
      modifies this, blocks
      ensures Valid() && items == Unlist(old(items), m)
    {
      ghost var was, k := items, if m in items then IndexOf(items, m) else 0;
      assert m in was ==> LinkedAt(was, k);
      assert m !in was ==> blocks[m].next == null;
      Bypass(blocks[m]);
      items := Unlist(was, m);
      if m in was {
        assert items == Without(was, k);
        forall i | 0 <= i < |items| ensures LinkedAt(items, i) {
          assert old(LinkedAt(was, if i < k then i else i + 1));
        }
      } else {
        assert items == was;
        forall i | 0 <= i < |items| ensures LinkedAt(items, i) { assert old(LinkedAt(was, i)); }
      }
    }
  }
}
