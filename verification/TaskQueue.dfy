/** The doubly linked queue that the kernel threads through its control blocks.

    A task control block embeds two pairs of links, one for the ready queues and one for the wait
    queues; a message packet embeds one pair.  Every queue head block holds a head and a tail
    pointer.  The same four operations are written out in the source for each kind of queue. */
module TaskQueues {

  /** A next/prev pair, as embedded in a task control block or in a message packet. */
  class Link {
    var next: Link?
    var prev: Link?
    const id: nat       // the task (or packet) that embeds the pair
    const ready: bool   // true for the ready links of a task
    ghost var at: TaskQueue?    // the queue it hangs in

    constructor (id: nat, ready: bool)
      ensures this.id == id && this.ready == ready
      ensures Free()
    {
      this.id, this.ready := id, ready;
      next, prev, at := null, null, null;
    }

    /** Clear links, in no queue. */
    ghost predicate Free()
      reads this
    {
      next == null && prev == null && at == null
    }
  }

  /** The sequence s without its element at position k. */
  function Without<T>(s: seq<T>, k: nat): (r: seq<T>)
    requires k < |s|
    ensures |r| == |s| - 1
  {
    s[..k] + s[k + 1..]
  }

  /** Position k of s is the first of the best priority, a smaller number being a better one. */
  ghost predicate FirstBest(s: seq<Link>, pri: nat -> int, k: nat) {
    && k < |s|
    && (forall j | 0 <= j < |s| :: pri(s[k].id) <= pri(s[j].id))
    && (forall j | 0 <= j < k :: pri(s[k].id) < pri(s[j].id))
  }

  /** Every operation leaves all other queues valid and every other clear link clear. */
  class TaskQueue {
    var head: Link?
    var tail: Link?
    ghost var items: seq<Link>

    /** From position k on, the links lead from item to item to the end, forwards and backwards. */
    ghost predicate LinkedFrom(k: nat)
      reads this, items
      decreases |items| - k
    {
      k < |items| ==> LinkedAt(k) && LinkedFrom(k + 1)
    }

    ghost predicate LinkedAt(k: nat)
      requires k < |items|
      reads this, items
    {
      && items[k].at == this
      && items[k].next == (if k + 1 < |items| then items[k + 1] else null)
      && items[k].prev == (if 0 < k then items[k - 1] else null)
    }

    ghost predicate Valid()
      reads this, items
    {
      && head == (if items == [] then null else items[0])
      && tail == (if items == [] then null else items[|items| - 1])
      && LinkedFrom(0)
    }

    /** The same, said of every position at once; it leaves no room for a repeated item. */
    ghost predicate Shape()
      reads this, items
    {
      && head == (if items == [] then null else items[0])
      && tail == (if items == [] then null else items[|items| - 1])
      && (forall i | 0 <= i < |items| :: LinkedAt(i))
      && (forall i, j | 0 <= i < j < |items| :: items[i] != items[j])
    }

    lemma ValidShape()
      ensures Valid() <==> Shape()
    {
      if Valid() {
        AllLinked(0);
        forall i, j | 0 <= i < j < |items| ensures items[i] != items[j] { Apart(i, j); }
      } else if Shape() {
        FromAll(0);
      }
    }

    lemma ItemAt(i: nat)
      requires Valid() && i < |items|
      ensures LinkedAt(i)
    {
      ValidShape();
    }

    lemma {:induction false} AllLinked(k: nat)
      requires LinkedFrom(k)
      ensures forall i | k <= i < |items| :: LinkedAt(i)
      decreases |items| - k
    {
      if k < |items| { AllLinked(k + 1); }
    }

    lemma {:induction false} FromAll(k: nat)
      requires forall i | k <= i < |items| :: LinkedAt(i)
      ensures LinkedFrom(k)
      decreases |items| - k
    {
      if k < |items| { FromAll(k + 1); }
    }

    /** A repeated item would have to have the end of the list as far behind it in both places. */
    lemma {:induction false} Apart(i: nat, j: nat)
      requires i < j < |items| && forall k | 0 <= k < |items| :: LinkedAt(k)
      ensures items[i] != items[j]
      decreases |items| - j
    {
      assert LinkedAt(i) && LinkedAt(j);
      if j + 1 < |items| { Apart(i + 1, j + 1); }
    }

    constructor ()
      ensures Valid() && items == []
    {
      head, tail, items := null, null, [];
    }

    /** In any state, the items of a valid queue hang in that queue and in no other. */
    lemma Owners()
      ensures forall o: TaskQueue {:trigger o.Valid()} | o.Valid() :: forall y | y in o.items :: y.at == o
    {
      forall o: TaskQueue, y | o.Valid() && y in o.items ensures y.at == o {
        o.ValidShape();
        var i :| 0 <= i < |o.items| && o.items[i] == y;
        assert o.LinkedAt(i);
      }
    }

    /** Append at the tail: mutex, semaphore, mailbox and ready queues alike. */
    method PutTail(x: Link)
      requires Valid() && x.Free()
      modifies this, x, items
      ensures Valid() && items == old(items) + [x]
      ensures forall o: TaskQueue {:trigger o.Valid()} | old(allocated(o)) && o != this && old(o.Valid()) :: o.Valid()
      ensures forall l: Link {:trigger l.Free()} | old(allocated(l)) && l != x && old(l.Free()) :: l.Free()
    {
      Owners();
      ValidShape();
      if tail != null {
        assert tail in items;
        x.prev := tail;
        tail.next := x;
      } else {
        head := x;
      }
      tail := x;
      x.at := this;
      items := items + [x];
      forall i | 0 <= i < |items| ensures LinkedAt(i) {
        if i < |items| - 1 { assert old(LinkedAt(i)); }
      }
      FromAll(0);
      forall o: TaskQueue | old(allocated(o)) && o != this && old(o.Valid()) ensures o.Valid() {
        assert forall y | y in o.items :: y != x && y !in old(items);
      }
    }

    /** Take out the head; a write through the new, possibly null, head is skipped. */
    method GetHead() returns (x: Link)
      requires Valid() && items != []
      modifies this, items
      ensures x == old(items[0]) && x.Free()
      ensures Valid() && items == old(items[1..])
      ensures forall o: TaskQueue {:trigger o.Valid()} | old(allocated(o)) && o != this && old(o.Valid()) :: o.Valid()
      ensures forall l: Link {:trigger l.Free()} | old(allocated(l)) && l != x && old(l.Free()) :: l.Free()
    {
      Owners();
      ValidShape();
      x := head;
      assert LinkedAt(0);
      head := x.next;
      if head != null { head.prev := null; }
      if head == null {
        tail := null;
      }
      x.next, x.prev, x.at := null, null, null;
      items := items[1..];
      forall i | 0 <= i < |items| ensures LinkedAt(i) {
        assert old(LinkedAt(i + 1));
      }
      FromAll(0);
    }

    /** Take out x wherever it stands: first, last or in the middle. */
    method Remove(x: Link, ghost k: nat)
      requires Valid() && k < |items| && items[k] == x
      modifies this, items
      ensures Valid() && items == Without(old(items), k) && x.Free()
      ensures forall o: TaskQueue {:trigger o.Valid()} | old(allocated(o)) && o != this && old(o.Valid()) :: o.Valid()
      ensures forall l: Link {:trigger l.Free()} | old(allocated(l)) && l != x && old(l.Free()) :: l.Free()
    {
      ValidShape();
      assert LinkedAt(k);
      if x == head {
        var y := GetHead();
      } else if x == tail {
        RemoveTail(x, k);
      } else {
        RemoveInner(x, k);
      }
    }

    method RemoveTail(x: Link, ghost k: nat)
      requires Valid() && 0 < k == |items| - 1 && items[k] == x
      modifies this, items
      ensures Valid() && items == Without(old(items), k) && x.Free()
      ensures forall o: TaskQueue {:trigger o.Valid()} | old(allocated(o)) && o != this && old(o.Valid()) :: o.Valid()
      ensures forall l: Link {:trigger l.Free()} | old(allocated(l)) && l != x && old(l.Free()) :: l.Free()
    {
      Owners();
      ValidShape();
      assert LinkedAt(k);
      assert x.prev in items;
      tail := x.prev;
      tail.next := null;
      x.next, x.prev, x.at := null, null, null;
      items := Without(items, k);
      forall i | 0 <= i < |items| ensures LinkedAt(i) {
        assert old(LinkedAt(i));
      }
      FromAll(0);
      forall o: TaskQueue | old(allocated(o)) && o != this && old(o.Valid()) ensures o.Valid() {
        assert forall y | y in o.items :: y != x && y !in old(items);
      }
    }

    method RemoveInner(x: Link, ghost k: nat)
      requires Valid() && 0 < k < |items| - 1 && items[k] == x
      modifies this, items
      ensures Valid() && items == Without(old(items), k) && x.Free()
      ensures forall o: TaskQueue {:trigger o.Valid()} | old(allocated(o)) && o != this && old(o.Valid()) :: o.Valid()
      ensures forall l: Link {:trigger l.Free()} | old(allocated(l)) && l != x && old(l.Free()) :: l.Free()
    {
      Owners();
      ValidShape();
      assert LinkedAt(k);
      assert x.prev in items && x.next in items;
      x.prev.next := x.next;
      x.next.prev := x.prev;
      x.next, x.prev, x.at := null, null, null;
      items := Without(items, k);
      forall i | 0 <= i < |items| ensures LinkedAt(i) {
        if i < k { assert old(LinkedAt(i)); } else { assert old(LinkedAt(i + 1)); }
      }
      FromAll(0);
      forall o: TaskQueue | old(allocated(o)) && o != this && old(o.Valid()) ensures o.Valid() {
        assert forall y | y in o.items :: y != x && y !in old(items);
      }
    }

    /** The search for the best item that every priority-ordered release makes: along the links up to
        the last item, which is looked at after the loop. */
    method ScanBest(pri: nat -> int) returns (best: Link, ghost i: nat)
      requires Valid() && items != []
      ensures FirstBest(items, pri, i) && best == items[i]
    {
      ItemAt(0);
      var work := head;
      ghost var k := 0;
      best, i := work, 0;
      while work.next != null
        invariant k < |items| && work == items[k] && LinkedAt(k) && i <= k && best == items[i]
        invariant forall j | 0 <= j < k :: pri(best.id) <= pri(items[j].id)
        invariant forall j | 0 <= j < i :: pri(best.id) < pri(items[j].id)
        decreases |items| - k
      {
        if pri(work.id) < pri(best.id) { best, i := work, k; }
        work, k := work.next, k + 1;
        ItemAt(k);
      }
      if pri(work.id) < pri(best.id) { best, i := work, k; }
    }
  }
}
