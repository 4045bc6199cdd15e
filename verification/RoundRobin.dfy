/** The single ready queue of the round robin scheduler: time slices rotate it. */
module RoundRobinQueues {
  import opened TaskQueues
  import opened Bitmaps

  /** The queue s turned k places. */
  function Turned<T>(s: seq<T>, k: nat): (r: seq<T>)
    requires s != []
    ensures |r| == |s|
  {
    s[k % |s|..] + s[..k % |s|]
  }

  lemma TurnOnce<T>(s: seq<T>, k: nat)
    requires s != []
    ensures Turned(s, k + 1) == Turned(s, k)[1..] + [Turned(s, k)[0]]
  {
    var n, j := |s|, k % |s|;
    NextMod(k, n);
    assert Turned(s, k) == s[j..] + s[..j];
    assert s[j..] == [s[j]] + s[j + 1..];
  }

  lemma NextMod(k: nat, n: nat)
    requires n > 0
    ensures (k + 1) % n == if k % n + 1 == n then 0 else k % n + 1
  {
    var q := k / n;
    assert k + 1 == n * q + (k % n + 1);
    if k % n + 1 == n {
      assert k + 1 == n * (q + 1);
      ModIs(k + 1, n, q + 1, 0);
    } else {
      ModIs(k + 1, n, q, k % n + 1);
    }
  }

  lemma ModIs(a: nat, n: nat, q: nat, r: nat)
    requires r < n && a == n * q + r
    ensures a % n == r
  {
    QuotientUnique(a, n, q, r);
    assert a == n * (a / n) + a % n;
  }

  /** Whoever stands in the queue is at its head before it has gone round. */
  lemma EverybodyGetsHead<T>(s: seq<T>, x: T)
    requires x in s
    ensures exists k: nat :: k < |s| && Turned(s, k)[0] == x
  {
    var k: nat :| k < |s| && s[k] == x;
    ModIs(k, |s|, 0, k);
    assert Turned(s, k)[0] == x;
  }

  class SingleQueue {
    const que: TaskQueue
    var current: Link

    /** The running task is the head of the queue. */
    ghost predicate Valid()
      reads this, que, que.items
    {
      que.Valid() && que.items != [] && current == que.items[0]
    }

    /** A queue of the given tasks, the first of them running. */
    constructor (tasks: seq<Link>)
      requires tasks != [] && forall i, j | 0 <= i < j < |tasks| :: tasks[i] != tasks[j]
      requires forall i | 0 <= i < |tasks| :: tasks[i].Free()
      modifies tasks
      ensures Valid() && que.items == tasks && fresh(que)
    {
      var q := new TaskQueue();
      que, current := q, tasks[0];
      new;
      for i := 0 to |tasks|
        invariant que.Valid() && que.items == tasks[..i] && current == tasks[0]
        invariant forall j | i <= j < |tasks| :: tasks[j].Free()
        invariant fresh(que)
      {
        que.PutTail(tasks[i]);
        assert tasks[..i + 1] == tasks[..i] + [tasks[i]];
      }
      assert tasks[..|tasks|] == tasks;
    }

    /** schedule_rr_callrte, then schedule_rr: the running task goes to the tail, the next one runs. */
    method Expire()
      requires Valid()
      modifies this, que, que.items
      ensures Valid() && que.items == old(que.items[1..]) + [old(current)]
    {
      var x := que.GetHead();
      que.PutTail(x);
      current := que.head;
    }

    /** After k expiries the queue has turned by k places, modulo its length. */
    method ExpireTimes(k: nat)
      requires Valid()
      modifies this, que, que.items
      ensures Valid() && que.items == Turned(old(que.items), k)
    {
      ghost var s := que.items;
      ModIs(0, |s|, 0, 0);
      for i := 0 to k
        invariant Valid() && que.items == Turned(s, i) && forall x | x in que.items :: x in s
      {
        TurnOnce(s, i);
        Expire();
      }
    }
  }
}
