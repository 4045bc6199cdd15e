/** The fixed-block allocator: seven classes of blocks, each with its free list threaded through the
    headers of its free blocks. */
module MemoryPools {
  import opened KernelState

  const HEADER := 8           // the header of a block: its next pointer and its size
  const NULL := 0

  datatype Header = Header(next: int, size: int)
  datatype Pool = Pool(size: int, num: nat, free: int)

  /** Block size and number of every class. */
  function Classes(): (r: seq<(int, nat)>)
    ensures |r| == CLASS_NUM && forall i | 0 <= i < CLASS_NUM :: r[i].0 > 0 && r[i].1 > 0
  {
    [(16, 128), (32, 128), (64, 128), (128, 128), (256, 128), (512, 4), (1024, 2)]
  }

  const CLASS_NUM := 7

  /** A size argument as the unsigned comparison in the source reads it. */
  function Unsigned(size: int): (r: int) {
    if size < 0 then size + 0x1_0000_0000 else size
  }

  // ---- The blocks of a class -------------------------------------------------------------------

  /** Where class i starts when the free area starts at base. */
  function Start(base: int, i: nat): (r: int)
    requires i <= CLASS_NUM
  {
    if i == 0 then base else Start(base, i - 1) + Classes()[i - 1].0 * Classes()[i - 1].1
  }

  function Blocks(base: int, i: nat): (r: seq<int>)
    requires i < CLASS_NUM
    ensures |r| == Classes()[i].1
  {
    seq(Classes()[i].1, k => BlockAt(base, i, k))
  }

  /** Where block k of class i stands, or the class behind it starts. */
  function BlockAt(base: int, i: nat, k: int): (r: int)
    requires i < CLASS_NUM
  {
    Start(base, i) + Classes()[i].0 * k
  }

  lemma NextBlock(base: int, i: nat, k: nat)
    requires i < CLASS_NUM && k < Classes()[i].1
    ensures BlockAt(base, i, k + 1) == BlockAt(base, i, k) + Classes()[i].0
    ensures BlockAt(base, i, 0) == Start(base, i) && BlockAt(base, i, Classes()[i].1) == Start(base, i + 1)
  {
  }

  lemma {:induction false} StartsRise(base: int, i: nat, j: nat)
    requires i <= j <= CLASS_NUM
    ensures Start(base, i) <= Start(base, j)
    decreases j
  {
    if i < j { StartsRise(base, i, j - 1); }
  }

  /** Any two blocks occupy separate address ranges. */
  lemma BlocksApart(base: int, i: nat, k: nat, j: nat, l: nat)
    requires i < CLASS_NUM && j < CLASS_NUM && k < Classes()[i].1 && l < Classes()[j].1
    requires i < j || (i == j && k < l)
    ensures Blocks(base, i)[k] + Classes()[i].0 <= Blocks(base, j)[l]
  {
    var size := Classes()[i].0;
    if i == j {
      Step(size, k, l);
    } else {
      Step(size, k, Classes()[i].1);
      assert Start(base, i + 1) == Start(base, i) + size * Classes()[i].1;
      StartsRise(base, i + 1, j);
      Step(Classes()[j].0, -1, l);
    }
  }

  lemma {:induction false} Step(size: int, k: int, l: int)
    requires size >= 0 && k < l
    ensures size * k + size <= size * l
    decreases l - k
  {
    if l == k + 1 {
      assert size * l == size * (k + 1) == size * k + size;
    } else {
      Step(size, k, l - 1);
      assert size * l == size * (l - 1) + size;
    }
  }

  lemma BlocksNoDup(base: int, i: nat)
    requires i < CLASS_NUM
    ensures NoDup(Blocks(base, i))
  {
    forall k, l | 0 <= k < l < |Blocks(base, i)| ensures Blocks(base, i)[k] != Blocks(base, i)[l] {
      BlocksApart(base, i, k, i, l);
    }
  }

  lemma NoDupPrefix(s: seq<int>, k: nat)
    requires NoDup(s) && k < |s|
    ensures NoDup(s[..k]) && s[k] !in s[..k] && s[..k + 1] == s[..k] + [s[k]]
  {
  }

  /** The list that starts at head threads the blocks of s. */
  ghost predicate Chain(hdr: map<int, Header>, head: int, s: seq<int>)
    decreases |s|
  {
    if s == [] then head == NULL
    else head == s[0] && head in hdr && Chain(hdr, hdr[head].next, s[1..])
  }

  lemma {:induction false} ChainFrame(hdr: map<int, Header>, hdr': map<int, Header>, head: int, s: seq<int>)
    requires Chain(hdr, head, s)
    requires forall a | a in s && a in hdr :: a in hdr' && hdr'[a] == hdr[a]
    ensures Chain(hdr', head, s)
    decreases |s|
  {
    if s != [] {
      forall a | a in s[1..] && a in hdr ensures a in hdr' && hdr'[a] == hdr[a] { assert a in s; }
      ChainFrame(hdr, hdr', hdr[head].next, s[1..]);
    }
  }

  /** A block hung behind the last one of a list. */
  lemma {:induction false} ChainAppend(hdr: map<int, Header>, head: int, s: seq<int>, a: int, size: int)
    requires Chain(hdr, head, s) && s != [] && NoDup(s) && a !in s && s[|s| - 1] in hdr
    ensures var last := s[|s| - 1];
            Chain(hdr[last := hdr[last].(next := a)][a := Header(NULL, size)], head, s + [a])
    decreases |s|
  {
    var last := s[|s| - 1];
    var hdr' := hdr[last := hdr[last].(next := a)][a := Header(NULL, size)];
    if |s| == 1 {
      assert (s + [a])[1..] == [a];
      assert Chain(hdr', a, [a]);
    } else {
      assert s[1..][|s| - 2] == last;
      ChainAppend(hdr, hdr[head].next, s[1..], a, size);
      assert (s + [a])[1..] == s[1..] + [a];
    }
  }

  /** The free list of class i is sound, and every block of the class is free or live, once. */
  ghost predicate ClassIn(base: int, hdr: map<int, Header>, i: nat, p: Pool, free: seq<int>, live: multiset<int>)
    requires i < CLASS_NUM
  {
    && p.size == Classes()[i].0 && p.num == Classes()[i].1
    && Chain(hdr, p.free, free)
    && multiset(free) + live == multiset(Blocks(base, i))
    && (forall a | a in Blocks(base, i) :: a in hdr && hdr[a].size == Classes()[i].0)
  }

  lemma OtherBlocks(base: int, i: nat, j: nat, a: int)
    requires i < CLASS_NUM && j < CLASS_NUM && i != j && a in Blocks(base, j)
    ensures a !in Blocks(base, i)
  {
    var l: nat :| l < |Blocks(base, j)| && Blocks(base, j)[l] == a;
    if a in Blocks(base, i) {
      var k: nat :| k < |Blocks(base, i)| && Blocks(base, i)[k] == a;
      if i < j { BlocksApart(base, i, k, j, l); } else { BlocksApart(base, j, l, i, k); }
    }
  }

  /** Writing headers of class i leaves class j alone. */
  lemma OtherClass(base: int, hdr: map<int, Header>, hdr': map<int, Header>, i: nat, j: nat, p: Pool,
                   free: seq<int>, live: multiset<int>)
    requires i < CLASS_NUM && j < CLASS_NUM && i != j && ClassIn(base, hdr, j, p, free, live)
    requires forall a | a !in Blocks(base, i) && a in hdr :: a in hdr' && hdr'[a] == hdr[a]
    ensures ClassIn(base, hdr', j, p, free, live)
  {
    forall a | a in Blocks(base, j) ensures a in hdr' && hdr'[a] == hdr[a] { OtherBlocks(base, i, j, a); }
    forall a | a in free && a in hdr ensures a in hdr' && hdr'[a] == hdr[a] {
      assert a in multiset(free) + live;
    }
    ChainFrame(hdr, hdr', p.free, free);
  }

  /** No block is free twice, or free and live. */
  lemma FreeOnce(base: int, i: nat, free: seq<int>, live: multiset<int>)
    requires i < CLASS_NUM && multiset(free) + live == multiset(Blocks(base, i))
    ensures NoDup(free) && forall a | a in free :: a !in live && a in Blocks(base, i)
    ensures forall a | a in live :: a in Blocks(base, i) && live[a] == 1
  {
    BlocksNoDup(base, i);
    forall a: int ensures multiset(Blocks(base, i))[a] <= 1 { Once(Blocks(base, i), a); }
    forall a: int ensures multiset(free)[a] + live[a] <= 1 {
      assert (multiset(free) + live)[a] <= 1;
    }
    forall k, l | 0 <= k < l < |free| ensures free[k] != free[l] {
      if free[k] == free[l] { Twice(free, k, l); }
    }
    forall a | a in free ensures a in Blocks(base, i) { assert a in multiset(free) + live; }
    forall a | a in live ensures a in Blocks(base, i) { assert a in multiset(free) + live; }
  }

  lemma {:induction false} Once(s: seq<int>, a: int)
    requires NoDup(s)
    ensures multiset(s)[a] <= 1
  {
    if s != [] {
      var n := |s| - 1;
      assert s == s[..n] + [s[n]];
      Once(s[..n], a);
      if s[n] == a {
        assert a !in s[..n];
      }
    }
  }

  lemma Twice(s: seq<int>, k: nat, l: nat)
    requires k < l < |s| && s[k] == s[l]
    ensures multiset(s)[s[k]] >= 2
  {
    assert s == s[..k] + [s[k]] + s[k + 1..l] + [s[l]] + s[l + 1..];
  }

  /** Taking the first free block of a class. */
  lemma TakenOk(base: int, hdr: map<int, Header>, i: nat, p: Pool, s: seq<int>, l: multiset<int>)
    requires i < CLASS_NUM && ClassIn(base, hdr, i, p, s, l) && s != []
    ensures p.free in hdr && p.free == s[0] && p.free in Blocks(base, i)
    ensures var mp := p.free;
            ClassIn(base, hdr[mp := hdr[mp].(next := NULL)], i, p.(free := hdr[mp].next), s[1..], l + multiset{mp})
  {
    var mp := p.free;
    FreeOnce(base, i, s, l);
    assert s == [mp] + s[1..];
    ChainFrame(hdr, hdr[mp := hdr[mp].(next := NULL)], hdr[mp].next, s[1..]);
    assert multiset(s[1..]) + (l + multiset{mp}) == multiset(s) + l;
  }

  /** Putting a live block back in front of the free ones. */
  lemma PutBackOk(base: int, hdr: map<int, Header>, i: nat, p: Pool, s: seq<int>, l: multiset<int>, mp: int)
    requires i < CLASS_NUM && ClassIn(base, hdr, i, p, s, l) && mp in l
    ensures mp in hdr && hdr[mp].size == p.size && mp in Blocks(base, i)
    ensures ClassIn(base, hdr[mp := hdr[mp].(next := p.free)], i, p.(free := mp), [mp] + s, l - multiset{mp})
  {
    FreeOnce(base, i, s, l);
    ChainFrame(hdr, hdr[mp := hdr[mp].(next := p.free)], p.free, s);
    assert ([mp] + s)[1..] == s;
    assert multiset([mp] + s) + (l - multiset{mp}) == multiset(s) + l;
  }

  class Memory {
    const base: int
    var hdr: map<int, Header>
    var pool: seq<Pool>
    var halted: bool
    ghost var free: seq<seq<int>>           // the free blocks of every class, in list order
    ghost var live: seq<multiset<int>>      // the blocks handed out of every class

    ghost predicate ClassOk(i: nat)
      requires i < CLASS_NUM && |pool| == |free| == |live| == CLASS_NUM
      reads this`hdr, this`pool, this`free, this`live
    {
      ClassIn(base, hdr, i, pool[i], free[i], live[i])
    }

    ghost predicate Valid()
      reads this`hdr, this`pool, this`free, this`live
    {
      && base > NULL
      && |pool| == |free| == |live| == CLASS_NUM
      && (forall i: nat {:trigger ClassOk(i)} | i < CLASS_NUM :: ClassOk(i))
    }

    // ---- Initialisation ------------------------------------------------------------------------

    constructor (base: int)
      requires base > NULL
      ensures Valid() && !halted
      ensures forall i: nat | i < CLASS_NUM :: free[i] == Blocks(base, i)
    {
      this.base := base;
      hdr, halted := map[], false;
      pool := seq(CLASS_NUM, i requires 0 <= i < CLASS_NUM => Pool(Classes()[i].0, Classes()[i].1, NULL));
      free := seq(CLASS_NUM, i => []);
      live := seq(CLASS_NUM, i => multiset{});
      new;
      var area := base;
      for i := 0 to CLASS_NUM
        invariant area == Start(base, i) && this.base == base && !halted
        invariant |pool| == |free| == |live| == CLASS_NUM
        invariant forall j: nat {:trigger ClassOk(j)} | j < i :: ClassOk(j)
        invariant forall j: nat | j < i :: free[j] == Blocks(base, j)
        invariant forall j: nat | i <= j < CLASS_NUM :: pool[j] == Pool(Classes()[j].0, Classes()[j].1, NULL)
        invariant forall j: nat | i <= j < CLASS_NUM :: live[j] == multiset{}
      {
        area := InitPool(i, area);
      }
    }

    /** Thread the blocks of class i one behind the other. */
    method StringBlocks(i: nat, area: int) returns (next: int)
      requires base > NULL && i < CLASS_NUM && area == Start(base, i) && |pool| == CLASS_NUM
      requires pool[i] == Pool(Classes()[i].0, Classes()[i].1, NULL)
      modifies this`hdr, this`pool
      ensures next == Start(base, i + 1) && |pool| == CLASS_NUM
      ensures pool[i].size == Classes()[i].0 && pool[i].num == Classes()[i].1
      ensures Chain(hdr, pool[i].free, Blocks(base, i))
      ensures forall a | a in Blocks(base, i) :: a in hdr && hdr[a].size == Classes()[i].0
      ensures forall a | a !in Blocks(base, i) && a in old(hdr) :: a in hdr && hdr[a] == old(hdr)[a]
      ensures forall j: nat | j < CLASS_NUM && j != i :: pool[j] == old(pool[j])
    {
      hide Start, BlockAt, Classes, NoDup;
      ghost var blocks := Blocks(base, i);
      BlocksNoDup(base, i);
      var last := NULL;
      next := area;
      NextBlock(base, i, 0);
      for k := 0 to pool[i].num
        invariant |pool| == CLASS_NUM
        invariant next == BlockAt(base, i, k)
        invariant pool[i].size == Classes()[i].0 && pool[i].num == Classes()[i].1
        invariant Chain(hdr, pool[i].free, blocks[..k])
        invariant k > 0 ==> last == blocks[k - 1]
        invariant forall j | 0 <= j < k :: blocks[j] in hdr && hdr[blocks[j]].size == Classes()[i].0
        invariant forall a | a !in blocks && a in old(hdr) :: a in hdr && hdr[a] == old(hdr)[a]
        invariant forall j: nat | j < CLASS_NUM && j != i :: pool[j] == old(pool[j])
      {
        var mp := next;
        NextBlock(base, i, k);
        NoDupPrefix(blocks, k);
        if k == 0 {
          pool := pool[i := pool[i].(free := mp)];
          hdr := hdr[mp := Header(NULL, pool[i].size)];
        } else {
          ChainAppend(hdr, pool[i].free, blocks[..k], mp, pool[i].size);
          hdr := hdr[last := hdr[last].(next := mp)];
          hdr := hdr[mp := Header(NULL, pool[i].size)];
        }
        last := mp;
        next := next + pool[i].size;
      }
      assert blocks[..|blocks|] == blocks;
    }

    /** mem_init_pool: string the blocks of class i together. */
    method InitPool(i: nat, area: int) returns (next: int)
      requires base > NULL && i < CLASS_NUM && area == Start(base, i) && |pool| == |free| == |live| == CLASS_NUM
      requires pool[i] == Pool(Classes()[i].0, Classes()[i].1, NULL) && live[i] == multiset{}
      requires forall j: nat {:trigger ClassOk(j)} | j < i :: ClassOk(j)
      modifies this`hdr, this`pool, this`free
      ensures next == Start(base, i + 1) && |pool| == |free| == CLASS_NUM
      ensures forall j: nat {:trigger ClassOk(j)} | j <= i :: ClassOk(j)
      ensures free == old(free)[i := Blocks(base, i)]
      ensures forall j: nat | j < CLASS_NUM && j != i :: pool[j] == old(pool[j])
    {
      ghost var blocks, frees := Blocks(base, i), free;
      BlocksNoDup(base, i);
      next := StringBlocks(i, area);
      free := free[i := blocks];
      assert ClassOk(i);
      forall j: nat | j < i ensures ClassOk(j) {
        assert old(ClassOk(j));
        OtherClass(base, old(hdr), hdr, i, j, pool[j], frees[j], live[j]);
      }
    }

    // ---- Getting and releasing -----------------------------------------------------------------

    /** The smallest class whose blocks hold a request of the given size. */
    static function Fitting(size: int): (i: nat)
      ensures i <= CLASS_NUM
      ensures forall j: nat | j < i :: Classes()[j].0 - HEADER < Unsigned(size)
      ensures i < CLASS_NUM ==> Unsigned(size) <= Classes()[i].0 - HEADER
    {
      var n := Unsigned(size);
      if n <= 8 then 0 else if n <= 24 then 1 else if n <= 56 then 2 else if n <= 120 then 3
      else if n <= 248 then 4 else if n <= 504 then 5 else if n <= 1016 then 6 else CLASS_NUM
    }

    /** get_mpf_isr: a free block of the smallest class that fits; the kernel halts when there is none. */
    method Get(size: int) returns (mem: int)
      requires Valid() && !halted
      modifies this
      ensures Valid()
      ensures var i := Fitting(size);
              if i == CLASS_NUM || old(free)[i] == [] then
                halted && mem == NULL && free == old(free) && live == old(live)
              else
                && !halted && mem == old(free)[i][0] + HEADER
                && free == old(free)[i := old(free)[i][1..]]
                && live == old(live)[i := old(live)[i] + multiset{mem - HEADER}]
    {
      for i := 0 to CLASS_NUM
        invariant Valid() && i <= Fitting(size) && free == old(free) && live == old(live) && hdr == old(hdr) && !halted
      {
        assert ClassOk(i);
        if Unsigned(size) <= pool[i].size - HEADER {
          assert i == Fitting(size);
          FreeBlocks(i);
          if pool[i].free == NULL {
            halted := true;
            return NULL;
          }
          mem := TakeFirst(i);
          return;
        }
      }
      halted := true;
      return NULL;
    }

    /** The first free block of class i, whose list is empty only if its head is null. */
    lemma FreeBlocks(i: nat)
      requires Valid() && i < CLASS_NUM
      ensures pool[i].free == NULL <==> free[i] == []
      ensures free[i] != [] ==> pool[i].free == free[i][0]
    {
      assert ClassOk(i);
      if free[i] != [] {
        assert free[i][0] in multiset(free[i]) + live[i];
        BlockPositive(i, free[i][0]);
      }
    }

    lemma BlockPositive(i: nat, a: int)
      requires base > NULL && i < CLASS_NUM && a in Blocks(base, i)
      ensures a > NULL
    {
      var k: nat :| k < |Blocks(base, i)| && Blocks(base, i)[k] == a;
      StartsRise(base, 0, i);
      Step(Classes()[i].0, -1, k);
    }

    method TakeFirst(i: nat) returns (mem: int)
      requires Valid() && i < CLASS_NUM && pool[i].free != NULL
      modifies this`hdr, this`pool, this`free, this`live
      ensures Valid() && old(free)[i] != [] && mem == old(free)[i][0] + HEADER
      ensures free == old(free)[i := old(free)[i][1..]]
      ensures live == old(live)[i := old(live)[i] + multiset{mem - HEADER}]
    {
      assert ClassOk(i);
      FreeBlocks(i);
      TakenOk(base, hdr, i, pool[i], free[i], live[i]);
      var mp := pool[i].free;
      pool := pool[i := pool[i].(free := hdr[mp].next)];
      hdr := hdr[mp := hdr[mp].(next := NULL)];
      mem := mp + HEADER;
      free, live := free[i := free[i][1..]], live[i := live[i] + multiset{mp}];
      assert ClassOk(i);
      forall j: nat | j < CLASS_NUM ensures ClassOk(j) {
        if j != i {
          assert old(ClassOk(j));
          OtherClass(base, old(hdr), hdr, i, j, pool[j], free[j], live[j]);
        }
      }
    }

    /** The class that a live block belongs to. */
    ghost predicate LiveIn(mem: int, i: nat)
      requires |live| == CLASS_NUM
      reads this
    {
      i < CLASS_NUM && mem - HEADER in live[i]
    }

    /** rel_mpf_isr: a live block goes back in front of the free ones of its class. */
    method Release(mem: int, ghost i: nat)
      requires Valid() && !halted && LiveIn(mem, i)
      modifies this
      ensures Valid() && !halted
      ensures free == old(free)[i := [mem - HEADER] + old(free)[i]]
      ensures live == old(live)[i := old(live)[i] - multiset{mem - HEADER}]
    {
      var mp := mem - HEADER;
      assert ClassOk(i);
      PutBackOk(base, hdr, i, pool[i], free[i], live[i], mp);
      for k := 0 to CLASS_NUM
        invariant k <= i && Valid() && !halted
        invariant hdr == old(hdr) && pool == old(pool) && free == old(free) && live == old(live)
      {
        assert ClassOk(k);
        if hdr[mp].size == pool[k].size {
          assert k == i;
          hdr := hdr[mp := hdr[mp].(next := pool[k].free)];
          pool := pool[k := pool[k].(free := mp)];
          free, live := free[i := [mp] + free[i]], live[i := live[i] - multiset{mp}];
          assert ClassOk(i);
          forall j: nat | j < CLASS_NUM ensures ClassOk(j) {
            if j != i {
              assert old(ClassOk(j));
              OtherClass(base, old(hdr), hdr, i, j, pool[j], free[j], live[j]);
            }
          }
          return;
        }
      }
      assert false;     // the source halts here; a live block always finds its class
    }

    // ---- What the invariant means --------------------------------------------------------------

    /** Any two live blocks, of whatever classes, occupy separate address ranges, headers included. */
    lemma LiveBlocksApart(i: nat, a: int, j: nat, b: int)
      requires Valid() && i < CLASS_NUM && j < CLASS_NUM && a in live[i] && b in live[j] && a != b
      ensures a + Classes()[i].0 <= b || b + Classes()[j].0 <= a
    {
      assert ClassOk(i) && ClassOk(j);
      FreeOnce(base, i, free[i], live[i]);
      FreeOnce(base, j, free[j], live[j]);
      var k: nat :| k < |Blocks(base, i)| && Blocks(base, i)[k] == a;
      var l: nat :| l < |Blocks(base, j)| && Blocks(base, j)[l] == b;
      if i < j || (i == j && k < l) { BlocksApart(base, i, k, j, l); } else { BlocksApart(base, j, l, i, k); }
    }

    /** Free and live blocks of a class add up to the class, and no block is counted twice. */
    lemma FreePlusLive(i: nat)
      requires Valid() && i < CLASS_NUM
      ensures |free[i]| + |live[i]| == Classes()[i].1
      ensures NoDup(free[i]) && (forall a | a in free[i] :: a !in live[i])
      ensures forall a | a in live[i] :: live[i][a] == 1
    {
      assert ClassOk(i);
      FreeOnce(base, i, free[i], live[i]);
      assert |multiset(free[i]) + live[i]| == |Blocks(base, i)|;
    }

    /** A release followed by a request that the class serves hands the same block out again. */
    method ReleaseThenGet(mem: int, ghost i: nat, size: int) returns (again: int)
      requires Valid() && !halted && LiveIn(mem, i) && Fitting(size) == i
      modifies this
      ensures Valid() && !halted && again == mem && free == old(free) && live == old(live)
    {
      assert ClassOk(i);
      Release(mem, i);
      again := Get(size);
      assert ([mem - HEADER] + old(free)[i])[1..] == old(free)[i];
      assert (old(live)[i] - multiset{mem - HEADER}) + multiset{mem - HEADER} == old(live)[i];
      assert free[i] == old(free)[i] && live[i] == old(live)[i];
      assert free == old(free) && live == old(live);
    }
  }
}
