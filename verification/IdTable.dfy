/** The semaphore ID table over runs that only create semaphores.  It doubles when it is full: static
    control blocks move to a larger array, dynamic ones stay where they are and get as many free ones
    chained behind them, and no ID ever changes what it stands for. */
module IdTables {
  import opened KernelState

  const SEMAPHORE_ID_NUM := 2
  const UNUSED := -1

  datatype Kind = Static | Dynamic

  /** What a control block records of its semaphore, the first and the last waiting task included. */
  datatype Block = Block(semid: int, kind: Kind, order: Order, value: int, max: int,
                         waitHead: Option<nat>, waitTail: Option<nat>)

  /** A semaphore that has just been created. */
  function New(id: int, kind: Kind, order: Order, value: int, max: int): (r: Block) {
    Block(id, kind, order, value, max, None, None)
  }

  class SemCb {
    var semid: int
    var kind: Kind
    var order: Order
    var value: int
    var max: int
    var waitHead: Option<nat>
    var waitTail: Option<nat>
    var next: SemCb?
    var prev: SemCb?

    constructor ()
      ensures semid == UNUSED && next == null && prev == null
    {
      semid, kind, order, value, max := UNUSED, Static, TFIFO, UNUSED, UNUSED;
      waitHead, waitTail, next, prev := None, None, null, null;
    }

    ghost function Contents(): (r: Block)
      reads this
    {
      Block(semid, kind, order, value, max, waitHead, waitTail)
    }

    method Set(b: Block)
      modifies this`semid, this`kind, this`order, this`value, this`max, this`waitHead, this`waitTail
      ensures Contents() == b
    {
      semid, kind, order, value, max := b.semid, b.kind, b.order, b.value, b.max;
      waitHead, waitTail := b.waitHead, b.waitTail;
    }

    method Copy(src: SemCb)
      requires src != this
      modifies this`semid, this`kind, this`order, this`value, this`max, this`waitHead, this`waitTail
      ensures Contents() == src.Contents()
    {
      Set(Block(src.semid, src.kind, src.order, src.value, src.max, src.waitHead, src.waitTail));
    }
  }

  // ---- Fresh tables, arrays and chains ---------------------------------------------------------

  method MakeTable(n: nat) returns (t: array<SemCb?>)
    ensures t.Length == n && fresh(t) && forall i | 0 <= i < n :: t[i] == null
  {
    t := new SemCb?[n];
    for i := 0 to n
      invariant forall j | 0 <= j < i :: t[j] == null
    {
      t[i] := null;
    }
  }

  /** static_sem_init */
  method MakeArray(n: nat) returns (r: seq<SemCb>)
    ensures |r| == n && fresh(r) && NoDup(r) && forall i | 0 <= i < n :: r[i].semid == UNUSED
  {
    r := [];
    while |r| < n
      invariant |r| <= n && fresh(r) && NoDup(r) && forall i | 0 <= i < |r| :: r[i].semid == UNUSED
    {
      var scb := new SemCb();
      r := r + [scb];
    }
  }

  /** The next pointers lead through c to its end. */
  ghost predicate Chained(c: seq<SemCb>)
    reads c
  {
    forall i {:trigger c[i].next} | 0 <= i < |c| :: c[i].next == if i + 1 < |c| then c[i + 1] else null
  }

  /** From position k on, the prev pointers lead back through c. */
  ghost predicate ChainedBack(c: seq<SemCb>, k: nat)
    reads c
  {
    forall i {:trigger c[i].prev} | k <= i < |c| && 0 < i :: c[i].prev == c[i - 1]
  }

  function At(c: seq<SemCb>, i: nat): (r: SemCb?) {
    if i < |c| then c[i] else null
  }

  /** dynamic_sem_init: every new block goes in front. */
  method MakeChain(n: nat) returns (freehead: SemCb?, ghost c: seq<SemCb>)
    ensures |c| == n && fresh(c) && NoDup(c) && Chained(c) && ChainedBack(c, 0) && freehead == At(c, 0)
    ensures c != [] ==> c[0].prev == null
  {
    freehead, c := null, [];
    for i := 0 to n
      invariant |c| == i && fresh(c) && NoDup(c) && Chained(c) && ChainedBack(c, 0) && freehead == At(c, 0)
      invariant c != [] ==> c[0].prev == null
    {
      var scb := new SemCb();
      scb.next, scb.prev := freehead, null;
      if scb.next != null { scb.next.prev := scb; }
      freehead, c := scb, [scb] + c;
    }
  }

  /** A chain that ends where another begins, both without repeated blocks, makes one chain. */
  lemma Concat(a: seq<SemCb>, b: seq<SemCb>)
    requires a != [] && b != [] && NoDup(a) && NoDup(b) && Chained(b)
    requires forall i | 0 <= i < |b| :: b[i] !in a
    requires forall i {:trigger a[i].next} | 0 <= i < |a| :: a[i].next == if i + 1 < |a| then a[i + 1] else b[0]
    ensures NoDup(a + b) && Chained(a + b)
  {
    var c := a + b;
    assert forall i | 0 <= i < |a| :: c[i] == a[i];
    assert forall i | |a| <= i < |c| :: c[i] == b[i - |a|];
  }

  // ---- Counting --------------------------------------------------------------------------------

  function Numbers(n: nat): (r: set<int>)
    ensures |r| == n && forall x :: x in r <==> 0 <= x < n
  {
    if n == 0 then {} else Numbers(n - 1) + {n - 1}
  }

  function Members(s: seq<int>): (r: set<int>)
    ensures forall x :: x in r <==> x in s
    ensures NoDup(s) ==> |r| == |s|
  {
    if s == [] then {}
    else
      var init, last := s[..|s| - 1], s[|s| - 1];
      assert s == init + [last];
      assert NoDup(s) ==> last !in init;
      assert NoDup(s) ==> NoDup(init);
      Members(init) + {last}
  }

  lemma Within(a: set<int>, b: set<int>)
    requires a <= b
    ensures |a| <= |b|
  {
    assert b == a + (b - a) && a * (b - a) == {};
  }

  /** Different numbers below n, none of them c, are fewer than n. */
  lemma Fewer(s: seq<int>, n: nat, c: nat)
    requires NoDup(s) && c < n && forall i | 0 <= i < |s| :: 0 <= s[i] < n && s[i] != c
    ensures |s| < n
  {
    Within(Members(s), Numbers(n) - {c});
  }

  class SemTable {
    var table: array<SemCb?>    // id_table
    var arr: seq<SemCb>         // the places of the static control blocks
    var freehead: SemCb?        // the first free dynamic block
    var alochead: SemCb?        // the first dynamic block in use
    var counter: nat            // the next ID
    var halted: bool
    ghost var chain: seq<SemCb> // the dynamic control blocks, those in use first
    ghost var used: nat         // how many of them are in use

    /** An ID in use leads to a control block that records it: its place in the array, or a dynamic
        one in use, and then the place in the array is not. */
    ghost predicate SlotOk(id: nat)
      requires id < table.Length == |arr| && used <= |chain|
      reads this`table, this`arr, this`chain, this`used, table, arr, chain
    {
      var b := table[id];
      && (b != arr[id] ==> arr[id].semid == UNUSED)
      && (b != null ==> (b == arr[id] || b in chain[..used]) && b.semid == id)
    }

    /** A dynamic block in use is the one that its ID leads to. */
    ghost predicate UsedOk(n: nat)
      requires n < |chain|
      reads this`table, this`chain, table, chain
    {
      0 <= chain[n].semid < table.Length && table[chain[n].semid] == chain[n]
    }

    /** No control block has two places, and the free ones are chained behind those in use. */
    ghost predicate Laid()
      reads this`arr, this`chain, this`used, this`freehead, this`alochead, chain
    {
      && NoDup(arr) && NoDup(chain) && (forall b | b in chain :: b !in arr)
      && used <= |chain| && Chained(chain)
      && freehead == At(chain, used) && alochead == (if used == 0 then null else At(chain, 0))
    }

    /** IDs and control blocks fit together. */
    ghost predicate Mapped()
      reads this`table, this`arr, this`chain, this`used, table, arr, chain
    {
      && table.Length == |arr| && used <= |chain|
      && (forall id: nat {:trigger SlotOk(id)} | id < table.Length :: SlotOk(id))
      && (forall n: nat {:trigger UsedOk(n)} | n < used :: UsedOk(n))
    }

    ghost predicate Sound()
      reads this`table, this`arr, this`chain, this`used, table, arr, chain
      reads this`freehead, this`alochead
    {
      0 < table.Length == |chain| && Laid() && Mapped()
    }

    /** The next ID is free and inside the table. */
    ghost predicate Valid()
      reads this, table, arr, chain
    {
      Sound() && counter < table.Length && table[counter] == null
    }

    /** Every ID in use and what its control block records. */
    ghost function Contents(): (r: map<nat, Block>)
      reads this`table, this`arr, this`chain, this`used, table, arr, chain
      requires Mapped()
    {
      map id: nat | id < table.Length && SlotOk(id) && table[id] != null :: table[id].Contents()
    }

    /** sem_init at start-up */
    constructor ()
      ensures Valid() && !halted && Contents() == map[] && table.Length == SEMAPHORE_ID_NUM
      ensures fresh(table) && fresh(arr) && fresh(chain)
    {
      var t := MakeTable(SEMAPHORE_ID_NUM);
      var a := MakeArray(SEMAPHORE_ID_NUM);
      var f, c := MakeChain(SEMAPHORE_ID_NUM);
      table, arr, freehead, alochead, chain, used := t, a, f, null, c, 0;
      counter, halted := 0, false;
    }

    // ---- Creating a semaphore ------------------------------------------------------------------

    /** While an ID is free, so is a dynamic block. */
    lemma FreeLeft()
      requires Valid()
      ensures used < |chain|
    {
      var ids := seq(used, n requires 0 <= n < |chain| reads this, chain => chain[n].semid);
      forall n: nat | n < used ensures 0 <= ids[n] < table.Length && table[ids[n]] == chain[n] {
        assert UsedOk(n);
      }
      Fewer(ids, table.Length, counter);
    }

    /** acre_sem_isr */
    method TakeBlock(kind: Kind) returns (scb: SemCb)
      requires Valid()
      modifies this`freehead, this`alochead, this`used
      ensures Laid() && (kind == Static ==> scb == arr[counter] && used == old(used))
      ensures kind == Dynamic ==> old(used) < |chain| && scb == chain[old(used)] && used == old(used) + 1
      ensures scb !in chain[..old(used)]
      ensures forall id | 0 <= id < |arr| && id != counter :: arr[id] != scb
    {
      if kind == Static {
        scb := arr[counter];
        assert scb in arr;
      } else {
        FreeLeft();
        scb := freehead;
        freehead := scb.next;
        if alochead == null { alochead := scb; }
        used := used + 1;
        assert scb in chain;
      }
    }

    /** The block scb, of no other ID, is to be that of the next one. */
    ghost predicate Chosen(scb: SemCb)
      requires counter < table.Length == |arr| && used <= |chain|
      reads this, table, arr, chain
    {
      && (scb == arr[counter] || (0 < used && scb == chain[used - 1]))
      && (forall id | 0 <= id < |arr| && id != counter :: arr[id] != scb && table[id] != scb)
      && (forall id: nat {:trigger SlotOk(id)} | id < table.Length && id != counter :: SlotOk(id))
      && (forall n: nat {:trigger UsedOk(n)} | n < used && chain[n] != scb :: UsedOk(n))
      && (scb in chain ==> arr[counter].semid == UNUSED && arr[counter] != scb)
      && (scb !in chain ==> scb == arr[counter])
    }

    /** The control block for the next ID, and its entry in the table: the static place of that ID, or
        the first free dynamic block, of which there always is one. */
    method Install(kind: Kind, order: Order, value: int, max: int)
      requires Valid() && !halted
      modifies this`freehead, this`alochead, this`used, table, arr, chain
      ensures Sound()
      ensures Contents() == old(Contents())[counter := New(counter, kind, order, value, max)]
      ensures table[counter] != null && table[counter] == if kind == Static then arr[counter] else old(freehead)
      ensures forall id | 0 <= id < table.Length && id != counter :: table[id] == old(table[id])
    {
      hide NoDup;
      assert SlotOk(counter);
      var scb := TakeBlock(kind);
      forall id: nat | id < table.Length && id != counter ensures SlotOk(id) && table[id] != scb {
        assert old(SlotOk(id));
      }
      forall n: nat | n < used && chain[n] != scb ensures UsedOk(n) { assert old(UsedOk(n)); }
      assert Chosen(scb);
      Enter(scb, New(counter, kind, order, value, max));
    }

    method Enter(scb: SemCb, b: Block)
      requires 0 < table.Length == |arr| == |chain| && Laid() && counter < table.Length && table[counter] == null
      requires Chosen(scb) && b.semid == counter
      modifies table
      modifies scb`semid, scb`kind, scb`order, scb`value, scb`max, scb`waitHead, scb`waitTail
      ensures Sound() && table[counter] == scb && scb.Contents() == b
      ensures forall id | 0 <= id < table.Length && id != counter :: table[id] == old(table[id])
    {
      scb.Set(b);
      table[counter] := scb;
      forall id: nat | id < table.Length ensures SlotOk(id) {
        assert id != counter ==> old(SlotOk(id));
      }
      forall n: nat | n < used ensures UsedOk(n) {
        assert chain[n] != scb ==> old(UsedOk(n));
      }
    }

    // ---- Doubling ------------------------------------------------------------------------------

    /** copy_ssem: the blocks of the old array src copied to the same places of the new one. */
    method CopyStatic(src: seq<SemCb>)
      requires NoDup(arr) && |src| <= |arr| && forall i, j | 0 <= i < |src| && 0 <= j < |arr| :: src[i] != arr[j]
      modifies arr
      ensures forall i | 0 <= i < |src| :: arr[i].Contents() == src[i].Contents()
      ensures forall i | |src| <= i < |arr| :: arr[i].Contents() == old(arr[i].Contents())
    {
      for i := 0 to |src|
        invariant forall j | 0 <= j < i :: arr[j].Contents() == src[j].Contents()
        invariant forall j | i <= j < |arr| :: arr[j].Contents() == old(arr[j].Contents())
        invariant forall j | 0 <= j < |src| :: src[j].Contents() == old(src[j].Contents())
      {
        arr[i].Copy(src[i]);
      }
    }

    /** The entries of the static blocks led to their new places. */
    method Relocate(n: nat)
      requires n <= |arr| <= table.Length
      modifies table
      ensures forall i | 0 <= i < table.Length ::
                table[i] == if i < n && arr[i].semid != UNUSED then arr[i] else old(table[i])
    {
      for i := 0 to n
        invariant forall j | 0 <= j < table.Length ::
                    table[j] == if j < i && arr[j].semid != UNUSED then arr[j] else old(table[j])
      {
        if arr[i].semid != UNUSED { table[i] := arr[i]; }
      }
    }

    /** The last dynamic block, searched for from the first free one, or from the first in use if none
        is free. */
    method LastBlock() returns (last: SemCb)
      requires Laid() && chain != []
      ensures last == chain[|chain| - 1]
    {
      last := if freehead == null then alochead else freehead;
      ghost var k := if freehead == null then 0 else used;
      while last.next != null
        invariant k < |chain| && last == chain[k]
        decreases |chain| - k
      {
        last, k := last.next, k + 1;
      }
    }

    /** copy_dsem: the new free list, more its first block, hung behind the last dynamic block. */
    method Join(more: SemCb, ghost rest: seq<SemCb>)
      requires Laid() && chain != [] && |rest| > 0 && rest[0] == more && NoDup(rest) && Chained(rest)
      requires forall i | 0 <= i < |rest| :: rest[i] !in chain && rest[i] !in arr
      modifies this`freehead, this`chain, chain`next, more`prev
      ensures Laid() && chain == old(chain) + rest
      ensures more.prev == old(freehead)
    {
      var last := LastBlock();
      ghost var was := chain;
      assert last in was && more in rest;
      last.next, more.prev := more, freehead;
      if freehead == null { freehead := more; }
      chain := was + rest;
      Concat(was, rest);
    }

    /** The larger table and array: every entry copied, every static block copied and its entry renewed. */
    method CopyAll()
      requires Sound()
      modifies this`table, this`arr
      ensures fresh(table) && fresh(arr) && NoDup(arr) && table.Length == |arr| == 2 * old(table.Length)
      ensures forall id | 0 <= id < old(table.Length) ::
                && table[id] == (if old(table[id]) == old(arr[id]) then arr[id] else old(table[id]))
                && arr[id].Contents() == old(arr[id].Contents())
      ensures forall id | old(table.Length) <= id < table.Length :: table[id] == null && arr[id].semid == UNUSED
    {
      var t, a, n := table, arr, table.Length;
      table := MakeTable(2 * n);
      arr := MakeArray(2 * n);
      forall i | 0 <= i < n { table[i] := t[i]; }
      CopyStatic(a);
      Relocate(n);
      forall id | 0 <= id < n
        ensures table[id] == if t[id] == a[id] then arr[id] else t[id]
        ensures arr[id].Contents() == a[id].Contents()
      {
        assert old(SlotOk(id));
      }
    }

    method Grow()
      requires Sound()
      modifies this`table, this`arr
      ensures fresh(table) && fresh(arr) && table.Length == 2 * old(table.Length)
      ensures Laid() && Mapped() && Contents() == old(Contents())
      ensures forall id | 0 <= id < old(table.Length) ::
                table[id] == if old(table[id]) == old(arr[id]) then arr[id] else old(table[id])
      ensures forall id | old(table.Length) <= id < table.Length :: table[id] == null
    {
      ghost var n := table.Length;
      CopyAll();
      forall id: nat | id < table.Length
        ensures SlotOk(id) && (table[id] != null ==> id < n)
        ensures id < n && table[id] != null ==>
                  old(table[id]) != null && table[id].Contents() == old(table[id].Contents())
      {
        if id < n { assert old(SlotOk(id)); }
      }
      forall i: nat | i < used ensures UsedOk(i) { assert old(UsedOk(i)) && chain[i] in chain; }
    }

    /** The dynamic chain made longer, and nothing else changed. */
    method Extend(n: nat)
      requires 0 < n == |chain| && Laid() && Mapped()
      modifies this`freehead, this`chain, chain`next
      ensures Laid() && Mapped() && Contents() == old(Contents())
      ensures |chain| == 2 * n && chain[..n] == old(chain) && fresh(chain[n..])
      ensures chain[n].prev == old(freehead)
    {
      ghost var was := chain;
      var more, rest := MakeChain(n);
      assert forall i | 0 <= i < |rest| :: rest[i] !in chain && rest[i] !in arr;
      Join(more, rest);
      assert chain[..n] == was && chain[n..] == rest && chain[..used] == was[..used];
      forall id: nat | id < table.Length ensures SlotOk(id) { assert old(SlotOk(id)); }
      forall i: nat | i < used ensures UsedOk(i) { assert old(UsedOk(i)); }
    }

    /** pow_semid_table: every ID still leads to the same contents; the static blocks have moved to the
        new array, the dynamic ones have not moved, and as many free ones hang behind them.  The
        backward link of the first of those is right only if just one block was free. */
    method Double()
      requires Sound() && !halted
      modifies this`table, this`arr, this`freehead, this`chain, chain`next
      ensures Sound() && fresh(table) && fresh(arr) && table.Length == 2 * old(table.Length)
      ensures Contents() == old(Contents())
      ensures forall id | 0 <= id < old(table.Length) ::
                table[id] == if old(table[id]) == old(arr[id]) then arr[id] else old(table[id])
      ensures forall id | old(table.Length) <= id < table.Length :: table[id] == null
      ensures chain[..|old(chain)|] == old(chain) && fresh(chain[|old(chain)|..])
      ensures chain[|old(chain)|].prev == chain[|old(chain)| - 1] <==> used == |old(chain)| - 1
    {
      var n := table.Length;
      Grow();
      Extend(n);
    }

    /** serch_semid_table: the first ID not in use, or the first of the IDs that doubling adds. */
    method Search(memory: bool)
      requires Sound() && !halted
      modifies this, chain`next
      ensures !halted ==> Valid() && Contents() == old(Contents())
      ensures !halted ==> forall id | 0 <= id < counter :: table[id] != null
      ensures !halted ==> old(table.Length) <= table.Length && old(chain) <= chain && used == old(used)
      ensures !halted ==> forall id | 0 <= id < old(table.Length) && old(table[id]) != old(arr[id]) ::
                            table[id] == old(table[id])
      ensures halted ==> !memory
    {
      for srh := 0 to table.Length
        invariant Sound() && !halted && Contents() == old(Contents()) && table == old(table) && arr == old(arr)
        invariant chain == old(chain) && used == old(used) && forall id | 0 <= id < srh :: table[id] != null
      {
        if table[srh] == null {
          counter := srh;
          return;
        }
      }
      if !memory {
        halted := true;
        return;
      }
      var semids := table.Length;
      Double();
      counter := semids;
    }

    /** The counter moved on to the next free ID. */
    method Advance(memory: bool)
      requires Sound() && !halted
      modifies this, chain`next
      ensures !halted ==> Valid() && Contents() == old(Contents())
      ensures !halted ==> old(table.Length) <= table.Length
      ensures !halted ==> forall id | 0 <= id < old(table.Length) && old(table[id]) != old(arr[id]) ::
                            table[id] == old(table[id])
      ensures halted ==> !memory
    {
      counter := counter + 1;
      if table.Length <= counter || table[counter] != null { Search(memory); }
    }

    /** kernelrte_acre_sem: the ID of the new semaphore, or an error.  Every ID in use keeps its
        contents, doubling or not, and the new one was not in use; a dynamic control block, once in use,
        stays where it is.  Without memory to double the table the kernel halts. */
    method Create(kind: Kind, order: Order, value: int, max: int, memory: bool) returns (er: int)
      requires Valid() && !halted
      modifies this, table, arr, chain
      ensures value < 0 || value > max || max <= 0 ==> er == E_PAR && Valid() && Contents() == old(Contents())
      ensures 0 <= value <= max && 0 < max && !halted ==>
                && Valid() && er == old(counter) && er !in old(Contents())
                && Contents() == old(Contents())[er := New(er, kind, order, value, max)]
                && forall id | 0 <= id < old(table.Length) && id != er && old(table[id]) != old(arr[id]) ::
                     id < table.Length && table[id] == old(table[id])
      ensures halted ==> !memory
    {
      if value < 0 || value > max || max <= 0 {
        return E_PAR;
      }
      Install(kind, order, value, max);
      er := counter;
      Advance(memory);
    }
  }
}
