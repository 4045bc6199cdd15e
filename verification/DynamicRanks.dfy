/** The numbering of dynamic priorities along the sorted list of the EDF, LLF and Fair schedulers: how a
    task that goes in makes the list be numbered anew, when that runs out of priorities, and which runs
    ever do. */
module DynamicRanks {
  import opened Bitmaps
  import opened KernelState

  const HALF := PRIORITY_NUM / 2

  /** n numbers from first on. */
  function Rising(first: int, n: nat): (r: seq<int>)
    ensures |r| == n && forall i | 0 <= i < n :: r[i] == first + i
  {
    seq(n, i => first + i)
  }

  /** check_priority_exhaustion: it compares for equality alone, with a count of insertions that is
      never counted down. */
  predicate Exhausted(minPriority: int, tskNum: int) {
    minPriority == HALF && tskNum != HALF
  }

  /** The ranks of a list of len tasks, after a task went in behind tasks with the ranks r: all anew when
      the priorities are exhausted or it comes first, and otherwise from its own on. */
  function Renumbered(r: seq<int>, len: nat, exhausted: bool): (s: seq<int>)
    requires |r| < len
    ensures |s| == len
  {
    if exhausted || r == [] then Rising(1, len) else r + Rising(r[|r| - 1] + 1, len - |r|)
  }

  /** Ranks rise strictly from at least 1 on. */
  predicate Ascending(r: seq<int>) {
    (forall i | 0 <= i < |r| :: 1 <= r[i]) && (forall i, j | 0 <= i < j < |r| :: r[i] < r[j])
  }

  lemma RenumberedAscends(r: seq<int>, len: nat, exhausted: bool)
    requires |r| < len && Ascending(r)
    ensures Ascending(Renumbered(r, len, exhausted))
  {
  }

  /** Consecutive ranks stay consecutive. */
  lemma RenumberedRising(first: int, n: nat, i: nat, exhausted: bool)
    requires i <= n
    ensures Renumbered(Rising(first, n)[..i], n + 1, exhausted)
            == if exhausted || i == 0 then Rising(1, n + 1) else Rising(first, n + 1)
  {
    var r := Rising(first, n)[..i];
    if !exhausted && i > 0 {
      assert r[|r| - 1] == first + i - 1;
      assert r + Rising(first + i, n + 1 - i) == Rising(first, n + 1);
    }
  }

  // ---- The list as a value ---------------------------------------------------------------------

  /** What the numbering depends on: the keys along the list, the rank of its first task, min_priority
      and tsk_num. */
  datatype Line = Line(keys: seq<int>, first: int, m: int, t: int)

  /** A task with the given key is started, a start is refused, the running task leaves, or its quantum
      expires and it is charged for it.  A start is stale when the list is empty and the task has sort
      links left over from earlier; the links that are followed after it are not those of the line. */
  datatype Event = Start(key: int, stale: bool) | Refused | Leave | Expiry(charge: int)

  /** No start is stale. */
  predicate Guarded(es: seq<Event>) {
    forall i | 0 <= i < |es| :: es[i].Start? ==> !es[i].stale
  }

  predicate InOrder(keys: seq<int>) {
    forall i, j | 0 <= i < j < |keys| :: keys[i] <= keys[j]
  }

  /** The ranks run on from the first one, min_priority comes next, and every task but the first was
      counted when it went in. */
  predicate LineOk(l: Line) {
    var n := |l.keys|;
    && InOrder(l.keys) && 0 <= l.t && n - 1 <= l.t && l.m <= PRIORITY_NUM
    && 1 <= l.first && l.first + n <= PRIORITY_NUM && (n == 0 ==> l.first == 1)
    && (n >= 2 ==> l.m == l.first + n)
  }

  /** The key k behind all keys that are not larger. */
  function Insert(keys: seq<int>, k: int): (r: seq<int>)
    ensures |r| == |keys| + 1
  {
    if keys == [] then [k] else if k < keys[0] then [k] + keys else [keys[0]] + Insert(keys[1..], k)
  }

  predicate AllIn(keys: seq<int>, lo: int, hi: int) {
    forall i | 0 <= i < |keys| :: lo <= keys[i] <= hi
  }

  lemma {:induction false} InsertIn(keys: seq<int>, k: int, lo: int, hi: int)
    requires AllIn(keys, lo, hi) && lo <= k <= hi
    ensures AllIn(Insert(keys, k), lo, hi)
  {
    if keys != [] && k >= keys[0] { InsertIn(keys[1..], k, lo, hi); }
  }

  lemma {:induction false} InsertOrdered(keys: seq<int>, k: int)
    requires InOrder(keys)
    ensures InOrder(Insert(keys, k))
  {
    if keys != [] && k >= keys[0] {
      var last := keys[|keys| - 1];
      InsertOrdered(keys[1..], k);
      InsertIn(keys[1..], k, keys[0], if k > last then k else last);
    }
  }

  /** Whatever place the key k goes to, if all stays in order the keys along the list are these. */
  lemma {:induction false} InsertAt(keys: seq<int>, k: int, i: nat)
    requires i <= |keys| && InOrder(keys[..i] + [k] + keys[i..])
    ensures Insert(keys, k) == keys[..i] + [k] + keys[i..]
  {
    var r := keys[..i] + [k] + keys[i..];
    if i == 0 {
      if keys != [] && k >= keys[0] {
        assert r[0] == k && r[1] == keys[0];
        assert r[1..] == [] + [k] + keys[1..];
        InsertAt(keys[1..], k, 0);
      }
    } else {
      assert r[0] == keys[0] && r[i] == k;
      assert keys[1..][..i - 1] == keys[..i][1..] && keys[1..][i - 1..] == keys[i..];
      assert r[1..] == keys[..i][1..] + [k] + keys[i..];
      InsertAt(keys[1..], k, i - 1);
    }
  }

  /** A task with the key k goes in.  None is the halt for want of a priority. */
  function Put(l: Line, k: int): (r: Option<Line>) {
    if l.keys == [] then Some(Line([k], 1, l.m, l.t))
    else
      var first := if Exhausted(l.m, l.t + 1) || k < l.keys[0] then 1 else l.first;
      var last := first + |l.keys|;
      if last >= PRIORITY_NUM then None else Some(Line(Insert(l.keys, k), first, last + 1, l.t + 1))
  }

  /** The first task goes out. */
  function Rest(l: Line): (r: Line) {
    if |l.keys| <= 1 then l.(keys := [], first := 1) else l.(keys := l.keys[1..], first := l.first + 1)
  }

  function Occur(l: Line, e: Event): (r: Option<Line>) {
    match e
    case Start(k, _) => Put(l, k)
    case Refused => Some(l)
    case Leave => Some(Rest(l))
    case Expiry(c) => if l.keys == [] then Some(l) else Put(Rest(l), l.keys[0] + c)
  }

  /** The line after a run of events; a halted kernel stays halted. */
  function Follow(l: Line, es: seq<Event>): (r: Option<Line>)
    decreases |es|
  {
    if es == [] then Some(l)
    else
      var last := |es| - 1;
      match Follow(l, es[..last])
      case None => None
      case Some(l1) => Occur(l1, es[last])
  }

  lemma OccurOk(l: Line, e: Event)
    requires LineOk(l)
    ensures var r := Occur(l, e);
            r.Some? ==> LineOk(r.value) && |r.value.keys| <= |l.keys| + 1
                        && (e.Expiry? ==> |r.value.keys| == |l.keys|)
  {
    match e
    case Start(k, _) => PutOk(l, k);
    case Refused =>
    case Leave => RestOk(l);
    case Expiry(c) => if l.keys != [] { RestOk(l); PutOk(Rest(l), l.keys[0] + c); }
  }

  lemma RestOk(l: Line)
    requires LineOk(l)
    ensures LineOk(Rest(l))
  {
  }

  lemma PutOk(l: Line, k: int)
    requires LineOk(l)
    ensures Put(l, k).Some? ==> LineOk(Put(l, k).value)
  {
    InsertOrdered(l.keys, k);
  }

  /** The ranks and numbers after a task with the key k went in at position i. */
  lemma PutRanks(l: Line, k: int, i: nat)
    requires l.keys != [] && i <= |l.keys| && (i == 0 <==> k < l.keys[0])
    ensures var s, r := Renumbered(Rising(l.first, |l.keys|)[..i], |l.keys| + 1, Exhausted(l.m, l.t + 1)), Put(l, k);
            && (r.None? <==> s[|l.keys|] >= PRIORITY_NUM)
            && (r.Some? ==> r.value == Line(Insert(l.keys, k), s[0], s[|l.keys|] + 1, l.t + 1)
                            && s == Rising(s[0], |l.keys| + 1))
  {
    RenumberedRising(l.first, |l.keys|, i, Exhausted(l.m, l.t + 1));
  }

  lemma {:induction false} FollowOk(l: Line, es: seq<Event>)
    requires LineOk(l)
    ensures Follow(l, es).Some? ==> LineOk(Follow(l, es).value)
    decreases |es|
  {
    if es != [] {
      var last := |es| - 1;
      FollowOk(l, es[..last]);
      if Follow(l, es[..last]).Some? { OccurOk(Follow(l, es[..last]).value, es[last]); }
    }
  }

  lemma FollowNext(l: Line, es: seq<Event>, e: Event)
    ensures Follow(l, es + [e]) == match Follow(l, es) case None => None case Some(l1) => Occur(l1, e)
  {
    assert (es + [e])[..|es|] == es;
  }

  /** A run that ends with a start. */
  lemma FollowStart(l: Line, es: seq<Event>, l1: Line, k: int)
    requires Follow(l, es) == Some(l1) && LineOk(l1)
    ensures Follow(l, es + [Start(k, false)]) == Put(l1, k)
    ensures Put(l1, k).Some? ==> LineOk(Put(l1, k).value) && Put(l1, k).value.keys != []
  {
    FollowNext(l, es, Start(k, false));
    PutOk(l1, k);
  }

  /** A run through one line goes on as the run from there. */
  lemma {:induction false} FollowOn(l: Line, a: seq<Event>, b: seq<Event>)
    ensures Follow(l, a + b) == match Follow(l, a) case None => None case Some(l1) => Follow(l1, b)
    decreases |b|
  {
    if b == [] {
      assert a + b == a;
    } else {
      var last := |b| - 1;
      assert (a + b)[..|a| + last] == a + b[..last];
      FollowOn(l, a, b[..last]);
    }
  }

  /** Quantum expiries with the given charges. */
  function Charges(cs: seq<int>): (r: seq<Event>)
    ensures |r| == |cs|
  {
    seq(|cs|, i requires 0 <= i < |cs| => Expiry(cs[i]))
  }

  lemma ChargesNext(cs: seq<int>, c: int)
    ensures Charges(cs + [c]) == Charges(cs) + [Expiry(c)]
  {
  }

  lemma ChargesOn(cs: seq<int>, cs': seq<int>)
    ensures Charges(cs + cs') == Charges(cs) + Charges(cs')
  {
  }

  /** A run of expiries that has halted does not go on. */
  lemma {:induction false} ChargesHalt(l: Line, cs: seq<int>, i: nat)
    requires i <= |cs| && Follow(l, Charges(cs[..i])).None?
    ensures Follow(l, Charges(cs)).None?
  {
    assert cs[..i] + cs[i..] == cs;
    ChargesOn(cs[..i], cs[i..]);
    FollowOn(l, Charges(cs[..i]), Charges(cs[i..]));
  }

  /** Tasks with the given keys started. */
  function Starts(keys: seq<int>): (r: seq<Event>)
    ensures |r| == |keys|
  {
    seq(|keys|, i requires 0 <= i < |keys| => Start(keys[i], false))
  }

  lemma StartsNext(keys: seq<int>, k: int)
    ensures Starts(keys + [k]) == Starts(keys) + [Start(k, false)]
  {
  }

  lemma StartsHalt(l: Line, keys: seq<int>, i: nat)
    requires i <= |keys| && Follow(l, Starts(keys[..i])).None?
    ensures Follow(l, Starts(keys)).None?
  {
    assert Starts(keys) == Starts(keys[..i]) + Starts(keys[i..]);
    FollowOn(l, Starts(keys[..i]), Starts(keys[i..]));
  }

  lemma SameStarts(k: int, n: nat)
    ensures Starts(Same(k, n)) == Same(Start(k, false), n)
  {
  }

  /** k times x. */
  function Same<T>(x: T, k: nat): (r: seq<T>)
    ensures |r| == k && forall i | 0 <= i < k :: r[i] == x
  {
    seq(k, _ => x)
  }

  // ---- Expiries that put every task behind some other ------------------------------------------

  /** What such an expiry makes of min_priority, with n tasks in the list and the count t before. */
  function Tick(n: nat, m: int, t: int): (r: Option<int>) {
    var m' := if Exhausted(m, t + 1) then n + 1 else m + 1;
    if m' > PRIORITY_NUM then None else Some(m')
  }

  /** The same after k expiries. */
  function Course(n: nat, m: int, t: int, k: nat): (r: Option<int>) {
    if k == 0 then Some(m)
    else match Course(n, m, t, k - 1) case None => None case Some(m') => Tick(n, m', t + k - 1)
  }

  /** Numbers that a line of two or more tasks has. */
  predicate Paced(n: nat, m: int, t: int) {
    2 <= n < m <= PRIORITY_NUM && n - 1 <= t
  }

  /** No task is more than c behind the first. */
  predicate Near(keys: seq<int>, c: int) {
    keys != [] && forall i | 0 <= i < |keys| :: keys[i] <= keys[0] + c
  }

  /** A line whose numbers are those of k ticks on from l. */
  predicate Ticked(l: Line, k: nat, c: int, r: Option<Line>) {
    var n := |l.keys|;
    && (r.None? <==> Course(n, l.m, l.t, k).None?)
    && (r.Some? ==>
          var l1 := r.value;
          LineOk(l1) && |l1.keys| == n && Course(n, l.m, l.t, k) == Some(l1.m) && l1.t == l.t + k && Near(l1.keys, c))
  }

  lemma TickBehind(l: Line, c: int)
    requires LineOk(l) && |l.keys| >= 2 && Near(l.keys, c)
    ensures var r, m' := Occur(l, Expiry(c)), Tick(|l.keys|, l.m, l.t);
            && (r.None? <==> m'.None?)
            && (r.Some? ==>
                  && LineOk(r.value) && |r.value.keys| == |l.keys| && r.value.m == m'.value && r.value.t == l.t + 1
                  && Near(r.value.keys, c))
  {
    OccurOk(l, Expiry(c));
    InsertIn(l.keys[1..], l.keys[0] + c, l.keys[0], l.keys[0] + c);
  }

  /** Charged c each, tasks that are not more than c apart stay so, and none is put in front. */
  lemma {:induction false} FollowEqual(l: Line, c: int, k: nat)
    requires LineOk(l) && |l.keys| >= 2 && Near(l.keys, c)
    ensures Ticked(l, k, c, Follow(l, Charges(Same(c, k))))
  {
    if k > 0 {
      FollowEqual(l, c, k - 1);
      assert Same(c, k) == Same(c, k - 1) + [c];
      ChargesNext(Same(c, k - 1), c);
      FollowNext(l, Charges(Same(c, k - 1)), Expiry(c));
      var r := Follow(l, Charges(Same(c, k - 1)));
      if r.Some? { TickBehind(r.value, c); }
    }
  }

  lemma {:induction false} CourseFrom(n: nat, m: int, t: int, k: nat, j: nat)
    ensures Course(n, m, t, k + j) ==
            match Course(n, m, t, k) case None => None case Some(m') => Course(n, m', t + k, j)
  {
    if j > 0 { CourseFrom(n, m, t, k, j - 1); }
  }

  lemma CourseHalted(n: nat, m: int, t: int, k: nat, j: nat)
    requires k <= j && Course(n, m, t, k).None?
    ensures Course(n, m, t, j).None?
  {
    CourseFrom(n, m, t, k, j - k);
  }

  /** Past the half, or when the count of insertions comes to the half together with min_priority, the
      exhaustion is never noticed. */
  predicate Unnoticed(m: int, t: int) {
    m > HALF || m == t + 1
  }

  lemma {:induction false} Climbs(n: nat, m: int, t: int, k: nat)
    requires Paced(n, m, t) && Unnoticed(m, t) && m + k <= PRIORITY_NUM
    ensures Course(n, m, t, k) == Some(m + k)
  {
    if k > 0 { Climbs(n, m, t, k - 1); }
  }

  lemma Starves(n: nat, m: int, t: int)
    requires Paced(n, m, t) && Unnoticed(m, t)
    ensures Course(n, m, t, PRIORITY_NUM + 1 - m).None?
  {
    Climbs(n, m, t, PRIORITY_NUM - m);
  }

  /** The next exhaustion is noticed, and so are all after it. */
  predicate Noticed(n: nat, m: int, t: int) {
    m <= HALF && m != t + 1 && (m < HALF || t != n - 1)
  }

  lemma {:induction false} NoticedRuns(n: nat, m: int, t: int, k: nat)
    requires Paced(n, m, t) && Noticed(n, m, t)
    ensures var r := Course(n, m, t, k);
            r.Some? && Paced(n, r.value, t + k) && Noticed(n, r.value, t + k)
  {
    if k > 0 { NoticedRuns(n, m, t, k - 1); }
  }

  /** The count of insertions is just n - 1 when the priorities are exhausted for the first time. */
  lemma LateStarves(n: nat, t: int)
    requires Paced(n, HALF, t) && HALF != t + 1 && t == n - 1
    ensures Course(n, HALF, t, PRIORITY_NUM + 1 - n).None?
  {
    Starves(n, n + 1, n);
    CourseFrom(n, HALF, t, 1, PRIORITY_NUM - n);
  }

  /** However long the run, it never halts for want of a priority if and only if, counting on from here,
      the exhaustion is noticed the first time and the second; otherwise it halts within 31 steps. */
  lemma CourseForever(n: nat, m: int, t: int, k: nat)
    requires Paced(n, m, t)
    ensures Noticed(n, m, t) ==> Course(n, m, t, k).Some?
    ensures !Noticed(n, m, t) && k >= PRIORITY_NUM + 1 - n ==> Course(n, m, t, k).None?
  {
    if Noticed(n, m, t) {
      NoticedRuns(n, m, t, k);
    } else if k >= PRIORITY_NUM + 1 - n {
      if Unnoticed(m, t) {
        Starves(n, m, t);
        CourseHalted(n, m, t, PRIORITY_NUM + 1 - m, k);
      } else {
        LateStarves(n, t);
        CourseHalted(n, m, t, PRIORITY_NUM + 1 - n, k);
      }
    }
  }

  /** With a single task, or none, min_priority does not move. */
  lemma {:induction false} AloneRuns(l: Line, cs: seq<int>)
    requires LineOk(l) && |l.keys| <= 1
    ensures var r := Follow(l, Charges(cs)); r.Some? && LineOk(r.value) && |r.value.keys| == |l.keys|
    decreases |cs|
  {
    if cs != [] {
      var last := |cs| - 1;
      AloneRuns(l, cs[..last]);
      assert cs == cs[..last] + [cs[last]];
      ChargesNext(cs[..last], cs[last]);
      FollowNext(l, Charges(cs[..last]), Expiry(cs[last]));
    }
  }

  /** Tasks no more than c apart that are charged c each: the kernel never halts for want of a priority if
      and only if the exhaustion is noticed. */
  lemma EqualForever(l: Line, c: int)
    requires LineOk(l) && |l.keys| >= 2 && Near(l.keys, c)
    ensures (forall k: nat :: Follow(l, Charges(Same(c, k))).Some?) <==> Noticed(|l.keys|, l.m, l.t)
  {
    forall k: nat
      ensures Noticed(|l.keys|, l.m, l.t) ==> Follow(l, Charges(Same(c, k))).Some?
      ensures !Noticed(|l.keys|, l.m, l.t) && k == PRIORITY_NUM ==> Follow(l, Charges(Same(c, k))).None?
    {
      FollowEqual(l, c, k);
      CourseForever(|l.keys|, l.m, l.t, k);
    }
    assert Noticed(|l.keys|, l.m, l.t) || Follow(l, Charges(Same(c, PRIORITY_NUM))).None?;
  }

  // ---- Expiries with any charges ---------------------------------------------------------------

  /** No exhaustion goes unnoticed, wherever the tasks go. */
  predicate Safe(n: nat, m: int, t: int) {
    m <= HALF && m != t + 1 && t != n - 1
  }

  lemma SafeTick(l: Line, c: int)
    requires LineOk(l) && |l.keys| >= 2 && Safe(|l.keys|, l.m, l.t)
    ensures var r := Occur(l, Expiry(c));
            r.Some? && LineOk(r.value) && |r.value.keys| == |l.keys| && Safe(|l.keys|, r.value.m, r.value.t)
  {
    OccurOk(l, Expiry(c));
  }

  lemma {:induction false} SafeRuns(l: Line, cs: seq<int>)
    requires LineOk(l) && |l.keys| >= 2 && Safe(|l.keys|, l.m, l.t)
    ensures var r := Follow(l, Charges(cs));
            r.Some? && LineOk(r.value) && |r.value.keys| == |l.keys| && Safe(|l.keys|, r.value.m, r.value.t)
    decreases |cs|
  {
    if cs != [] {
      var last := |cs| - 1;
      SafeRuns(l, cs[..last]);
      assert cs == cs[..last] + [cs[last]];
      ChargesNext(cs[..last], cs[last]);
      FollowNext(l, Charges(cs[..last]), Expiry(cs[last]));
      SafeTick(Follow(l, Charges(cs[..last])).value, cs[last]);
    }
  }

  /** There are at most one task, or numbers that no charge can bring to the half at the wrong time: tasks
      that were started once each must not come to it, and must not be able to stay in front, either. */
  predicate Lasting(l: Line) {
    var n := |l.keys|;
    n <= 1
    || (l.m <= HALF && l.m != l.t + 1 && (l.t != n - 1 || (l.m < HALF && l.keys[0] == l.keys[1])))
  }

  /** The first expiry of a run, and the others. */
  lemma FirstCharge(l: Line, c: int, cs: seq<int>)
    ensures Follow(l, Charges([c] + cs)) ==
            match Occur(l, Expiry(c)) case None => None case Some(l1) => Follow(l1, Charges(cs))
  {
    ChargesOn([c], cs);
    FollowOn(l, Charges([c]), Charges(cs));
    FollowNext(l, [], Expiry(c));
    assert Charges([c]) == [] + [Expiry(c)];
  }

  lemma LastingRuns(l: Line, cs: seq<nat>)
    requires LineOk(l) && Lasting(l)
    ensures Follow(l, Charges(cs)).Some?
  {
    if |l.keys| <= 1 {
      AloneRuns(l, cs);
    } else if Safe(|l.keys|, l.m, l.t) {
      SafeRuns(l, cs);
    } else if cs != [] {
      assert cs == [cs[0]] + cs[1..];
      FirstCharge(l, cs[0], cs[1..]);
      OccurOk(l, Expiry(cs[0]));
      SafeRuns(Occur(l, Expiry(cs[0])).value, cs[1..]);
    }
  }

  /** Charges that halt the kernel if any do: nothing for the first quantum when that does harm, and then
      as much for each as the last task is behind the first. */
  function Ruin(l: Line): (r: seq<nat>)
    requires LineOk(l) && |l.keys| >= 2
  {
    var c := l.keys[|l.keys| - 1] - l.keys[0];
    if Unnoticed(l.m, l.t) then Same(c, PRIORITY_NUM) else [0] + Same(c, PRIORITY_NUM)
  }

  lemma RuinHalts(l: Line)
    requires LineOk(l) && !Lasting(l)
    ensures Follow(l, Charges(Ruin(l))).None?
  {
    hide Occur, Follow, Charges, Same;
    var n, c := |l.keys|, l.keys[|l.keys| - 1] - l.keys[0];
    if Unnoticed(l.m, l.t) {
      FollowEqual(l, c, PRIORITY_NUM);
      CourseForever(n, l.m, l.t, PRIORITY_NUM);
    } else {
      FirstCharge(l, 0, Same(c, PRIORITY_NUM));
      IdleFirst(l, c);
      var l1 := Occur(l, Expiry(0)).value;
      FollowEqual(l1, c, PRIORITY_NUM);
      CourseForever(n, l1.m, l1.t, PRIORITY_NUM);
    }
  }

  /** An expiry that charges nothing sets the numbers where they starve. */
  lemma IdleFirst(l: Line, c: int)
    requires LineOk(l) && !Lasting(l) && !Unnoticed(l.m, l.t) && c == l.keys[|l.keys| - 1] - l.keys[0]
    ensures var r := Occur(l, Expiry(0));
            && r.Some? && LineOk(r.value) && |r.value.keys| == |l.keys| && Near(r.value.keys, c)
            && Unnoticed(r.value.m, r.value.t)
  {
    OccurOk(l, Expiry(0));
    InsertIn(l.keys[1..], l.keys[0], l.keys[0], l.keys[|l.keys| - 1]);
  }

  /** No run of quantum expiries whatever, each charged some time or none, halts the kernel for want of a
      priority if and only if the line is lasting. */
  lemma ExpiriesForever(l: Line)
    requires LineOk(l)
    ensures (forall cs: seq<nat> :: Follow(l, Charges(cs)).Some?) <==> Lasting(l)
  {
    if Lasting(l) {
      forall cs: seq<nat> ensures Follow(l, Charges(cs)).Some? { LastingRuns(l, cs); }
    } else {
      RuinHalts(l);
      assert Follow(l, Charges(Ruin(l))).None?;
    }
  }

  // ---- Tasks that are started in a fresh kernel ------------------------------------------------

  const FRESH := Line([], 1, -1, 0)

  lemma InsertSame(k: int, n: nat)
    ensures Insert(Same(k, n), k) == Same(k, n + 1)
  {
    InsertIn(Same(k, n), k, k, k);
  }

  /** n tasks that all have the key k, in a fresh kernel. */
  function FreshTasks(n: nat, k: int): (r: Line)
  {
    if n <= 1 then Line(Same(k, n), 1, -1, 0) else Line(Same(k, n), 1, n + 1, n - 1)
  }

  lemma FreshPut(n: nat, k: int)
    ensures Put(FreshTasks(n, k), k) == if n + 1 < PRIORITY_NUM then Some(FreshTasks(n + 1, k)) else None
  {
    InsertSame(k, n);
  }

  lemma {:induction false} FreshLine(n: nat, k: int)
    ensures Follow(FRESH, Same(Start(k, false), n)) == if n < PRIORITY_NUM then Some(FreshTasks(n, k)) else None
  {
    if n > 0 {
      FreshLine(n - 1, k);
      assert Same(Start(k, false), n) == Same(Start(k, false), n - 1) + [Start(k, false)];
      FollowNext(FRESH, Same(Start(k, false), n - 1), Start(k, false));
      if n - 1 < PRIORITY_NUM { FreshPut(n - 1, k); }
    }
  }

  /** n equal tasks started in a fresh kernel, and then charged c each for j quanta: with at most 14 the
      kernel never halts for want of a priority, with more it has halted after 18 quanta. */
  lemma FreshForever(n: nat, k: int, c: int, j: nat)
    requires c >= 0
    ensures n <= 14 ==> Follow(FRESH, Same(Start(k, false), n) + Charges(Same(c, j))).Some?
    ensures n >= 15 && j >= 18 ==> Follow(FRESH, Same(Start(k, false), n) + Charges(Same(c, j))).None?
  {
    FreshLine(n, k);
    FollowOn(FRESH, Same(Start(k, false), n), Charges(Same(c, j)));
    if n <= 1 {
      AloneRuns(FreshTasks(n, k), Same(c, j));
    } else if n < PRIORITY_NUM {
      FollowEqual(FreshTasks(n, k), c, j);
      CourseForever(n, n + 1, n - 1, j);
    }
  }

  /** Two tasks with keys 0 and 3 in a fresh kernel. */
  lemma TwoStart()
    ensures Follow(FRESH, Starts([0, 3])) == Some(Line([0, 3], 1, 3, 1))
  {
    StartsNext([], 0);
    StartsNext([0], 3);
    FollowNext(FRESH, Starts([]), Start(0, false));
    FollowNext(FRESH, Starts([0]), Start(3, false));
    assert [] + [0] == [0] && [0] + [3] == [0, 3] && Insert([0], 3) == [0, 3];
  }

  /** Charged 2 for the first quantum, the first of them stays in front. */
  lemma TwoFirst()
    ensures Occur(Line([0, 3], 1, 3, 1), Expiry(2)) == Some(Line([2, 3], 1, 3, 2))
  {
    assert [0, 3][1..] == [3] && Insert([3], 2) == [2, 3];
  }

  /** Charged 2 for every quantum, they halt the kernel. */
  lemma TwoStarve()
    ensures Follow(Line([0, 3], 1, 3, 1), Charges(Same(2, 31))).None?
  {
    hide Occur, Tick;
    TwoFirst();
    assert [2] + Same(2, 30) == Same(2, 31);
    FirstCharge(Line([0, 3], 1, 3, 1), 2, Same(2, 30));
    FollowEqual(Line([2, 3], 1, 3, 2), 2, 30);
    Starves(2, 3, 2);
  }

  /** Two tasks that start and leave. */
  lemma TwoLines()
    ensures Follow(FRESH, Starts([0, 1])) == Some(Line([0, 1], 1, 3, 1))
    ensures Rest(Line([0, 1], 1, 3, 1)) == Line([1], 2, 3, 1) && Rest(Line([1], 2, 3, 1)) == Line([], 1, 3, 1)
    ensures Put(Line([], 1, 3, 1), 0) == Some(Line([0], 1, 3, 1))
  {
    StartsNext([], 0);
    StartsNext([0], 1);
    FollowNext(FRESH, Starts([]), Start(0, false));
    FollowNext(FRESH, Starts([0]), Start(1, false));
    assert [] + [0] == [0] && [0] + [1] == [0, 1] && Insert([0], 1) == [0, 1];
  }

  // ---- Tasks that come and go ------------------------------------------------------------------

  /** Never more than n tasks are in the list. */
  predicate AtMost(l: Line, es: seq<Event>, n: nat)
    decreases |es|
  {
    && (es != [] ==> AtMost(l, es[..|es| - 1], n))
    && (Follow(l, es).Some? ==> |Follow(l, es).value.keys| <= n)
  }

  /** Every task but the first was counted long ago, and min_priority is at most the half. */
  predicate Settled(l: Line) {
    && l.m <= HALF <= l.t && |l.keys| < HALF
    && (|l.keys| == 1 ==> l.first == 1 || l.m == l.first + 1)
  }

  lemma SettledOccur(l: Line, e: Event)
    requires LineOk(l) && Settled(l)
    requires Occur(l, e).Some? ==> |Occur(l, e).value.keys| < HALF
    ensures var r := Occur(l, e); r.Some? && LineOk(r.value) && Settled(r.value)
  {
    OccurOk(l, e);
  }

  lemma {:induction false} SettledRuns(l: Line, es: seq<Event>)
    requires LineOk(l) && Settled(l) && AtMost(l, es, HALF - 1)
    ensures var r := Follow(l, es); r.Some? && LineOk(r.value) && Settled(r.value)
    decreases |es|
  {
    if es != [] {
      var last := |es| - 1;
      SettledRuns(l, es[..last]);
      SettledOccur(Follow(l, es[..last]).value, es[last]);
    }
  }

  /** Tasks come, go and run on in any way, but for stale starts, once min_priority is at most 16 and 16
      insertions have been counted: the kernel is sure not to halt for want of a priority, with at most n
      tasks at a time, if and only if n is at most 15. */
  lemma SettledForever(l: Line, n: nat)
    requires LineOk(l) && Settled(l) && |l.keys| <= n
    ensures (forall es | AtMost(l, es, n) && Guarded(es) :: Follow(l, es).Some?) <==> n < HALF
  {
    if n < HALF {
      forall es | AtMost(l, es, n) && Guarded(es) ensures Follow(l, es).Some? {
        FewerStill(l, es, n, HALF - 1);
        SettledRuns(l, es);
      }
    } else {
      var es := Crowd(l, n);
      assert AtMost(l, es, n) && Guarded(es) && Follow(l, es).None?;
    }
  }

  lemma {:induction false} FewerStill(l: Line, es: seq<Event>, n: nat, n': nat)
    requires AtMost(l, es, n) && n <= n'
    ensures AtMost(l, es, n')
    decreases |es|
  {
    if es != [] { FewerStill(l, es[..|es| - 1], n, n'); }
  }

  lemma AtMostNext(l: Line, es: seq<Event>, e: Event, n: nat)
    requires AtMost(l, es, n) && (Follow(l, es + [e]).Some? ==> |Follow(l, es + [e]).value.keys| <= n)
    ensures AtMost(l, es + [e], n)
  {
    assert (es + [e])[..|es|] == es;
  }

  /** Tasks are started until there are 16, and then run until the priorities are exhausted. */
  lemma Crowd(l: Line, n: nat) returns (es: seq<Event>)
    requires LineOk(l) && |l.keys| <= HALF <= n
    ensures AtMost(l, es, n) && Guarded(es) && Follow(l, es).None?
  {
    es := [];
    var l1 := l;
    while |l1.keys| < HALF
      invariant LineOk(l1) && |l1.keys| <= HALF && Follow(l, es) == Some(l1) && AtMost(l, es, n) && Guarded(es)
      decreases HALF - |l1.keys|
    {
      FollowNext(l, es, Start(0, false));
      OccurOk(l1, Start(0, false));
      AtMostNext(l, es, Start(0, false), n);
      es := es + [Start(0, false)];
      if Follow(l, es).None? { return; }
      l1 := Follow(l, es).value;
    }
    var cs := Ruin(l1);
    RuinHalts(l1);
    SameCrowd(l1, cs, n);
    FollowOn(l, es, Charges(cs));
    AtMostOn(l, es, Charges(cs), l1, n);
    es := es + Charges(cs);
  }

  lemma {:induction false} SameCrowd(l: Line, cs: seq<int>, n: nat)
    requires LineOk(l) && |l.keys| <= n
    ensures AtMost(l, Charges(cs), n)
    ensures Follow(l, Charges(cs)).Some? ==>
              LineOk(Follow(l, Charges(cs)).value) && |Follow(l, Charges(cs)).value.keys| == |l.keys|
    decreases |cs|
  {
    if cs != [] {
      var last := |cs| - 1;
      SameCrowd(l, cs[..last], n);
      assert cs == cs[..last] + [cs[last]];
      ChargesNext(cs[..last], cs[last]);
      FollowNext(l, Charges(cs[..last]), Expiry(cs[last]));
      var r := Follow(l, Charges(cs[..last]));
      if r.Some? { OccurOk(r.value, Expiry(cs[last])); }
      AtMostNext(l, Charges(cs[..last]), Expiry(cs[last]), n);
    }
  }

  lemma {:induction false} AtMostOn(l: Line, a: seq<Event>, b: seq<Event>, l1: Line, n: nat)
    requires AtMost(l, a, n) && Follow(l, a) == Some(l1) && AtMost(l1, b, n)
    ensures AtMost(l, a + b, n)
    decreases |b|
  {
    FollowOn(l, a, b);
    if b == [] {
      assert a + b == a;
    } else {
      var last := |b| - 1;
      AtMostOn(l, a, b[..last], l1, n);
      assert (a + b)[..|a + b| - 1] == a + b[..last];
    }
  }
}
