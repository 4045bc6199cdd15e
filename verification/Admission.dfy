/** Rate and deadline monotonic admission: the kernel keeps the least common multiple of all periods
    and the time all tasks need in that span, and freezes when the time does not fit. */
module Admission {

  /** A task's period (its deadline under deadline monotonic scheduling) and execution time. */
  datatype Load = Load(len: int, exetim: int)

  // ---- Divisibility ----------------------------------------------------------------------------

  ghost predicate Divides(d: int, n: int) {
    exists k: int :: n == d * k
  }

  lemma DividesBy(d: int, n: int, k: int)
    requires n == d * k
    ensures Divides(d, n)
  {
  }

  lemma DividesMod(d: int, n: int)
    requires d > 0
    ensures Divides(d, n) <==> n % d == 0
  {
    if Divides(d, n) {
      var k :| n == d * k;
      ModOfMultiple(d, k);
    } else if n % d == 0 {
      DividesBy(d, n, n / d);
    }
  }

  lemma ModOfMultiple(d: int, k: int)
    requires d > 0
    ensures (d * k) % d == 0
  {
    var n := d * k;
    var q, r := n / d, n % d;
    assert d * (k - q) == r;
    if k - q >= 1 { MulMono(d, 1, k - q); }
    if k - q <= -1 { MulMono(d, k - q, -1); }
  }

  lemma MulMono(d: int, a: int, b: int)
    requires d >= 0 && a <= b
    ensures d * a <= d * b
  {
  }

  lemma DividesTrans(a: int, b: int, c: int)
    requires Divides(a, b) && Divides(b, c)
    ensures Divides(a, c)
  {
    var j :| b == a * j;
    var k :| c == b * k;
    Assoc(a, j, k);
    DividesBy(a, c, j * k);
  }

  lemma Assoc(a: int, b: int, c: int)
    ensures (a * b) * c == a * (b * c)
  {
  }

  lemma DividesEach(a: int, b: int)
    requires a > 0 && b > 0 && Divides(a, b) && Divides(b, a)
    ensures a == b
  {
    DividesAtMost(a, b);
    DividesAtMost(b, a);
  }

  lemma DividesAtMost(a: int, b: int)
    requires a > 0 && b > 0 && Divides(a, b)
    ensures a <= b
  {
    var k :| b == a * k;
    if k <= 0 { MulMono(a, k, 0); }
    MulMono(a, 1, k);
  }

  // ---- Euclid ----------------------------------------------------------------------------------

  function Gcd(a: int, b: int): (g: int)
    requires a > 0 && b > 0
    ensures g > 0
    decreases b
  {
    if a % b == 0 then b else Gcd(b, a % b)
  }

  lemma {:induction false} GcdDivides(a: int, b: int)
    requires a > 0 && b > 0
    ensures Divides(Gcd(a, b), a) && Divides(Gcd(a, b), b)
    decreases b
  {
    if a % b == 0 {
      DividesMod(b, a);
      DividesBy(b, b, 1);
    } else {
      var g := Gcd(b, a % b);
      GcdDivides(b, a % b);
      var j :| b == g * j;
      var k :| a % b == g * k;
      Combine(g, j, a / b, k);
      DividesBy(g, a, j * (a / b) + k);
    }
  }

  lemma Combine(g: int, j: int, q: int, k: int)
    ensures g * (j * q + k) == (g * j) * q + g * k
  {
  }

  /** The greatest common divisor is a combination of the two numbers. */
  lemma {:induction false} Bezout(a: int, b: int) returns (x: int, y: int)
    requires a > 0 && b > 0
    ensures a * x + b * y == Gcd(a, b)
    decreases b
  {
    if a % b == 0 {
      x, y := 0, 1;
    } else {
      var u, v := Bezout(b, a % b);
      var q := a / b;
      x, y := v, u - q * v;
      assert a == b * q + a % b;
      BezoutStep(a, b, q, a % b, u, v);
    }
  }

  lemma BezoutStep(a: int, b: int, q: int, r: int, u: int, v: int)
    requires a == b * q + r
    ensures a * v + b * (u - q * v) == b * u + r * v
  {
    assert a * v == (b * q) * v + r * v;
    Assoc(b, q, v);
    assert b * (u - q * v) == b * u - b * (q * v);
  }

  // ---- The least common multiple ---------------------------------------------------------------

  function Lcm(a: int, b: int): (r: int)
    requires a > 0 && b > 0
  {
    a * b / Gcd(a, b)
  }

  /** a and b divide their least common multiple, which divides every common multiple. */
  lemma LcmSpec(a: int, b: int)
    requires a > 0 && b > 0
    ensures Lcm(a, b) > 0 && Divides(a, Lcm(a, b)) && Divides(b, Lcm(a, b))
    ensures forall m: int {:trigger Divides(a, m)} | Divides(a, m) && Divides(b, m) :: Divides(Lcm(a, b), m)
  {
    var g := Gcd(a, b);
    GcdDivides(a, b);
    var i :| a == g * i;
    var j :| b == g * j;
    LcmQuotient(a, b, g, i, j);
    var l := Lcm(a, b);
    DividesBy(a, l, j);
    DividesBy(b, l, i);
    forall m: int | Divides(a, m) && Divides(b, m) ensures Divides(l, m) {
      var x, y := Bezout(a, b);
      LcmLeast(a, b, g, i, j, x, y, m);
    }
  }

  lemma LcmQuotient(a: int, b: int, g: int, i: int, j: int)
    requires a > 0 && b > 0 && g > 0 && a == g * i && b == g * j
    ensures a * b / g == a * j == b * i && a * j > 0
  {
    assert a * b == g * (a * j);
    DivExact(g, a * j);
    assert a * j == (g * i) * j && b * i == (g * j) * i;
    if j <= 0 { MulMono(g, j, 0); }
    MulMono(a, 1, j);
  }

  lemma DivExact(g: int, n: int)
    requires g > 0
    ensures (g * n) / g == n
  {
    ModOfMultiple(g, n);
    var q := (g * n) / g;
    assert g * n == g * q;
    if q < n { MulMono(g, q, n - 1); }
    if q > n { MulMono(g, n, q - 1); }
  }

  lemma LcmLeast(a: int, b: int, g: int, i: int, j: int, x: int, y: int, m: int)
    requires a > 0 && b > 0 && g > 0 && a == g * i && b == g * j && a * x + b * y == g
    requires Divides(a, m) && Divides(b, m)
    ensures Divides(a * j, m)
  {
    var s :| m == a * s;
    var t :| m == b * t;
    // m * g == (a * j) * g * (t * x + s * y)
    var l := a * j;
    assert m * (a * x) == (b * t) * (a * x);
    assert m * (b * y) == (a * s) * (b * y);
    assert a * b == l * g;
    Scale(a, b, t, x);
    Scale(b, a, s, y);
    assert m * g == m * (a * x) + m * (b * y);
    assert m * g == (l * g) * (t * x) + (l * g) * (s * y);
    Factor(l, g, t * x, s * y);
    Cancel(m, l * (t * x + s * y), g);
    DividesBy(l, m, t * x + s * y);
  }

  lemma Scale(a: int, b: int, t: int, x: int)
    ensures (b * t) * (a * x) == (a * b) * (t * x)
  {
  }

  lemma Factor(l: int, g: int, u: int, v: int)
    ensures (l * g) * u + (l * g) * v == (l * (u + v)) * g
  {
  }

  lemma Cancel(m: int, n: int, g: int)
    requires g > 0 && m * g == n * g
    ensures m == n
  {
  }

  // ---- Sets of tasks ---------------------------------------------------------------------------

  /** The check that task creation makes: a task can at least run once in its own span. */
  predicate Admissible(t: Load) {
    0 < t.exetim <= t.len
  }

  predicate AllAdmissible(ts: seq<Load>) {
    forall i | 0 <= i < |ts| :: Admissible(ts[i])
  }

  /** The span after which all tasks start together again. */
  function Span(ts: seq<Load>): (n: int)
    requires ts != [] && AllAdmissible(ts)
    ensures n > 0
  {
    var last := |ts| - 1;
    if last == 0 then ts[0].len
    else
      LcmSpec(Span(ts[..last]), ts[last].len);
      Lcm(Span(ts[..last]), ts[last].len)
  }

  /** The time all tasks together need in a span n. */
  function Demand(ts: seq<Load>, n: int): (r: int)
    requires AllAdmissible(ts)
  {
    if ts == [] then 0
    else
      var last := |ts| - 1;
      Demand(ts[..last], n) + ts[last].exetim * (n / ts[last].len)
  }

  /** The sum of all execution times over their spans. */
  function Utilisation(ts: seq<Load>): (r: real)
    requires AllAdmissible(ts)
  {
    if ts == [] then 0.0
    else
      var last := |ts| - 1;
      Utilisation(ts[..last]) + ts[last].exetim as real / ts[last].len as real
  }

  ghost predicate CommonMultiple(ts: seq<Load>, n: int) {
    forall i | 0 <= i < |ts| :: Divides(ts[i].len, n)
  }

  /** The span is a common multiple of all periods and divides every other one. */
  lemma {:induction false} SpanIsLeast(ts: seq<Load>)
    requires ts != [] && AllAdmissible(ts)
    ensures CommonMultiple(ts, Span(ts))
    ensures forall m: int | CommonMultiple(ts, m) :: Divides(Span(ts), m)
  {
    var last := |ts| - 1;
    if last == 0 {
      DividesBy(ts[0].len, ts[0].len, 1);
    } else {
      var init := ts[..last];
      SpanIsLeast(init);
      LcmSpec(Span(init), ts[last].len);
      forall i | 0 <= i < |ts| ensures Divides(ts[i].len, Span(ts)) {
        if i < last {
          assert init[i] == ts[i];
          DividesTrans(ts[i].len, Span(init), Span(ts));
        }
      }
      forall m: int | CommonMultiple(ts, m) ensures Divides(Span(ts), m) {
        assert CommonMultiple(init, m) by {
          forall i | 0 <= i < |init| ensures Divides(init[i].len, m) { assert init[i] == ts[i]; }
        }
        assert Divides(Span(init), m) && Divides(ts[last].len, m);
      }
    }
  }

  /** Stretching a common multiple stretches the demand alike. */
  lemma {:induction false} DemandScales(ts: seq<Load>, n: int, q: int)
    requires AllAdmissible(ts) && CommonMultiple(ts, n)
    ensures Demand(ts, n * q) == Demand(ts, n) * q
  {
    if ts != [] {
      var last := |ts| - 1;
      var t := ts[last];
      assert CommonMultiple(ts[..last], n) by {
        forall i | 0 <= i < last ensures Divides(ts[..last][i].len, n) { assert ts[..last][i] == ts[i]; }
      }
      DemandScales(ts[..last], n, q);
      var k :| n == t.len * k;
      DivExact(t.len, k);
      Assoc(t.len, k, q);
      DivExact(t.len, k * q);
      Assoc(t.exetim, k, q);
      Distribute(Demand(ts[..last], n), t.exetim * k, q);
    }
  }

  lemma Distribute(a: int, b: int, q: int)
    ensures (a + b) * q == a * q + b * q
  {
  }

  // ---- What the scheduler keeps ----------------------------------------------------------------

  class Unrolled {
    var span: int       // unroll_rate, or unroll_dead
    var exetim: int     // unroll_exetim

    constructor ()
      ensures Holds([])
    {
      span, exetim := 0, 0;
    }

    ghost predicate Holds(ts: seq<Load>)
      reads this
    {
      && AllAdmissible(ts)
      && (ts == [] ==> span == 0 && exetim == 0)
      && (ts != [] ==> span == Span(ts) && exetim == Demand(ts, Span(ts)) > 0)
    }

    /** set_unrolled_schedule_val, called when a task is created. */
    method Add(len: int, exe: int, ghost ts: seq<Load>)
      requires Holds(ts) && Admissible(Load(len, exe))
      modifies this
      ensures Holds(ts + [Load(len, exe)])
    {
      ghost var t := Load(len, exe);
      if span != 0 && exetim != 0 {
        var a, b := span, len;
        while a % b != 0
          invariant a > 0 && b > 0 && Gcd(a, b) == Gcd(span, len)
          decreases b
        {
          a, b := b, a % b;
        }
        var next := span * len / b;
        var quo := next / span;
        Extend(ts, t);
        exetim := exetim * quo + exe * (next / len);
        span := next;
      } else {
        First(t);
        span, exetim := len, exe;
        assert ts + [t] == [t];
      }
    }

    /** The check before every dispatch: the kernel freezes if and only if the tasks together need
        more than the whole processor. */
    method Misses(ghost ts: seq<Load>) returns (miss: bool)
      requires Holds(ts)
      ensures miss <==> Utilisation(ts) > 1.0
    {
      if ts != [] { ExactTest(ts); }
      miss := span < exetim;
    }
  }

  lemma First(t: Load)
    requires Admissible(t)
    ensures Span([t]) == t.len && Demand([t], t.len) == t.exetim
  {
    DivExact(t.len, 1);
    assert [t][..0] == [];
  }

  /** One task more: the new span is a multiple of the old, and the demand follows. */
  lemma Extend(ts: seq<Load>, t: Load)
    requires ts != [] && AllAdmissible(ts) && Admissible(t) && Demand(ts, Span(ts)) > 0
    ensures var all, n := ts + [t], Span(ts);
            && AllAdmissible(all)
            && Span(all) == n * t.len / Gcd(n, t.len)
            && Demand(all, Span(all)) == Demand(ts, n) * (Span(all) / n) + t.exetim * (Span(all) / t.len)
            && Demand(all, Span(all)) > 0
  {
    var all, n := ts + [t], Span(ts);
    assert all[..|ts|] == ts;
    LcmSpec(n, t.len);
    SpanIsLeast(ts);
    var q :| Span(all) == n * q;
    DivExact(n, q);
    DemandScales(ts, n, q);
    var k :| Span(all) == t.len * k;
    DivExact(t.len, k);
    if q <= 0 { MulMono(n, q, 0); }
    if k <= 0 { MulMono(t.len, k, 0); }
    Positive(Demand(ts, n), q, t.exetim, k);
  }

  lemma Positive(a: int, q: int, e: int, k: int)
    requires a > 0 && q > 0 && e > 0 && k > 0
    ensures a * q + e * k > 0
  {
    MulMono(a, 1, q);
    MulMono(e, 1, k);
  }

  // ---- The test is exact -----------------------------------------------------------------------

  lemma {:induction false} DemandOverSpan(ts: seq<Load>, n: int)
    requires AllAdmissible(ts) && n > 0 && CommonMultiple(ts, n)
    ensures Demand(ts, n) as real == Utilisation(ts) * n as real
  {
    if ts != [] {
      var last := |ts| - 1;
      var t := ts[last];
      assert CommonMultiple(ts[..last], n) by {
        forall i | 0 <= i < last ensures Divides(ts[..last][i].len, n) { assert ts[..last][i] == ts[i]; }
      }
      DemandOverSpan(ts[..last], n);
      var k :| n == t.len * k;
      DivExact(t.len, k);
      Share(t.exetim, t.len, k);
    }
  }

  lemma Share(e: int, len: int, k: int)
    requires len > 0
    ensures (e * k) as real == e as real / len as real * (len * k) as real
  {
    assert (len * k) as real == len as real * k as real;
    assert e as real / len as real * len as real == e as real;
  }

  lemma ExactTest(ts: seq<Load>)
    requires ts != [] && AllAdmissible(ts)
    ensures Span(ts) < Demand(ts, Span(ts)) <==> Utilisation(ts) > 1.0
  {
    var n := Span(ts);
    SpanIsLeast(ts);
    DemandOverSpan(ts, n);
    Compare(Utilisation(ts), n, Demand(ts, n));
  }

  lemma Compare(u: real, n: int, d: int)
    requires n > 0 && d as real == u * n as real
    ensures n < d <==> u > 1.0
  {
    var x, y := n as real, d as real;
    assert n < d <==> x < y;
    if u > 1.0 { assert (u - 1.0) * x > 0.0; } else { assert (1.0 - u) * x >= 0.0; }
  }

  // ---- The order of creation does not matter ---------------------------------------------------

  lemma SameSpan(ts: seq<Load>, ts': seq<Load>)
    requires ts != [] && AllAdmissible(ts) && AllAdmissible(ts') && multiset(ts) == multiset(ts')
    ensures ts' != [] && Span(ts) == Span(ts')
  {
    assert |multiset(ts)| == |ts| && |multiset(ts')| == |ts'|;
    SpanIsLeast(ts);
    SpanIsLeast(ts');
    SameMultiples(ts, ts', Span(ts));
    SameMultiples(ts', ts, Span(ts'));
    DividesEach(Span(ts), Span(ts'));
  }

  lemma SameMultiples(ts: seq<Load>, ts': seq<Load>, n: int)
    requires multiset(ts) == multiset(ts') && CommonMultiple(ts, n)
    ensures CommonMultiple(ts', n)
  {
    forall i | 0 <= i < |ts'| ensures Divides(ts'[i].len, n) {
      assert ts'[i] in multiset(ts);
    }
  }

  lemma {:induction false} SameDemand(ts: seq<Load>, ts': seq<Load>, n: int)
    requires AllAdmissible(ts) && AllAdmissible(ts') && multiset(ts) == multiset(ts')
    ensures Demand(ts, n) == Demand(ts', n)
  {
    if ts == [] {
      assert |multiset(ts')| == 0;
    } else {
      var last := |ts| - 1;
      var t := ts[last];
      var j := SameRest(ts, ts');
      DemandWithout(ts', j, n);
      SameDemand(ts[..last], ts'[..j] + ts'[j + 1..], n);
    }
  }

  lemma SameRest(ts: seq<Load>, ts': seq<Load>) returns (j: nat)
    requires ts != [] && multiset(ts) == multiset(ts')
    ensures j < |ts'| && ts'[j] == ts[|ts| - 1]
    ensures multiset(ts'[..j] + ts'[j + 1..]) == multiset(ts[..|ts| - 1])
  {
    var last := |ts| - 1;
    var t := ts[last];
    assert ts == ts[..last] + [t];
    assert t in multiset(ts');
    j :| 0 <= j < |ts'| && ts'[j] == t;
    var a, b := ts'[..j], ts'[j + 1..];
    assert ts' == a + [t] + b;
    assert multiset(a + b) + multiset{t} == multiset(ts') == multiset(ts[..last]) + multiset{t};
    assert multiset(a + b) == (multiset(a + b) + multiset{t}) - multiset{t};
  }

  lemma {:induction false} DemandWithout(ts: seq<Load>, j: nat, n: int)
    requires AllAdmissible(ts) && j < |ts|
    ensures AllAdmissible(ts[..j] + ts[j + 1..])
    ensures Demand(ts, n) == Demand(ts[..j] + ts[j + 1..], n) + ts[j].exetim * (n / ts[j].len)
  {
    var last := |ts| - 1;
    if j == last {
      assert ts[..j] + ts[j + 1..] == ts[..last];
    } else {
      DemandWithout(ts[..last], j, n);
      var rest := ts[..j] + ts[j + 1..];
      assert rest[..|rest| - 1] == ts[..last][..j] + ts[..last][j + 1..];
      assert rest[|rest| - 1] == ts[last];
    }
  }

  /** Whatever the order of creation, the kernel keeps the same span and the same demand. */
  lemma OrderIndependent(ts: seq<Load>, ts': seq<Load>)
    requires ts != [] && AllAdmissible(ts) && AllAdmissible(ts') && multiset(ts) == multiset(ts')
    ensures ts' != [] && Span(ts') == Span(ts) && Demand(ts', Span(ts')) == Demand(ts, Span(ts))
  {
    SameSpan(ts, ts');
    SameDemand(ts, ts', Span(ts));
  }
}
