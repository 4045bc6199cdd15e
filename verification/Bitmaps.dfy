/** The 32-bit ready bitmap: one bit a priority, and the search for the lowest set bit that picks
    the best priority with a ready task.  Priority 0 is the best, 31 the worst.  Words are unsigned,
    so `w & (2^n - 1)` is `w % 2^n` and `w >> n` is `w / 2^n`. */
module Bitmaps {

  const PRIORITY_NUM := 32
  const LSB_4BIT_PATTERN := 16
  const E_NG := -1

  newtype uint32 = x: int | 0 <= x < 0x1_0000_0000

  /** Bit p of the word w. */
  predicate Bit(w: nat, p: nat) {
    if p == 0 then w % 2 == 1 else Bit(w / 2, p - 1)
  }

  function Pow2(n: nat): (r: nat)
    ensures r > 0
  {
    if n == 0 then 1 else 2 * Pow2(n - 1)
  }

  /** w | (1 << p) */
  function SetBit(w: nat, p: nat): (r: nat) {
    if p == 0 then w - w % 2 + 1 else 2 * SetBit(w / 2, p - 1) + w % 2
  }

  /** w & ~(1 << p) */
  function ClearBit(w: nat, p: nat): (r: nat) {
    if p == 0 then w - w % 2 else 2 * ClearBit(w / 2, p - 1) + w % 2
  }

  /** Raising bit p changes no other bit. */
  lemma {:induction false} SetBitSpec(w: nat, p: nat, q: nat)
    ensures Bit(SetBit(w, p), q) <==> q == p || Bit(w, q)
  {
    if p != 0 && q != 0 { SetBitSpec(w / 2, p - 1, q - 1); }
  }

  /** Dropping bit p changes no other bit. */
  lemma {:induction false} ClearBitSpec(w: nat, p: nat, q: nat)
    ensures Bit(ClearBit(w, p), q) <==> q != p && Bit(w, q)
  {
    if p != 0 && q != 0 { ClearBitSpec(w / 2, p - 1, q - 1); }
  }

  lemma {:induction false} UpdateFits(w: nat, p: nat, n: nat)
    requires p < n && w < Pow2(n)
    ensures SetBit(w, p) < Pow2(n) && ClearBit(w, p) < Pow2(n)
  {
    if p != 0 { UpdateFits(w / 2, p - 1, n - 1); }
  }

  lemma WordSize()
    ensures Pow2(4) == 16 && Pow2(8) == 0x100 && Pow2(16) == 0x1_0000
    ensures Pow2(32) == 0x1_0000_0000
  {
    assert Pow2(8) == 16 * Pow2(4);
    assert Pow2(12) == 16 * Pow2(8);
    assert Pow2(16) == 16 * Pow2(12);
    assert Pow2(20) == 16 * Pow2(16);
    assert Pow2(24) == 16 * Pow2(20);
    assert Pow2(28) == 16 * Pow2(24);
    assert Pow2(32) == 16 * Pow2(28);
  }

  lemma {:induction false} NoBit(p: nat)
    ensures !Bit(0, p)
  {
    if p != 0 { NoBit(p - 1); }
  }

  lemma NoBits()
    ensures forall p: nat :: !Bit(0, p)
  {
    forall p: nat ensures !Bit(0, p) { NoBit(p); }
  }

  /** A word is determined by its bits. */
  lemma {:induction false} SameBits(v: nat, w: nat, n: nat)
    requires v < Pow2(n) && w < Pow2(n)
    requires forall q: nat | q < n :: Bit(v, q) <==> Bit(w, q)
    ensures v == w
  {
    if n != 0 {
      forall q: nat | q < n - 1 ensures Bit(v / 2, q) <==> Bit(w / 2, q) {
        assert Bit(v, q + 1) <==> Bit(w, q + 1);
      }
      SameBits(v / 2, w / 2, n - 1);
      assert Bit(v, 0) <==> Bit(w, 0);
    }
  }

  /** w >> n */
  function Shift(w: nat, n: nat): (r: nat)
    ensures r == w / Pow2(n)
  {
    QuotientNonNegative(w, Pow2(n));
    w / Pow2(n)
  }

  lemma QuotientNonNegative(w: nat, d: nat)
    requires d > 0
    ensures w / d >= 0
  {
  }

  /** A shift moves every bit down. */
  lemma {:induction false} ShiftBit(w: nat, n: nat, q: nat)
    ensures Bit(Shift(w, n), q) <==> Bit(w, n + q)
  {
    if n != 0 {
      DivDiv(w, Pow2(n - 1));
      ShiftBit(w / 2, n - 1, q);
    }
  }

  lemma DivDiv(w: nat, m: nat)
    requires m > 0
    ensures w / (2 * m) == (w / 2) / m
  {
    var k, r := (w / 2) / m, (w / 2) % m;
    assert w == 2 * (m * k + r) + w % 2;
    assert w == (2 * m) * k + (2 * r + w % 2);
    QuotientUnique(w, 2 * m, k, 2 * r + w % 2);
  }

  lemma QuotientUnique(w: nat, d: nat, k: nat, r: nat)
    requires 0 <= r < d && w == d * k + r
    ensures w / d == k
  {
    MulAtLeast(d, k - w / d);
    assert d * (k - w / d) == w % d - r;
  }

  lemma MulAtLeast(d: nat, x: int)
    ensures x >= 1 ==> d * x >= d
    ensures x <= -1 ==> d * x <= 0 - d
  {
  }

  /** The low n bits are clear exactly when the masked word is zero. */
  lemma {:induction false} LowBitsClear(w: nat, n: nat)
    ensures w % Pow2(n) == 0 <==> LowClear(w, n)
  {
    if n == 0 {
      assert w % 1 == 0;
    } else {
      LowBitsClear(w / 2, n - 1);
      ModStep(w, Pow2(n - 1));
      if LowClear(w, n) {
        LowClearHalf(w, n);
      } else if w % 2 == 0 && LowClear(w / 2, n - 1) {
        LowClearDouble(w, n);
      }
    }
  }

  ghost predicate LowClear(w: nat, n: nat) {
    forall q: nat | q < n :: !Bit(w, q)
  }

  lemma LowClearHalf(w: nat, n: nat)
    requires n > 0 && LowClear(w, n)
    ensures w % 2 == 0 && LowClear(w / 2, n - 1)
  {
    assert !Bit(w, 0);
    forall q: nat | q < n - 1 ensures !Bit(w / 2, q) { assert !Bit(w, q + 1); }
  }

  lemma LowClearDouble(w: nat, n: nat)
    requires n > 0 && w % 2 == 0 && LowClear(w / 2, n - 1)
    ensures LowClear(w, n)
  {
    forall q: nat | q < n ensures !Bit(w, q) {
      if q > 0 { assert !Bit(w / 2, q - 1); }
    }
  }

  lemma ModStep(w: nat, m: nat)
    requires m > 0
    ensures w % (2 * m) == 0 <==> w % 2 == 0 && (w / 2) % m == 0
  {
    DivDiv(w, m);
    var k := w / (2 * m);
    assert w == (2 * m) * k + w % (2 * m);
    assert w / 2 == m * k + (w / 2) % m;
    assert (2 * m) * k == 2 * (m * k);
  }

  lemma FirstBits(v: nat)
    ensures Bit(v, 0) <==> v % 2 == 1
    ensures Bit(v, 1) <==> v / 2 % 2 == 1
    ensures Bit(v, 2) <==> v / 4 % 2 == 1
    ensures Bit(v, 3) <==> v / 8 % 2 == 1
  {
    assert Pow2(1) == 2 && Pow2(2) == 4 && Pow2(3) == 8;
    ShiftBit(v, 1, 0);
    ShiftBit(v, 2, 0);
    ShiftBit(v, 3, 0);
  }

  /** The lowest set bit of a non-zero four-bit pattern. */
  function LowestOf4(v: nat): (k: nat)
    requires 0 < v < LSB_4BIT_PATTERN
    ensures k < 4 && IsLowestBit(v, k)
  {
    FirstBits(v);
    if v % 2 == 1 then 0 else if v / 2 % 2 == 1 then 1 else if v / 4 % 2 == 1 then 2 else 3
  }

  /** r is the least index with a set bit. */
  ghost predicate IsLowestBit(w: nat, r: int) {
    0 <= r && Bit(w, r) && forall q: nat | q < r :: !Bit(w, q)
  }

  ghost predicate IsPatternTable(t: seq<int>) {
    && |t| == LSB_4BIT_PATTERN
    && t[0] == -PRIORITY_NUM
    && forall v | 0 < v < LSB_4BIT_PATTERN :: t[v] == LowestOf4(v)
  }

  /** Fill the table of the sixteen low-nibble patterns; entry 0 drives the search below zero. */
  method BitmapInit(p: array<int>)
    requires p.Length == LSB_4BIT_PATTERN
    modifies p
    ensures IsPatternTable(p[..])
  {
    p[0] := -PRIORITY_NUM;
    for i := 1 to LSB_4BIT_PATTERN
      invariant p[0] == -PRIORITY_NUM
      invariant forall v | 0 < v < i :: p[v] == LowestOf4(v)
    {
      if i % 2 == 1 {
        p[i] := 0;
      } else if i / 2 % 2 == 1 {
        p[i] := 1;
      } else if i / 4 % 2 == 1 {
        p[i] := 2;
      } else {
        p[i] := 3;
      }
    }
  }

  method BitSearch(table: array<int>, bits: uint32) returns (priority: int)
    requires IsPatternTable(table[..])
    ensures bits == 0 <==> priority == E_NG
    ensures bits != 0 ==> priority < PRIORITY_NUM && IsLowestBit(bits as nat, priority)
  {
    var bitmap: nat := bits as nat;
    priority := 0;
    WordSize();
    ghost var b0 := bitmap;
    if bitmap % 0x1_0000 == 0 {
      SkipBits(bitmap, 16);
      bitmap := Shift(bitmap, 16);
      priority := priority + PRIORITY_NUM / 2;
    }
    ghost var b1 := bitmap;
    if bitmap % 0x100 == 0 {
      SkipBits(bitmap, 8);
      bitmap := Shift(bitmap, 8);
      priority := priority + PRIORITY_NUM / 4;
    }
    ghost var b2 := bitmap;
    if bitmap % 0x10 == 0 {
      SkipBits(bitmap, 4);
      bitmap := Shift(bitmap, 4);
      priority := priority + PRIORITY_NUM / 8;
    }
    ghost var s := priority;
    priority := priority + table[bitmap % 0x10];
    assert bitmap % 0x10 == 0 ==> bits == 0;
    if priority < 0 {
      priority := E_NG;
    } else {
      LowNibble(bitmap, priority - s);
    }
  }

  /** Skipping n clear low bits moves the lowest set bit down by n. */
  lemma SkipBits(w: nat, n: nat)
    requires w % Pow2(n) == 0
    ensures w == 0 <==> Shift(w, n) == 0
    ensures forall r: int {:trigger IsLowestBit(Shift(w, n), r)} ::
              IsLowestBit(Shift(w, n), r) ==> IsLowestBit(w, r + n)
  {
    LowBitsClear(w, n);
    assert w == Pow2(n) * Shift(w, n);
    forall r: int | IsLowestBit(Shift(w, n), r) ensures IsLowestBit(w, r + n) {
      ShiftBit(w, n, r);
      forall q: nat | q < r + n ensures !Bit(w, q) {
        if q >= n { ShiftBit(w, n, q - n); }
      }
    }
  }

  lemma LowNibble(w: nat, r: int)
    requires w % 16 != 0 && r == LowestOf4(w % 16)
    ensures IsLowestBit(w, r)
  {
    NibbleBits(w);
    var v := w % 16;
    forall q: nat | q < r ensures !Bit(w, q) {
      assert !Bit(v, q);
    }
  }

  lemma NibbleBits(w: nat)
    ensures forall q: nat | q < 4 :: Bit(w, q) <==> Bit(w % 16, q)
  {
    FirstBits(w);
    FirstBits(w % 16);
    NibbleDigits(w);
  }

  lemma NibbleDigits(w: nat)
    ensures var v := w % 16;
            w % 2 == v % 2 && w / 2 % 2 == v / 2 % 2 && w / 4 % 2 == v / 4 % 2 && w / 8 % 2 == v / 8 % 2
  {
    var k, v := w / 16, w % 16;
    Digits(2, 8 * k, v);
    Digits(4, 4 * k, v);
    Digits(8, 2 * k, v);
    Parity(16 * k, 8 * k, v);
    Parity(8 * k, 4 * k, v / 2);
    Parity(4 * k, 2 * k, v / 4);
    Parity(2 * k, k, v / 8);
  }

  lemma Digits(d: nat, a: nat, v: nat)
    requires d > 0
    ensures (d * a + v) / d == a + v / d
  {
    QuotientUnique(d * a + v, d, a + v / d, v % d);
  }

  lemma Parity(a: nat, h: nat, v: nat)
    requires a == 2 * h
    ensures (a + v) % 2 == v % 2
  {
  }

  /** At most one index meets the search's contract. */
  lemma LowestBitUnique(w: nat, r: int, r': int)
    requires IsLowestBit(w, r) && IsLowestBit(w, r')
    ensures r == r'
  {
  }
}
