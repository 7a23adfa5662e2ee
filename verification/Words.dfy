/**
 Machine words of the rings: 32-bit wrapping cursors, the 64-bit word that packs two of
 them, and the masked slot index. On naturals, `&` and `|` are defined bit by bit and shifts by
 powers of two, so the arithmetic facts below are theorems and not part of the definitions.
 */
module Words {

  const M32: nat := 0x1_0000_0000
  const M64: nat := 0x1_0000_0000_0000_0000
  /** Rings refuse a capacity of this size or more. */
  const MAX_CAPACITY: nat := 0x8000_0000

  type u32 = x: int | 0 <= x < 0x1_0000_0000
  type u64 = x: int | 0 <= x < 0x1_0000_0000_0000_0000

  function Min(a: nat, b: nat): nat {
    if a < b then a else b
  }

  function Pow2(k: nat): (p: nat)
    ensures p > 0
  {
    if k == 0 then 1 else 2 * Pow2(k - 1)
  }

  function Shl(x: nat, k: nat): nat {
    x * Pow2(k)
  }

  function Shr(x: nat, k: nat): nat {
    QuotientIsNat(x, Pow2(k));
    x / Pow2(k)
  }

  lemma QuotientIsNat(x: nat, d: nat)
    requires d > 0
    ensures x / d >= 0
  {
    MultipleGap(d, x / d);
  }

  function BitAnd(x: nat, y: nat): nat
    decreases x
  {
    if x == 0 || y == 0 then 0 else 2 * BitAnd(x / 2, y / 2) + (if x % 2 == 1 && y % 2 == 1 then 1 else 0)
  }

  function BitOr(x: nat, y: nat): nat
    decreases x
  {
    if x == 0 then y else 2 * BitOr(x / 2, y / 2) + (if x % 2 == 1 || y % 2 == 1 then 1 else 0)
  }

  lemma Pow2Of32()
    ensures Pow2(32) == M32
  {
    assert Pow2(8) == 0x100;
    assert Pow2(16) == 0x1_0000;
    assert Pow2(24) == 0x100_0000;
  }

  lemma {:induction false} Pow2Monotone(j: nat, k: nat)
    requires j < k
    ensures Pow2(j) < Pow2(k)
  {
    if j < k - 1 {
      Pow2Monotone(j, k - 1);
    }
  }

  /** A power of two below 2^32 divides 2^32. */
  lemma {:induction false} Pow2Divides(j: nat, k: nat)
    requires j <= k
    ensures Pow2(k) % Pow2(j) == 0
    ensures Pow2(k) == Pow2(j) * Pow2(k - j)
  {
    if j < k {
      Pow2Divides(j, k - 1);
      assert Pow2(k) == Pow2(j) * (2 * Pow2(k - 1 - j));
      ModOfMultiple(Pow2(j), 2 * Pow2(k - 1 - j));
    }
  }

  lemma ModOfMultiple(d: nat, q: nat)
    requires d > 0
    ensures (d * q) % d == 0
  {
    ModUnique(d * q, q, d, 0);
  }

  /** Quotient and remainder are unique. */
  lemma ModUnique(n: int, q: int, d: nat, r: int)
    requires d > 0 && 0 <= r < d
    requires n == d * q + r
    ensures n / d == q && n % d == r
  {
    var q', r' := n / d, n % d;
    var gap := q - q';
    assert d * gap == r' - r by {
      assert n == d * q' + r';
      assert d * gap == d * q - d * q';
    }
    MultipleGap(d, gap);
  }

  /** A multiple of `d` other than zero is at least `d` away from zero. */
  lemma MultipleGap(d: int, gap: int)
    requires d > 0
    ensures gap >= 1 ==> d * gap >= d
    ensures gap <= -1 ==> d * gap <= -d
  {
    assert d * gap == d + d * (gap - 1);
    assert d * gap == -d + d * (gap + 1);
  }

  /** Reducing modulo a multiple of `d` first does not change the remainder modulo `d`. */
  lemma ModOfMod(x: nat, d: nat, q: nat)
    requires d > 0 && q > 0
    ensures d * q > 0 && (x % (d * q)) % d == x % d
  {
    var m := d * q;
    assert m > 0;
    var y, z := x / m, x % m;
    assert x == m * y + z;
    assert z == d * (z / d) + z % d;
    assert x == d * (q * y + z / d) + z % d by {
      assert m * y == d * (q * y);
    }
    ModUnique(x, q * y + z / d, d, z % d);
  }

  /** Masking with `2^k - 1` is reduction modulo `2^k`. */
  lemma {:induction false} MaskIsMod(x: nat, k: nat)
    ensures BitAnd(x, Pow2(k) - 1) == x % Pow2(k)
  {
    if k == 0 {
      assert x % 1 == 0;
    } else {
      MaskIsMod(x / 2, k - 1);
      MaskDoubles(x, Pow2(k - 1));
    }
  }

  lemma MaskDoubles(x: nat, p: nat)
    requires p > 0
    requires BitAnd(x / 2, p - 1) == (x / 2) % p
    ensures BitAnd(x, 2 * p - 1) == x % (2 * p)
  {
    MaskStep(x, p);
    HalfMod(x, p);
  }

  lemma MaskStep(x: nat, p: nat)
    requires p > 0
    ensures BitAnd(x, 2 * p - 1) == 2 * BitAnd(x / 2, p - 1) + x % 2
  {
    var y := 2 * p - 1;
    assert y / 2 == p - 1 && y % 2 == 1;
    if x == 0 {
      assert x / 2 == 0;
    }
  }

  lemma HalfMod(x: nat, p: nat)
    requires p > 0
    ensures x % (2 * p) == 2 * ((x / 2) % p) + x % 2
  {
    var q, r := (x / 2) / p, (x / 2) % p;
    assert x / 2 == p * q + r;
    assert (2 * p) * q == 2 * (p * q);
    ModUnique(x, q, 2 * p, 2 * r + x % 2);
  }

  /** `|` of values that share no bit is their sum. */
  lemma {:induction false} OrIsSum(a: nat, b: nat, k: nat)
    requires b < Pow2(k)
    ensures BitOr(Shl(a, k), b) == Shl(a, k) + b
  {
    if k == 0 {
      assert b == 0;
      OrZero(a);
    } else if a == 0 {
    } else {
      var x := Shl(a, k);
      assert x == 2 * Shl(a, k - 1);
      OrIsSum(a, b / 2, k - 1);
    }
  }

  lemma {:induction false} OrZero(x: nat)
    ensures BitOr(x, 0) == x
  {
    if x > 0 {
      OrZero(x / 2);
    }
  }

  /** Packs `a` into the high and `b` into the low half of one word. */
  function Pack(a: u32, b: u32): (w: u64)
    ensures w == a * M32 + b
  {
    Pow2Of32();
    OrIsSum(a, b, 32);
    BitOr(Shl(a, 32), b)
  }

  /** Shift right, then truncate to 32 bits; and truncate to 32 bits. */
  function Unpack(w: u64): (u32, u32) {
    (Shr(w, 32) % M32, w % M32)
  }

  lemma UnpackPack(a: u32, b: u32)
    ensures Unpack(Pack(a, b)) == (a, b)
  {
    Pow2Of32();
    ModUnique(Pack(a, b), a, M32, b);
  }

  lemma PackUnpack(w: u64)
    ensures Pack(Unpack(w).0, Unpack(w).1) == w
  {
    Pow2Of32();
  }

  function WrapAdd(a: u32, b: u32): u32 {
    (a + b) % M32
  }

  function WrapSub(a: u32, b: u32): u32 {
    (a - b) % M32
  }

  /** The low 32 bits of an unbounded cursor. */
  function Low(c: nat): u32 {
    c % M32
  }

  lemma LowAdd(c: nat, d: nat)
    ensures WrapAdd(Low(c), Low(d)) == Low(c + d)
    ensures d < M32 ==> Low(d) == d
  {
  }

  lemma LowSub(c: nat, d: nat)
    requires d <= c
    ensures WrapSub(Low(c), Low(d)) == Low(c - d)
  {
  }

  /** Cursors less than 2^32 apart are equal as soon as their low halves are. */
  lemma LowInjective(c: nat, d: nat)
    requires Low(c) == Low(d) && c <= d < c + M32
    ensures c == d
  {
  }

  /** Atomic addition to the high half: wraps at 64 bits. */
  function FetchAddHigh(w: u64, m: u32): u64 {
    (w + Shl(m, 32)) % M64
  }

  /** A carry out of the high half leaves the word; the low half is never touched. */
  lemma FetchAddKeepsLow(a: u32, b: u32, m: u32)
    ensures FetchAddHigh(Pack(a, b), m) == Pack(WrapAdd(a, m), b)
  {
    assert Shl(m, 32) == m * M32 by {
      Pow2Of32();
    }
    hide Shl, Pack;
    var sum := a + m;
    var carry := sum / M32;
    assert sum == carry * M32 + sum % M32;
    assert Pack(a, b) + Shl(m, 32) == carry * M64 + ((sum % M32) * M32 + b);
    ModUnique(Pack(a, b) + Shl(m, 32), carry, M64, (sum % M32) * M32 + b);
  }

  /** Free slots as the code computes them: `capacity - tail + stolen`, wrapping. */
  function EmptySlots(capacity: u32, tail: u32, stolen: u32): u32 {
    WrapAdd(WrapSub(capacity, tail), stolen)
  }

  /** Filled slots as the code computes them: `tail - blocked`, wrapping. */
  function FilledSlots(tail: u32, blocked: u32): u32 {
    WrapSub(tail, blocked)
  }

  /** The wrapping differences equal the true ones at every cursor, however far it has run. */
  lemma WrappedDifferences(capacity: nat, tail: nat, blocked: nat, stolen: nat)
    requires capacity < MAX_CAPACITY
    requires stolen <= blocked <= tail <= stolen + capacity
    ensures EmptySlots(capacity, Low(tail), Low(stolen)) == capacity - (tail - stolen)
    ensures FilledSlots(Low(tail), Low(blocked)) == tail - blocked
  {
    LowSub(tail, blocked);
    ModUnique(tail - blocked, 0, M32, tail - blocked);
    var borrow := if capacity < Low(tail) then 1 else 0;
    var partial := capacity - Low(tail) + M32 * borrow;
    ModUnique(capacity - Low(tail), -borrow, M32, partial);
    ModUnique(partial + Low(stolen), borrow + tail / M32 - stolen / M32, M32, capacity - (tail - stolen));
  }

  /** Slot of a cursor: `cursor & mask`. */
  function SlotOf(cursor: u32, mask: u32): nat {
    BitAnd(cursor, mask)
  }

  /** Slot of an unbounded cursor. */
  function Slot(c: nat, cap: nat): (slot: nat)
    requires cap > 0
    ensures slot < cap
  {
    c % cap
  }

  ghost predicate IsCapacity(capacity: nat) {
    0 < capacity < MAX_CAPACITY && exists k: nat :: capacity == Pow2(k)
  }

  /** The masked slot of a wrapped cursor is the true cursor modulo the capacity. */
  lemma MaskedSlot(cursor: nat, capacity: nat)
    requires IsCapacity(capacity)
    ensures SlotOf(Low(cursor), capacity - 1) == Slot(cursor, capacity)
  {
    var k: nat :| capacity == Pow2(k);
    if k > 32 {
      Pow2Of32();
      Pow2Monotone(32, k);
    }
    Pow2Of32();
    MaskIsMod(Low(cursor), k);
    Pow2Divides(k, 32);
    ModOfMod(cursor, Pow2(k), Pow2(32 - k));
  }

  /** Two cursors in one window of `capacity` cursors never share a slot. */
  lemma SlotsDiffer(c: nat, d: nat, capacity: nat)
    requires c < d < c + capacity
    ensures Slot(c, capacity) != Slot(d, capacity)
  {
    var q, r, gap := c / capacity, c % capacity, d - c;
    assert d == capacity * q + (r + gap);
    if r + gap < capacity {
      ModUnique(d, q, capacity, r + gap);
    } else {
      assert capacity * (q + 1) == capacity * q + capacity;
      ModUnique(d, q + 1, capacity, r + gap - capacity);
    }
  }
}
