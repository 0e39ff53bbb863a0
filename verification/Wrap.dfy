/** Fixed-width integers and the 16-bit ring indices of a virtqueue.

    The driver and the device only ever see indices modulo 2^16.  The rest of the project reasons
    with unbounded positions; the lemmas here say when the two views agree. */
module Wrap {

  type u8 = x: int | 0 <= x < 0x100
  type u16 = x: int | 0 <= x < 0x1_0000
  type u32 = x: int | 0 <= x < 0x1_0000_0000
  type u64 = x: int | 0 <= x < 0x1_0000_0000_0000_0000

  /** The 16-bit index that stands for the unbounded position `k`. */
  function Low16(k: nat): u16 {
    k % 0x1_0000
  }

  function WrappingAdd(a: u16, n: nat): u16 {
    (a + n) % 0x1_0000
  }

  function WrappingSub(a: u16, b: u16): u16 {
    (a - b) % 0x1_0000
  }

  predicate IsPowerOfTwo(n: nat) {
    n == 1 || (n > 0 && n % 2 == 0 && IsPowerOfTwo(n / 2))
  }

  /** The queue sizes that `VirtIoQueue::new` accepts. */
  predicate Accepted(size: nat) {
    IsPowerOfTwo(size) && size <= 0xFFFF
  }

  function Pow2(e: nat): (p: nat)
    ensures p > 0
  {
    if e == 0 then 1 else 2 * Pow2(e - 1)
  }

  lemma {:induction false} PowerOfTwoDivides(n: nat, e: nat) returns (q: nat)
    requires IsPowerOfTwo(n) && n <= Pow2(e)
    ensures n * q == Pow2(e)
  {
    if n == 1 {
      q := Pow2(e);
    } else {
      q := PowerOfTwoDivides(n / 2, e - 1);
      assert n * q == 2 * ((n / 2) * q);
    }
  }

  lemma AcceptedDivides(size: nat) returns (q: nat)
    requires Accepted(size)
    ensures size * q == 0x1_0000
  {
    assert Pow2(16) == 0x1_0000 by { Pow2Of16(); }
    q := PowerOfTwoDivides(size, 16);
  }

  lemma Pow2Of16()
    ensures Pow2(16) == 0x1_0000
  {
    assert Pow2(4) == 16;
    assert Pow2(8) == 256;
    assert Pow2(12) == 4096;
  }

  /** A power of two below 2^16 is at most 2^15, so a full window is never mistaken for an empty one. */
  lemma AcceptedBound(size: nat)
    requires Accepted(size)
    ensures 0 < size <= 0x8000
  {
    var q := AcceptedDivides(size);
    assert q <= 1 ==> size * q <= size;
    assert size * 2 <= size * q;
  }

  lemma SmallMultiple(b: int, d: int)
    requires -b < b * d < b
    ensures d == 0
  {
    assert d >= 1 ==> b * d >= b;
    assert d <= -1 ==> b * d <= -b;
  }

  lemma ModUnique(a: nat, b: nat, q: nat, r: nat)
    requires 0 < b && r < b && a == b * q + r
    ensures a % b == r
  {
    var d := a / b - q;
    assert a == b * (a / b) + a % b;
    assert b * (a / b) - b * q == b * d;
    assert b * d == r - a % b;
    SmallMultiple(b, d);
  }

  lemma ModSmall(x: nat, n: nat)
    requires x < n
    ensures x % n == x
  {
  }

  lemma ModAddMultiple(m: nat, n: nat, r: nat)
    requires 0 < n
    ensures (n * m + r) % n == r % n
  {
    ModUnique(n * m + r, n, m + r / n, r % n);
    assert n * m + r == n * (m + r / n) + r % n;
  }

  /** A slot computed from a wrapped index is the slot of the unbounded position, however often the
      index has wrapped. */
  lemma SlotOfIndex(k: nat, size: nat)
    requires Accepted(size)
    ensures 0 < size && Low16(k) % size == k % size
  {
    AcceptedBound(size);
    var q := AcceptedDivides(size);
    var w := k / 0x1_0000;
    assert k == 0x1_0000 * w + Low16(k);
    assert size * q * w == size * (q * w);
    ModAddMultiple(q * w, size, Low16(k));
  }

  lemma LowAdd(k: nat, n: nat)
    ensures WrappingAdd(Low16(k), n) == Low16(k + n)
  {
  }

  lemma LowNext(k: nat)
    ensures Low16(k + 1) != Low16(k)
  {
  }

  lemma LowSub(lo: nat, hi: nat)
    requires lo <= hi < lo + 0x1_0000
    ensures WrappingSub(Low16(hi), Low16(lo)) == hi - lo
  {
  }

  /** An index inside a window is never the one just before it. */
  lemma LowNotBefore(lo: nat, i: nat)
    requires i < 0xFFFF
    ensures WrappingAdd(Low16(lo), i) == Low16(lo + i) != WrappingSub(Low16(lo), 1)
  {
  }

  lemma LowInjective(j: nat, k: nat)
    requires j <= k < j + 0x1_0000 && Low16(j) == Low16(k)
    ensures j == k
  {
  }

  lemma SlotInjective(j: nat, k: nat, size: nat)
    requires 0 < size && j <= k < j + size && j % size == k % size
    ensures j == k
  {
    var d := k / size - j / size;
    assert k == size * (k / size) + k % size && j == size * (j / size) + j % size;
    assert k - j == size * d;
    SmallMultiple(size, d);
  }
}
