/** Bitwise operations on numbers. */
module Bits {
  import opened Wrap

  predicate Bit(a: nat, i: nat) {
    if i == 0 then a % 2 == 1 else Bit(a / 2, i - 1)
  }

  function And(a: nat, b: nat): (c: nat)
    ensures c <= a && c <= b
  {
    if a == 0 || b == 0 then 0
    else (if a % 2 == 1 && b % 2 == 1 then 1 else 0) + 2 * And(a / 2, b / 2)
  }

  lemma {:induction false} ZeroHasNoBits(i: nat)
    ensures !Bit(0, i)
  {
    if i > 0 {
      ZeroHasNoBits(i - 1);
    }
  }

  lemma {:induction false} AndBits(a: nat, b: nat, i: nat)
    ensures Bit(And(a, b), i) <==> Bit(a, i) && Bit(b, i)
  {
    if a == 0 || b == 0 {
      ZeroHasNoBits(i);
    } else if i > 0 {
      AndBits(a / 2, b / 2, i - 1);
      assert And(a, b) / 2 == And(a / 2, b / 2);
    }
  }

  /** Every bit of `a` is a bit of `b`. */
  ghost predicate Gains(a: nat, b: nat) {
    forall i: nat :: Bit(a, i) ==> Bit(b, i)
  }

  lemma AndGains(a: nat, b: nat)
    requires And(a, b) == a
    ensures Gains(a, b)
  {
    forall i: nat | Bit(a, i)
      ensures Bit(b, i)
    {
      AndBits(a, b, i);
    }
  }

  lemma AndShift(a: nat, k: nat)
    ensures And(a, 2 * k) == 2 * And(a / 2, k)
  {
    if a == 0 || k == 0 {
      assert And(a, 2 * k) == 0 && And(a / 2, k) == 0;
    } else {
      assert 2 * k % 2 == 0 && 2 * k / 2 == k;
    }
  }

  lemma Div256(a: nat)
    ensures a / 16 / 16 == a / 256
  {
  }

  lemma Div4096(a: nat)
    ensures a / 256 / 16 == a / 4096
  {
  }

  lemma AndShift2(a: nat, k: nat)
    ensures And(a, 4 * k) == 4 * And(a / 4, k)
  {
    AndShift(a, 2 * k);
    AndShift(a / 2, k);
    assert a / 2 / 2 == a / 4;
  }

  lemma AndShift4(a: nat, k: nat)
    ensures And(a, 16 * k) == 16 * And(a / 16, k)
  {
    AndShift2(a, 4 * k);
    AndShift2(a / 4, k);
    assert a / 4 / 4 == a / 16;
  }

  /** A mask that clears the low twelve bits. */
  lemma AndShift12(a: nat, k: nat)
    ensures And(a, 4096 * k) == 4096 * And(a / 4096, k)
  {
    var b, c, d := a / 16, a / 256, a / 4096;
    Div256(a);
    Div4096(a);
    AndShift4(a, 256 * k);
    assert And(a, 4096 * k) == 16 * And(b, 256 * k);
    AndShift4(b, 16 * k);
    assert And(b, 256 * k) == 16 * And(c, 16 * k);
    AndShift4(c, k);
    assert And(c, 16 * k) == 16 * And(d, k);
  }

  /** A mask of ones changes nothing below it. */
  lemma {:induction false} AndOnes(a: nat, e: nat)
    requires a < Pow2(e)
    ensures And(a, Pow2(e) - 1) == a
  {
    if e > 0 && a > 0 {
      AndOnes(a / 2, e - 1);
      assert (Pow2(e) - 1) / 2 == Pow2(e - 1) - 1;
    }
  }
}
