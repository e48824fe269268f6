/** Bit operations on machine words, as operations on naturals, and what they mean in arithmetic. */
module Bits {
  type byte = x: nat | x < 256 witness 0
  type Bytes = seq<byte>

  const U64_LIMIT: nat := 0x1_0000_0000_0000_0000
  type u64 = x: nat | x < U64_LIMIT witness 0

  function Pow2(k: nat): (p: nat)
    ensures p > 0
  {
    if k == 0 then 1 else 2 * Pow2(k - 1)
  }

  /** `a & b`, bit by bit. */
  function And(a: nat, b: nat): nat {
    if a == 0 || b == 0 then 0 else a % 2 * (b % 2) + 2 * And(a / 2, b / 2)
  }

  /** `a | b`, bit by bit. */
  function Or(a: nat, b: nat): nat
    decreases a + b
  {
    if a == 0 then b
    else if b == 0 then a
    else (if a % 2 == 1 || b % 2 == 1 then 1 else 0) + 2 * Or(a / 2, b / 2)
  }

  /** `x << s` in a 64-bit word: the bits pushed past the top are lost. */
  function Shl64(x: nat, s: nat): u64 {
    x * Pow2(s) % U64_LIMIT
  }

  lemma AndOdd(a: nat, m: nat)
    ensures And(a, 2 * m + 1) == a % 2 + 2 * And(a / 2, m)
  {
    var b := 2 * m + 1;
    assert b % 2 == 1 && b / 2 == m;
  }

  lemma {:induction false} AndLowMask(a: nat, k: nat)
    ensures And(a, Pow2(k) - 1) == a % Pow2(k)
  {
    if k == 0 {
      assert And(a, 0) == 0;
    } else {
      var p := Pow2(k - 1);
      calc {
        And(a, Pow2(k) - 1);
        And(a, 2 * (p - 1) + 1);
        { AndOdd(a, p - 1); }
        a % 2 + 2 * And(a / 2, p - 1);
        { AndLowMask(a / 2, k - 1); }
        a % 2 + 2 * (a / 2 % p);
        { ModByDouble(a, p); }
        a % (2 * p);
      }
    }
  }

  /** Splitting off the lowest bit commutes with reduction modulo an even number. */
  lemma ModByDouble(a: nat, p: nat)
    requires p > 0
    ensures a % (2 * p) == a % 2 + 2 * (a / 2 % p)
  {
    var q, r := a / 2 / p, a / 2 % p;
    assert a == 2 * p * q + (a % 2 + 2 * r);
    DivModUnique(a, 2 * p, q, a % 2 + 2 * r);
  }

  lemma DivModUnique(a: nat, d: nat, q: nat, r: nat)
    requires 0 <= r < d && a == d * q + r
    ensures a / d == q && a % d == r
  {
    var p := a / d;
    assert d * p <= a < d * (p + 1);
    if p < q {
      MulMonotone(d, p + 1, q);
    } else if q < p {
      MulMonotone(d, q + 1, p);
    }
  }

  lemma MulMonotone(d: nat, x: nat, y: nat)
    requires x <= y
    ensures d * x <= d * y
  {
    assert d * y == d * x + d * (y - x);
  }

  /** Masking with a single bit tests that bit. */
  lemma {:induction false} AndTopBit(a: nat, k: nat)
    requires a < Pow2(k + 1)
    ensures And(a, Pow2(k)) == if a >= Pow2(k) then Pow2(k) else 0
  {
    if a > 0 {
      if k == 0 {
        assert a == 1;
        assert Pow2(0) == 1;
      } else {
        AndTopBit(a / 2, k - 1);
      }
    }
  }

  /** Or-ing in bits above position s is addition. */
  lemma {:induction false} OrAboveIsAddition(a: nat, x: nat, s: nat)
    requires a < Pow2(s)
    ensures Or(a, x * Pow2(s)) == a + x * Pow2(s)
  {
    if a > 0 && x > 0 {
      assert s > 0;
      var y := x * Pow2(s - 1);
      assert x * Pow2(s) == 2 * y;
      assert y > 0;
      OrAboveIsAddition(a / 2, x, s - 1);
    } else if x == 0 {
      assert x * Pow2(s) == 0;
    }
  }
}
