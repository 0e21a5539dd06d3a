/** Bitwise OR on non-negative integers, as Python's `|` computes it, and the
    facts about single bits that the encoder's packed words rely on. */
module Bits {

  function Pow2(k: nat): (r: nat)
    ensures r >= 1
  {
    if k == 0 then 1 else 2 * Pow2(k - 1)
  }

  /** `a | b`, built from the least significant bit upwards. */
  function Or(a: nat, b: nat): nat
    decreases a + b
  {
    if a == 0 then b
    else if b == 0 then a
    else 2 * Or(a / 2, b / 2) + (if a % 2 == 1 || b % 2 == 1 then 1 else 0)
  }

  /** Bit `k` of `m`, i.e. `(m >> k) & 1 == 1`. */
  predicate TestBit(m: nat, k: nat)
  {
    if k == 0 then m % 2 == 1 else TestBit(m / 2, k - 1)
  }

  /** OR over a list of values, accumulated from the front as `recorded |= counter` does. */
  function OrAll(values: seq<nat>): nat
  {
    if values == [] then 0 else Or(OrAll(values[..|values| - 1]), values[|values| - 1])
  }

  lemma {:induction false} ZeroHasNoBits(k: nat)
    ensures !TestBit(0, k)
  {
    if k > 0 {
      ZeroHasNoBits(k - 1);
    }
  }

  /** A bit of `a | b` is set exactly when it is set in `a` or in `b`. */
  lemma {:induction false} OrTestBit(a: nat, b: nat, k: nat)
    ensures TestBit(Or(a, b), k) <==> TestBit(a, k) || TestBit(b, k)
    decreases k
  {
    if a == 0 {
      ZeroHasNoBits(k);
    } else if b == 0 {
      ZeroHasNoBits(k);
    } else if k > 0 {
      var r := Or(a, b);
      assert r == 2 * Or(a / 2, b / 2) + (if a % 2 == 1 || b % 2 == 1 then 1 else 0);
      assert r / 2 == Or(a / 2, b / 2);
      OrTestBit(a / 2, b / 2, k - 1);
    }
  }

  /** `1 << k` has exactly one bit set, bit `k`. */
  lemma {:induction false} Pow2TestBit(k: nat, j: nat)
    ensures TestBit(Pow2(k), j) <==> j == k
    decreases k
  {
    if k == 0 {
      if j > 0 {
        ZeroHasNoBits(j - 1);
      }
    } else if j == 0 {
      assert Pow2(k) % 2 == 0;
    } else {
      assert Pow2(k) / 2 == Pow2(k - 1);
      Pow2TestBit(k - 1, j - 1);
    }
  }

  /** Two values with the same bits are the same value. */
  lemma {:induction false} SameBitsSameValue(a: nat, b: nat)
    requires forall k: nat :: TestBit(a, k) == TestBit(b, k)
    ensures a == b
    decreases a + b
  {
    assert TestBit(a, 0) == TestBit(b, 0);
    if a == 0 || b == 0 {
      if a != 0 || b != 0 {
        var nz := if a == 0 then b else a;
        var k := LowestSetBit(nz);
        ZeroHasNoBits(k);
        assert TestBit(a, k) != TestBit(b, k);
      }
    } else {
      forall k: nat
        ensures TestBit(a / 2, k) == TestBit(b / 2, k)
      {
        assert TestBit(a, k + 1) == TestBit(b, k + 1);
      }
      SameBitsSameValue(a / 2, b / 2);
    }
  }

  /** Some bit of a non-zero value is set. */
  lemma {:induction false} LowestSetBit(m: nat) returns (k: nat)
    requires m > 0
    ensures TestBit(m, k)
    decreases m
  {
    if m % 2 == 1 {
      k := 0;
    } else {
      var j := LowestSetBit(m / 2);
      k := j + 1;
    }
  }

  /** OR-ing a value below `1 << k` into a multiple of `1 << k` is addition:
      `a | (b << k) == a + (b << k)` when `a < (1 << k)`. */
  lemma {:induction false} OrDisjointIsAdd(a: nat, b: nat, k: nat)
    requires a < Pow2(k)
    ensures Or(a, Pow2(k) * b) == a + Pow2(k) * b
    decreases k
  {
    if k == 0 || a == 0 || b == 0 {
      assert k == 0 ==> a == 0;
    } else {
      var p := Pow2(k - 1);
      assert Pow2(k) * b == 2 * (p * b);
      assert (Pow2(k) * b) / 2 == p * b;
      assert (Pow2(k) * b) % 2 == 0;
      assert a / 2 < p;
      OrDisjointIsAdd(a / 2, b, k - 1);
      assert Or(a, Pow2(k) * b) == 2 * Or(a / 2, p * b) + a % 2;
    }
  }

  lemma {:induction false} Pow2Monotone(j: nat, k: nat)
    requires j <= k
    ensures Pow2(j) <= Pow2(k)
    decreases k
  {
    if j < k {
      Pow2Monotone(j, k - 1);
    }
  }

  /** The OR of two values below `1 << n` is below `1 << n`. */
  lemma {:induction false} OrBelow(a: nat, b: nat, n: nat)
    requires a < Pow2(n) && b < Pow2(n)
    ensures Or(a, b) < Pow2(n)
    decreases n
  {
    if a != 0 && b != 0 {
      assert n > 0;
      OrBelow(a / 2, b / 2, n - 1);
    }
  }

  /** A bit of the OR of a list is set exactly when it is set in some element. */
  lemma {:induction false} OrAllTestBit(values: seq<nat>, k: nat)
    ensures TestBit(OrAll(values), k) <==> exists j :: 0 <= j < |values| && TestBit(values[j], k)
    decreases |values|
  {
    if values == [] {
      ZeroHasNoBits(k);
    } else {
      var front := values[..|values| - 1];
      OrAllTestBit(front, k);
      OrTestBit(OrAll(front), values[|values| - 1], k);
      if TestBit(OrAll(values), k) {
        if TestBit(OrAll(front), k) {
          var j :| 0 <= j < |front| && TestBit(front[j], k);
          assert values[j] == front[j];
        }
      } else {
        forall j | 0 <= j < |values|
          ensures !TestBit(values[j], k)
        {
          if j < |front| {
            assert values[j] == front[j];
          }
        }
      }
    }
  }
}
