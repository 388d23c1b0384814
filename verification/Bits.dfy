// Bitwise "and" on natural numbers, as far as the ring buffers need it: with a
// power of two minus one as the mask it is the remainder.
module Bits {
  function Pow2(k: nat): (p: nat)
    ensures p > 0
  {
    if k == 0 then 1 else 2 * Pow2(k - 1)
  }

  // x & y, one bit at a time.
  function And(x: nat, y: nat): nat
    decreases x
  {
    if x == 0 || y == 0 then 0
    else (if x % 2 == 1 && y % 2 == 1 then 1 else 0) + 2 * And(x / 2, y / 2)
  }

  // Nothing strictly between 0 and n is a multiple of n.
  lemma NotAMultiple(d: int, n: int, q: int)
    requires 0 < d < n
    ensures d != q * n
  {
    if q >= 1 {
      assert q * n >= n;
    } else {
      assert q * n <= 0;
    }
  }

  lemma ModUnique(a: int, n: int, q: int, r: int)
    requires 0 <= r < n && a == q * n + r
    ensures a % n == r
  {
    var m := a % n;
    assert r - m == (a / n - q) * n;
    if r > m {
      NotAMultiple(r - m, n, a / n - q);
    } else if r < m {
      assert m - r == (q - a / n) * n;
      NotAMultiple(m - r, n, q - a / n);
    }
  }

  // The slot of stream position a in a ring of n: a % n, kept out of the solver's
  // nonlinear arithmetic.
  function Slot(a: nat, n: nat): (r: nat)
    requires n > 0
    ensures r < n
  {
    if a < n then a else Slot(a - n, n)
  }

  lemma {:induction false} SlotIsMod(a: nat, n: nat)
    requires n > 0
    ensures Slot(a, n) == a % n
    decreases a
  {
    if a >= n {
      SlotIsMod(a - n, n);
      assert a == ((a - n) / n + 1) * n + (a - n) % n;
      ModUnique(a, n, (a - n) / n + 1, (a - n) % n);
    } else {
      ModUnique(a, n, 0, a);
    }
  }

  // Two positions less than n apart never share a slot.
  lemma {:induction false} SlotsDistinct(a: nat, b: nat, n: nat)
    requires 0 < b - a < n
    ensures Slot(a, n) != Slot(b, n)
  {
    if a >= n {
      SlotsDistinct(a - n, b - n, n);
    } else if b >= n {
      assert Slot(b, n) == b - n;
    }
  }

  // Stepping on from a position is stepping on from its slot.
  lemma {:induction false} SlotStep(a: nat, d: nat, n: nat)
    requires n > 0
    ensures Slot(Slot(a, n) + d, n) == Slot(a + d, n)
    ensures Slot(a, n) + d < n ==> Slot(a + d, n) == Slot(a, n) + d
    ensures Slot(a, n) + d == n ==> Slot(a + d, n) == 0
    decreases a
  {
    if a >= n {
      SlotStep(a - n, d, n);
    }
  }

  // Halving a number halves its remainder and drops its last bit.
  lemma ModHalves(x: nat, p: nat)
    requires p > 0
    ensures x % (2 * p) == 2 * ((x / 2) % p) + x % 2
  {
    var h := x / 2;
    var q, m := h / p, h % p;
    assert q * (2 * p) == 2 * (q * p);
    ModUnique(x, 2 * p, q, 2 * m + x % 2);
  }

  lemma {:induction false} MaskIsMod(x: nat, k: nat)
    ensures And(x, Pow2(k) - 1) == x % Pow2(k)
    decreases k
  {
    if k > 0 {
      var p := Pow2(k - 1);
      MaskIsMod(x / 2, k - 1);
      ModHalves(x, p);
      OddMask(x, p);
    }
  }

  lemma OddMask(x: nat, p: nat)
    requires p > 0
    ensures And(x, 2 * p - 1) == x % 2 + 2 * And(x / 2, p - 1)
  {
    assert (2 * p - 1) / 2 == p - 1 && (2 * p - 1) % 2 == 1;
  }

  ghost predicate IsPow2(n: nat) {
    exists k: nat :: n == Pow2(k)
  }

  // Wrapping a ring head with a mask is taking the slot.
  lemma MaskIsSlot(x: nat, n: nat)
    requires IsPow2(n)
    ensures n > 0 && And(x, n - 1) == Slot(x, n)
  {
    var k: nat :| n == Pow2(k);
    MaskIsMod(x, k);
    SlotIsMod(x, n);
  }
}
