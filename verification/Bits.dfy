/** Unsigned C integers as natural numbers, with `|`, `^` and `>>` defined bit by bit. */
module Bits {

  type byte = b: int | 0 <= b < 0x100
  type u16 = x: int | 0 <= x < 0x1_0000
  type u32 = x: int | 0 <= x < 0x1_0000_0000
  type bit = b: int | 0 <= b < 2

  function Pow2(n: nat): (p: nat)
    ensures p > 0
  {
    if n == 0 then 1 else 2 * Pow2(n - 1)
  }

  // (v >> i) & 1
  function BitOf(v: nat, i: nat): bit
    decreases i
  {
    if i == 0 then v % 2 else BitOf(v / 2, i - 1)
  }

  function Or(a: nat, b: nat): nat {
    if a == 0 && b == 0 then 0
    else (if a % 2 == 1 || b % 2 == 1 then 1 else 0) + 2 * Or(a / 2, b / 2)
  }

  function Xor(a: nat, b: nat): nat {
    if a == 0 && b == 0 then 0
    else (if a % 2 != b % 2 then 1 else 0) + 2 * Xor(a / 2, b / 2)
  }

  lemma {:induction false} OrZero(w: nat)
    ensures Or(0, w) == w
  {
    if w > 0 {
      OrZero(w / 2);
    }
  }

  lemma {:induction false} XorZero(w: nat)
    ensures Xor(w, 0) == w
  {
    if w > 0 {
      XorZero(w / 2);
    }
  }

  /** Joining disjoint bits with `|` adds them. */
  lemma {:induction false} OrAdds(v: nat, w: nat, n: nat)
    requires v < Pow2(n)
    ensures Or(v, w * Pow2(n)) == v + w * Pow2(n)
    decreases n
  {
    if n == 0 {
      OrZero(w);
    } else {
      var p := w * Pow2(n - 1);
      assert w * Pow2(n) == 2 * p;
      OrAdds(v / 2, w, n - 1);
      assert (2 * p) / 2 == p && (2 * p) % 2 == 0;
      if v == 0 && 2 * p == 0 {
      } else {
        assert Or(v, 2 * p) == v % 2 + 2 * Or(v / 2, p);
      }
    }
  }

  /** Toggling the top one of `n + 1` bits. */
  lemma {:induction false} XorTop(v: nat, n: nat)
    requires v < Pow2(n + 1)
    ensures Xor(v, Pow2(n)) == if v < Pow2(n) then v + Pow2(n) else v - Pow2(n)
    decreases n
  {
    if n == 0 {
      XorZero(0);
      assert Pow2(1) == 2;
      assert v == 0 || v == 1;
      assert Xor(0, 1) == 1 + 2 * Xor(0, 0);
      assert Xor(1, 1) == 0 + 2 * Xor(0, 0);
    } else {
      XorTop(v / 2, n - 1);
      assert Pow2(n) / 2 == Pow2(n - 1) && Pow2(n) % 2 == 0;
      assert Xor(v, Pow2(n)) == v % 2 + 2 * Xor(v / 2, Pow2(n - 1));
    }
  }

  lemma {:induction false} Pow2Splits(a: nat, b: nat)
    ensures Pow2(a + b) == Pow2(a) * Pow2(b)
  {
    if a > 0 {
      Pow2Splits(a - 1, b);
    }
  }

  lemma {:induction false} Pow2Grows(a: nat, b: nat)
    requires a <= b
    ensures Pow2(a) <= Pow2(b)
  {
    if a < b {
      Pow2Grows(a, b - 1);
    }
  }

  lemma Pow2Values()
    ensures Pow2(8) == 0x100 && Pow2(16) == 0x1_0000 && Pow2(26) == 0x400_0000
    ensures Pow2(31) == 0x8000_0000 && Pow2(32) == 0x1_0000_0000
  {
  }

  lemma {:induction false} TopBitIs(v: nat, n: nat)
    requires v < Pow2(n + 1)
    ensures BitOf(v, n) == v / Pow2(n)
    decreases n
  {
    if n > 0 {
      TopBitIs(v / 2, n - 1);
      DivTwice(v, Pow2(n - 1));
    }
  }

  lemma DivRest(v: nat, p: nat)
    requires p > 0
    ensures v - v / p * p == v % p < p
  {
  }

  /** The bit of a number below `2^(n+1)` at position `n` is its leading digit. */
  lemma TopBit(v: nat, n: nat)
    requires v < Pow2(n + 1)
    ensures BitOf(v, n) == v / Pow2(n)
    ensures v - BitOf(v, n) * Pow2(n) == v % Pow2(n) < Pow2(n)
  {
    TopBitIs(v, n);
    DivRest(v, Pow2(n));
  }

  lemma DivTwice(v: nat, p: nat)
    requires p > 0
    ensures (v / 2) / p == v / (2 * p)
  {
    var q, r := v / (2 * p), v % (2 * p);
    assert v == q * (2 * p) + r;
    assert v / 2 == q * p + r / 2;
    assert 0 <= r / 2 < p;
    DivUnique(v / 2, p, q, r / 2);
  }

  lemma MulAtLeast(d: int, p: int)
    requires d >= 1 && p > 0
    ensures d * p >= p
  {
  }

  lemma NextProduct(i: int, size: int)
    ensures (i + 1) * size == i * size + size
  {
  }

  lemma DivUnique(v: int, p: int, q: int, r: int)
    requires v == q * p + r && 0 <= r < p
    ensures v / p == q
  {
    var d := v / p - q;
    assert v / p * p == q * p + d * p;
    assert (-d) * p == -(d * p);
    if d >= 1 {
      MulAtLeast(d, p);
    } else if d <= -1 {
      MulAtLeast(-d, p);
    }
  }

  lemma {:induction false} LowBitsSame(v: nat, n: nat, k: nat)
    requires k < n
    ensures BitOf(v % Pow2(n), k) == BitOf(v, k)
    decreases n
  {
    var p := Pow2(n - 1);
    ModTwice(v, p);
    if k > 0 {
      LowBitsSame(v / 2, n - 1, k - 1);
    }
  }

  lemma ModTwice(v: nat, p: nat)
    requires p > 0
    ensures (v % (2 * p)) % 2 == v % 2 && (v % (2 * p)) / 2 == (v / 2) % p
  {
    var q, r := v / (2 * p), v % (2 * p);
    assert v == q * (2 * p) + r;
    assert v == 2 * (q * p) + r;
    assert v / 2 == q * p + r / 2;
    DivUnique(v / 2, p, q, r / 2);
    assert (v / 2) % p == v / 2 - q * p;
  }
}
