/**
 Unsigned machine words as natural numbers below a power of two, with the bitwise operators
 of C written out over the binary digits.  A word of width `w` is a number below `Pow2(w)`.
 */
module Bits {

  function Pow2(k: nat): (p: nat)
    ensures p >= 1
  {
    if k == 0 then 1 else 2 * Pow2(k - 1)
  }

  /** The digit of weight `2^i`. */
  predicate Bit(x: nat, i: nat) {
    if i == 0 then x % 2 == 1 else Bit(x / 2, i - 1)
  }

  /** Operator `&`. */
  function And(x: nat, y: nat): nat {
    if x == 0 || y == 0 then 0 else 2 * And(x / 2, y / 2) + (x % 2) * (y % 2)
  }

  /** Operator `|`. */
  function Or(x: nat, y: nat): nat {
    if x == 0 then y
    else if y == 0 then x
    else 2 * Or(x / 2, y / 2) + (if x % 2 == 1 || y % 2 == 1 then 1 else 0)
  }

  /** Operator `<<` on words of width `w`: bits pushed past the top are lost. */
  function ShiftLeft(x: nat, d: nat, w: nat): (r: nat)
    ensures r < Pow2(w)
  {
    (x * Pow2(d)) % Pow2(w)
  }

  lemma {:induction false} Pow2Sum(a: nat, b: nat)
    ensures Pow2(a + b) == Pow2(a) * Pow2(b)
  {
    if a > 0 {
      Pow2Sum(a - 1, b);
      assert Pow2(a + b) == 2 * Pow2(a - 1 + b);
    }
  }

  lemma Pow2Values()
    ensures Pow2(8) == 0x100
    ensures Pow2(16) == 0x1_0000
    ensures Pow2(32) == 0x1_0000_0000
    ensures Pow2(64) == 0x1_0000_0000_0000_0000
  {
    assert Pow2(4) == 16;
    Pow2Sum(4, 4);
    hide Pow2;
    Pow2Sum(8, 8);
    Pow2Sum(16, 16);
    Pow2Sum(32, 32);
  }

  lemma {:induction false} Pow2Monotone(a: nat, b: nat)
    requires a <= b
    ensures Pow2(a) <= Pow2(b)
  {
    if a < b { Pow2Monotone(a, b - 1); }
  }

  lemma TwiceProduct(m: nat, q: nat)
    ensures (2 * m) * q == 2 * (m * q)
  {
  }

  /** Reducing modulo `2m` keeps the last digit and reduces the rest modulo `m`. */
  lemma HalveModulo(x: nat, m: nat)
    requires m >= 1
    ensures (x % (2 * m)) % 2 == x % 2
    ensures (x % (2 * m)) / 2 == (x / 2) % m
  {
    HalveDivision(x, m, x / (2 * m), x % (2 * m));
  }

  lemma HalveDivision(x: nat, m: nat, q: nat, r: nat)
    requires m >= 1 && x == (2 * m) * q + r && r < 2 * m
    ensures r % 2 == x % 2
    ensures r / 2 == (x / 2) % m
  {
    TwiceProduct(m, q);
    HalveSum(x, m * q, r);
    QuotientUnique(x / 2, m, q, r / 2);
  }

  lemma HalveSum(x: nat, p: nat, r: nat)
    requires x == 2 * p + r
    ensures x / 2 == p + r / 2 && x % 2 == r % 2
  {
  }

  lemma {:induction false} MultiplesApart(m: nat, p: nat, q: nat)
    requires p < q
    ensures m * q >= m * p + m
  {
    if p + 1 < q { MultiplesApart(m, p, q - 1); }
  }

  lemma QuotientUnique(x: nat, m: nat, q: nat, r: nat)
    requires x == m * q + r && r < m
    ensures x / m == q && x % m == r
  {
    var q', r' := x / m, x % m;
    assert x == m * q' + r';
    if q < q' {
      MultiplesApart(m, q, q');
    } else if q' < q {
      MultiplesApart(m, q', q);
    }
  }

  lemma {:induction false} BitModulo(x: nat, w: nat, i: nat)
    ensures Bit(x % Pow2(w), i) <==> i < w && Bit(x, i)
  {
    if w == 0 {
      BitOfZero(i);
    } else {
      HalveModulo(x, Pow2(w - 1));
      if i > 0 { BitModulo(x / 2, w - 1, i - 1); }
    }
  }

  lemma {:induction false} BitOfZero(i: nat)
    ensures !Bit(0, i)
  {
    if i > 0 { BitOfZero(i - 1); }
  }

  lemma {:induction false} BitScaled(x: nat, d: nat, i: nat)
    ensures Bit(x * Pow2(d), i) <==> i >= d && Bit(x, i - d)
  {
    if d > 0 {
      assert x * Pow2(d) == 2 * (x * Pow2(d - 1));
      if i > 0 { BitScaled(x, d - 1, i - 1); }
    }
  }

  /** A left shift moves every digit up by `d` and drops those that leave the word. */
  lemma BitShiftLeft(x: nat, d: nat, w: nat, i: nat)
    ensures Bit(ShiftLeft(x, d, w), i) <==> d <= i < w && Bit(x, i - d)
  {
    BitModulo(x * Pow2(d), w, i);
    BitScaled(x, d, i);
  }

  lemma {:induction false} BitPow2(k: nat, i: nat)
    ensures Bit(Pow2(k), i) <==> i == k
  {
    BitScaled(1, k, i);
    if i > k { BitOne(i - k); }
  }

  lemma BitOne(i: nat)
    ensures Bit(1, i) <==> i == 0
  {
    if i > 0 { BitOfZero(i - 1); }
  }

  /** The last digit of a conjunction, and the digits above it. */
  lemma AndDigit(x: nat, y: nat)
    ensures And(x, y) / 2 == And(x / 2, y / 2)
    ensures And(x, y) % 2 == (if x % 2 == 1 && y % 2 == 1 then 1 else 0)
  {
  }

  lemma {:induction false} BitAnd(x: nat, y: nat, i: nat)
    ensures Bit(And(x, y), i) <==> Bit(x, i) && Bit(y, i)
  {
    hide And;
    AndDigit(x, y);
    if i > 0 { BitAnd(x / 2, y / 2, i - 1); }
  }

  lemma {:induction false} BitOr(x: nat, y: nat, i: nat)
    ensures Bit(Or(x, y), i) <==> Bit(x, i) || Bit(y, i)
  {
    if x == 0 || y == 0 {
      BitOfZero(i);
    } else if i > 0 {
      BitOr(x / 2, y / 2, i - 1);
    }
  }

  /** The C idiom `(x & (1u << k)) != 0` tests digit `k`. */
  lemma {:induction false} TestBit(x: nat, k: nat)
    ensures And(x, Pow2(k)) != 0 <==> Bit(x, k)
  {
    if x == 0 {
      BitOfZero(k);
    } else if k == 0 {
      assert Pow2(0) / 2 == 0;
    } else {
      TestBit(x / 2, k - 1);
    }
  }

  lemma {:induction false} OrBound(x: nat, y: nat, w: nat)
    requires x < Pow2(w) && y < Pow2(w)
    ensures Or(x, y) < Pow2(w)
  {
    if x != 0 && y != 0 { OrBound(x / 2, y / 2, w - 1); }
  }
}
