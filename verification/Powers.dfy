/**
 Powers of two, bitwise exclusive-or and dyadic alignment: the address
 arithmetic of the buddy allocator (`1L << order`, `pos ^ (1L << order)`).
 */
module Powers {

  function Pow2(n: nat): (r: nat)
    ensures r >= 1
  {
    if n == 0 then 1 else 2 * Pow2(n - 1)
  }

  lemma {:induction false} Pow2Add(m: nat, n: nat)
    ensures Pow2(m + n) == Pow2(m) * Pow2(n)
  {
    if n > 0 {
      Pow2Add(m, n - 1);
      calc {
        Pow2(m + n);
        2 * Pow2(m + (n - 1));
        2 * (Pow2(m) * Pow2(n - 1));
        Pow2(m) * (2 * Pow2(n - 1));
        Pow2(m) * Pow2(n);
      }
    }
  }

  lemma {:induction false} Pow2Mono(m: nat, n: nat)
    requires m <= n
    ensures Pow2(m) <= Pow2(n)
    ensures m < n ==> 2 * Pow2(m) <= Pow2(n)
    decreases n
  {
    if m < n { Pow2Mono(m, n - 1); }
  }

  /** The power that bounds the kernel heap. */
  lemma Pow2Of29()
    ensures Pow2(5) == 32 && Pow2(28) == 0x1000_0000 && Pow2(29) == 0x2000_0000
  {
    assert Pow2(10) == 1024;
    Pow2Add(10, 10);
    Pow2Add(20, 8);
  }

  /** Exclusive-or of the binary representations of two naturals. */
  function Xor(a: nat, b: nat): (r: nat)
  {
    if a == 0 then b
    else if b == 0 then a
    else (a + b) % 2 + 2 * Xor(a / 2, b / 2)
  }

  /** `a` with its bit number `k` inverted, said arithmetically. */
  function FlipBit(a: nat, k: nat): (r: int)
  {
    Neighbour(a, Pow2(k))
  }

  /** From an even multiple of `m` one step up, from an odd one a step down. */
  function Neighbour(a: int, m: int): int
    requires m > 0
  {
    if (a / m) % 2 == 0 then a + m else a - m
  }

  lemma DivPow2(a: nat, k: nat)
    requires k > 0
    ensures a / Pow2(k) == (a / 2) / Pow2(k - 1)
  {
    var m := Pow2(k - 1);
    var q := (a / 2) / m;
    var r := (a / 2) % m;
    assert a / 2 == q * m + r;
    var s := 2 * r + a % 2;
    assert a == q * (2 * m) + s by { assert q * (2 * m) == 2 * (q * m); }
    assert 0 <= s < 2 * m;
    DivUnique(a, 2 * m, q, s);
  }

  lemma DivUnique(a: int, m: int, q: int, s: int)
    requires m > 0 && a == q * m + s && 0 <= s < m
    ensures a / m == q && a % m == s
  {
    var q2, s2 := a / m, a % m;
    assert (q - q2) * m == s2 - s;
    if q > q2 {
      MulAtLeast(q - q2, m);
    } else if q < q2 {
      assert (q2 - q) * m == s - s2;
      MulAtLeast(q2 - q, m);
    }
  }

  lemma MulAtLeast(a: int, m: int)
    requires a >= 1 && m > 0
    ensures a * m >= m
  {
    assert a * m == (a - 1) * m + m;
    assert (a - 1) * m >= 0;
  }

  /** One step of `FlipBit`: the lowest bit is kept, the rest is flipped one place lower. */
  lemma FlipBitStep(a: nat, k: nat)
    requires k > 0
    ensures FlipBit(a, k) == a % 2 + 2 * FlipBit(a / 2, k - 1)
  {
    DivPow2(a, k);
  }

  /** Xor with a single bit inverts that bit and no other. */
  lemma {:induction false} XorIsFlip(a: nat, k: nat)
    ensures Xor(a, Pow2(k)) == FlipBit(a, k)
  {
    if a == 0 {
      assert a / Pow2(k) == 0 by { DivUnique(0, Pow2(k), 0, 0); }
    } else if k == 0 {
      assert Xor(a, 1) == (a + 1) % 2 + 2 * (a / 2);
      assert a / Pow2(0) == a;
    } else {
      XorIsFlip(a / 2, k - 1);
      FlipBitStep(a, k);
      XorEven(a, Pow2(k - 1));
    }
  }

  lemma {:induction false} XorEven(a: nat, b: nat)
    requires a > 0 && b > 0
    ensures Xor(a, 2 * b) == a % 2 + 2 * Xor(a / 2, b)
  {
    assert (a + 2 * b) % 2 == a % 2 && (2 * b) / 2 == b;
  }

  // ---- dyadic alignment -------------------------------------------------

  predicate Aligned(p: int, k: nat) {
    p % Pow2(k) == 0
  }

  lemma MulMod(q: int, m: int)
    requires m > 0
    ensures (q * m) % m == 0 && (q * m) / m == q
  {
    DivUnique(q * m, m, q, 0);
  }

  /** A multiple of 2^k is a multiple of every smaller power: the cofactor. */
  lemma AlignedFactor(p: int, j: nat, k: nat) returns (q: int)
    requires j <= k && Aligned(p, k)
    ensures p == q * Pow2(j) && Aligned(p, j)
    ensures q == (p / Pow2(k)) * Pow2(k - j)
  {
    q := (p / Pow2(k)) * Pow2(k - j);
    Pow2Add(k - j, j);
    var a := p / Pow2(k);
    assert p == a * Pow2(k);
    assert p == a * (Pow2(k - j) * Pow2(j)) == q * Pow2(j);
    MulMod(q, Pow2(j));
  }

  lemma MulLess(x: int, y: int, m: int)
    requires m > 0 && x * m < y * m
    ensures x < y
  {
    if x >= y {
      MulLeq(y, x, m);
    }
  }

  lemma MulLeq(x: int, y: int, m: int)
    requires m > 0 && x <= y
    ensures x * m <= y * m
  {
    assert y * m == x * m + (y - x) * m;
    assert (y - x) * m >= 0;
  }

  /** `Nested` in units of `m` bytes. */
  lemma NestedUnits(a: int, c: int, b: int, m: int)
    requires m > 0 && b * m < a * m + c * m && a * m < b * m + m
    ensures a * m <= b * m && b * m + m <= a * m + c * m
  {
    assert (a + c) * m == a * m + c * m;
    assert (b + 1) * m == b * m + m;
    MulLess(b, a + c, m);
    MulLess(a, b + 1, m);
    MulLeq(a, b, m);
    MulLeq(b + 1, a + c, m);
  }

  /** Two aligned ranges that share a byte are nested. */
  lemma Nested(p: int, k: nat, q: int, j: nat)
    requires j <= k && Aligned(p, k) && Aligned(q, j)
    requires q < p + Pow2(k) && p < q + Pow2(j)
    ensures p <= q && q + Pow2(j) <= p + Pow2(k)
  {
    Pow2Add(k - j, j);
    var a := AlignedFactor(p, j, k);
    var b := AlignedFactor(q, j, j);
    NestedUnits(a, Pow2(k - j), b, Pow2(j));
  }

  /** Both halves of an aligned range are aligned one order down. */
  lemma HalvesAligned(p: int, k: nat)
    requires Aligned(p, k + 1)
    ensures Aligned(p, k) && Aligned(p + Pow2(k), k)
  {
    var q := AlignedFactor(p, k, k + 1);
    MulMod(q + 1, Pow2(k));
    assert (q + 1) * Pow2(k) == p + Pow2(k);
  }

  /** One step up from an even multiple of `m`. */
  lemma UpperNeighbour(p: int, m: int)
    requires m > 0 && p % m == 0 && (p / m) % 2 == 0
    ensures (p + m) % m == 0 && (p + m) / m == p / m + 1 && p % (2 * m) == 0
  {
    var a := Quotient(p, m);
    assert (a + 1) * m == p + m;
    MulMod(a + 1, m);
    MulMod(a / 2, 2 * m);
    HalfTwice(a, m);
  }

  /** One step down from an odd multiple of `m`. */
  lemma LowerNeighbour(p: int, m: int)
    requires m > 0 && p % m == 0 && (p / m) % 2 == 1
    ensures (p - m) % m == 0 && (p - m) / m == p / m - 1 && (p - m) % (2 * m) == 0
    ensures p >= 0 ==> p >= m
  {
    StepDown(p, m);
    UpperNeighbour(p - m, m);
  }

  lemma StepDown(p: int, m: int)
    requires m > 0 && p % m == 0
    ensures (p - m) % m == 0 && (p - m) / m == p / m - 1
    ensures p >= 0 && p / m > 0 ==> p >= m
    ensures p >= 0 ==> p / m >= 0
  {
    var a := Quotient(p, m);
    assert (a - 1) * m == p - m;
    MulMod(a - 1, m);
    if a > 0 { MulLeq(1, a, m); }
  }

  lemma HalfTwice(a: int, m: int)
    requires a % 2 == 0
    ensures (a / 2) * (2 * m) == a * m
  {
    var h := a / 2;
    assert a == 2 * h;
    assert h * (2 * m) == (2 * h) * m;
  }

  lemma Quotient(p: int, m: int) returns (a: int)
    requires m > 0 && p % m == 0
    ensures a == p / m && p == a * m && (p >= 0 ==> a >= 0)
  {
    a := p / m;
  }

  lemma NeighbourPair(p: nat, m: int)
    requires m > 0 && p % m == 0
    ensures var b := Neighbour(p, m);
            && (b == p + m || b == p - m)
            && b >= 0 && b % m == 0
            && (if p < b then p else b) % (2 * m) == 0
            && Neighbour(b, m) == p
  {
    if (p / m) % 2 == 0 { UpperNeighbour(p, m); } else { LowerNeighbour(p, m); }
  }

  /** Flipping bit `k` of a multiple of 2^k moves to the other half of the aligned pair, and back. */
  lemma FlipAligned(p: nat, k: nat)
    requires Aligned(p, k)
    ensures var b := FlipBit(p, k);
            && (b == p + Pow2(k) || b == p - Pow2(k))
            && b >= 0 && Aligned(b, k)
            && Aligned(if p < b then p else b, k + 1)
            && FlipBit(b, k) == p
  {
    hide Neighbour;
    NeighbourPair(p, Pow2(k));
  }

  /** What the exclusive-or buddy address is: the other half of the aligned pair. */
  lemma BuddyAddress(p: nat, k: nat)
    requires Aligned(p, k)
    ensures var b := Xor(p, Pow2(k));
            && (b == p + Pow2(k) || b == p - Pow2(k))
            && Aligned(b, k)
            && Aligned(if p < b then p else b, k + 1)
            && Xor(b, Pow2(k)) == p
  {
    XorIsFlip(p, k);
    FlipAligned(p, k);
    XorIsFlip(Xor(p, Pow2(k)), k);
  }
}
