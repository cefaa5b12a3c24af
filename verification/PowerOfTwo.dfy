/** Powers of two, bit masks, and dexRoundUpPower2 of libdex/DexFile.cpp. */
module PowerOfTwo {
  function Pow2(k: nat): (p: nat)
    ensures p >= 1
  {
    if k == 0 then 1 else 2 * Pow2(k - 1)
  }

  /** `x >> s`. */
  function Shr(x: nat, s: nat): nat
    decreases s
  {
    if s == 0 then x else Shr(x / 2, s - 1)
  }

  /** `x | y` and `x & y`, bit by bit. */
  function Or(x: nat, y: nat): nat {
    if x == 0 && y == 0 then 0
    else (if x % 2 == 1 || y % 2 == 1 then 1 else 0) + 2 * Or(x / 2, y / 2)
  }

  function And(x: nat, y: nat): nat {
    if x == 0 || y == 0 then 0
    else (if x % 2 == 1 && y % 2 == 1 then 1 else 0) + 2 * And(x / 2, y / 2)
  }

  /** Masking with a power of two less one is taking the remainder. */
  lemma MaskIsRemainder(x: nat, k: nat)
    ensures And(x, Pow2(k) - 1) == x % Pow2(k)
  {
    hide And, Pow2;
    MaskIsRem(x, k);
  }

  function Rem(x: nat, p: nat): nat
    requires p > 0
  {
    x % p
  }

  lemma {:induction false} MaskIsRem(x: nat, k: nat)
    ensures And(x, Pow2(k) - 1) == Rem(x, Pow2(k))
    decreases k
  {
    hide And, Rem;
    if k > 0 {
      MaskIsRem(x / 2, k - 1);
      MaskStep(x, Pow2(k - 1));
      HalfRem(x, Pow2(k - 1));
    } else {
      MaskNone(x);
    }
  }

  lemma MaskNone(x: nat)
    ensures And(x, 0) == 0 && Rem(x, 1) == 0
  {
  }

  lemma HalfRem(x: nat, p: nat)
    requires p > 0
    ensures Rem(x, 2 * p) == x % 2 + 2 * Rem(x / 2, p)
  {
    Halves(x, p);
  }

  lemma MaskStep(x: nat, p: nat)
    requires p > 0
    ensures And(x, 2 * p - 1) == x % 2 + 2 * And(x / 2, p - 1)
  {
    assert (2 * p - 1) / 2 == p - 1 && (2 * p - 1) % 2 == 1;
  }

  lemma Halves(x: nat, p: nat)
    requires p > 0
    ensures x % (2 * p) == x % 2 + 2 * (x / 2 % p)
  {
    var q, r := x / 2 / p, x / 2 % p;
    assert x / 2 == q * p + r;
    assert x == (2 * p) * q + (x % 2 + 2 * r) by {
      assert 2 * (q * p) == (2 * p) * q;
    }
    Remainder(2 * p, q, x % 2 + 2 * r);
  }

  lemma Remainder(d: nat, q: nat, r: nat)
    requires r < d
    ensures (d * q + r) % d == r
  {
    var n := d * q + r;
    var p, s := n / d, n % d;
    assert n == d * p + s;
    if p < q {
      Apart(d, q, p);
    } else if q < p {
      Apart(d, p, q);
    }
  }

  lemma Apart(d: nat, p: nat, q: nat)
    requires q < p
    ensures d * p >= d * q + d
  {
    var i := q + 1;
    while i < p
      invariant q < i <= p && d * i >= d * q + d
    {
      assert d * (i + 1) == d * i + d;
      i := i + 1;
    }
  }

  lemma {:induction false} OrBounds(x: nat, y: nat, k: nat)
    requires x < Pow2(k) && y < Pow2(k)
    ensures x <= Or(x, y) < Pow2(k)
    decreases k
  {
    if k > 0 {
      OrBounds(x / 2, y / 2, k - 1);
    }
  }

  /** The k-bit number x begins with m ones. */
  predicate Ones(x: nat, k: nat, m: nat) {
    m <= k && Pow2(k) - Pow2(k - m) <= x < Pow2(k)
  }

  /** What is below the leading ones can only grow. */
  lemma {:induction false} OrBelow(x: nat, y: nat, k: nat, m: nat)
    requires Ones(x, k, m) && y < Pow2(k - m)
    ensures Or(x, y) >= Pow2(k) - Pow2(k - m) + y
    decreases k
  {
    if k > m {
      OrBelow(x / 2, y / 2, k - 1, m);
    } else {
      OrZero(x);
    }
  }

  lemma {:induction false} OrZero(x: nat)
    ensures Or(x, 0) == x
  {
    if x != 0 {
      OrZero(x / 2);
    }
  }

  /** A quotient of a number that begins with m ones begins with m ones. */
  lemma {:induction false} QuotientOnes(x: nat, k: nat, m: nat, s: nat)
    requires Ones(x, k, m) && s <= k - m
    ensures Ones(Shr(x, s), k - s, m)
    decreases s
  {
    if s > 0 {
      assert Pow2(k - m) == 2 * Pow2(k - 1 - m);
      assert Ones(x / 2, k - 1, m);
      QuotientOnes(x / 2, k - 1, m, s - 1);
    }
  }

  /** One line `val |= val >> s` doubles the leading ones. */
  lemma Smear(x: nat, k: nat, s: nat)
    requires Ones(x, k, if s < k then s else k)
    ensures Ones(Or(x, Shr(x, s)), k, if 2 * s < k then 2 * s else k)
  {
    hide Pow2, Or, Shr;
    if s < k {
      SmearOnes(x, k, s, if 2 * s < k then s else k - s);
    } else {
      Vanishes(x, k, s);
      OrZero(x);
    }
  }

  lemma {:induction false} Vanishes(x: nat, k: nat, s: nat)
    requires k <= s && x < Pow2(k)
    ensures Shr(x, s) == 0
    decreases s
  {
    if s > 0 {
      Vanishes(x / 2, if k == 0 then 0 else k - 1, s - 1);
    }
  }

  lemma SmearOnes(x: nat, k: nat, s: nat, m: nat)
    requires s < k && Ones(x, k, s) && m <= s && m <= k - s
    ensures Ones(Or(x, Shr(x, s)), k, s + m)
  {
    hide Pow2, Or, Shr;
    Fewer(x, k, s, m);
    QuotientOnes(x, k, m, s);
    OrOnes(x, Shr(x, s), k, s, m);
  }

  lemma Fewer(x: nat, k: nat, s: nat, m: nat)
    requires Ones(x, k, s) && m <= s
    ensures Ones(x, k, m)
  {
    Lower(k - s, k - m);
    hide Pow2;
  }

  lemma OrOnes(x: nat, y: nat, k: nat, s: nat, m: nat)
    requires s < k && Ones(x, k, s) && Ones(y, k - s, m)
    ensures Ones(Or(x, y), k, s + m)
  {
    OrBelow(x, y, k, s);
    Lower(k - s, k);
    OrBounds(x, y, k);
    hide Pow2, Or, Shr;
  }

  lemma {:induction false} Lower(i: nat, k: nat)
    requires i <= k
    ensures Pow2(i) <= Pow2(k)
    decreases k
  {
    if i < k {
      Lower(i, k - 1);
    }
  }

  /** The power of two that x + 1 does not exceed. */
  lemma {:induction false} Width(x: nat, n: nat) returns (k: nat)
    requires x < Pow2(n)
    ensures k <= n && x < Pow2(k) && (k > 0 ==> Pow2(k - 1) <= x)
  {
    if n == 0 || Pow2(n - 1) <= x {
      k := n;
    } else {
      k := Width(x, n - 1);
    }
  }

  /** The smearing of dexRoundUpPower2 in 32-bit words, behind its decrement. */
  function Smeared(x: nat): nat {
    var x1 := Or(x, Shr(x, 1));
    var x2 := Or(x1, Shr(x1, 2));
    var x3 := Or(x2, Shr(x2, 4));
    var x4 := Or(x3, Shr(x3, 8));
    Or(x4, Shr(x4, 16))
  }

  /** It fills all bits below the leading one. */
  lemma SmearedIs(x: nat, k: nat)
    requires k <= 32 && x < Pow2(k) && (k > 0 ==> Pow2(k - 1) <= x)
    ensures Smeared(x) == Pow2(k) - 1
  {
    hide Pow2, Or, Ones, Shr;
    FirstOne(x, k);
    var x1 := Or(x, Shr(x, 1));
    Smear(x, k, 1);
    var x2 := Or(x1, Shr(x1, 2));
    Smear(x1, k, 2);
    var x3 := Or(x2, Shr(x2, 4));
    Smear(x2, k, 4);
    var x4 := Or(x3, Shr(x3, 8));
    Smear(x3, k, 8);
    Smear(x4, k, 16);
    AllOnes(Or(x4, Shr(x4, 16)), k);
  }

  lemma FirstOne(x: nat, k: nat)
    requires x < Pow2(k) && (k > 0 ==> Pow2(k - 1) <= x)
    ensures Ones(x, k, if 1 < k then 1 else k)
  {
    assert k > 0 ==> Pow2(k) == 2 * Pow2(k - 1);
  }

  lemma AllOnes(x: nat, k: nat)
    requires Ones(x, k, k)
    ensures x == Pow2(k) - 1
  {
  }

  lemma PowZero()
    ensures Pow2(0) == 1 && Pow2(32) == 0x1_0000_0000 && Pow2(31) == 0x8000_0000 && Pow2(1) == 2
  {
    assert Pow2(8) == 0x100;
    assert Pow2(16) == 0x1_0000;
    assert Pow2(24) == 0x100_0000;
  }

  /** dexRoundUpPower2, in 32-bit words. */
  method RoundUpPower2(val: nat) returns (r: nat)
    requires val < 0x1_0000_0000
    ensures 1 <= val <= 0x8000_0000 ==> exists k: nat :: k <= 31 && r == Pow2(k) && val <= r < 2 * val
    ensures val == 0 || val > 0x8000_0000 ==> r == 0
  {
    hide Pow2, Or, Shr;
    PowZero();
    var v := if val == 0 then 0xFFFF_FFFF else val - 1;
    ghost var k := Width(v, 32);
    SmearedIs(v, k);
    Bracket(v, k);
    v := Or(v, Shr(v, 1));
    v := Or(v, Shr(v, 2));
    v := Or(v, Shr(v, 4));
    v := Or(v, Shr(v, 8));
    v := Or(v, Shr(v, 16));
    r := (v + 1) % 0x1_0000_0000;
  }

  lemma Bracket(v: nat, k: nat)
    requires k <= 32 && v < Pow2(k) && (k > 0 ==> Pow2(k - 1) <= v)
    ensures v < 0x8000_0000 <==> k <= 31
    ensures k > 0 ==> Pow2(k) <= 2 * v
    ensures k == 0 ==> v == 0 && Pow2(k) == 1
    ensures Pow2(k) <= 0x1_0000_0000 && (k <= 31 ==> Pow2(k) <= 0x8000_0000) && (k == 32 ==> Pow2(k) == 0x1_0000_0000)
  {
    PowZero();
    if k <= 31 {
      Lower(k, 31);
    } else {
      assert Pow2(31) <= v;
    }
  }
}
