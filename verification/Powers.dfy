/** Powers of two, and the two helpers of bracket.go that round a field size up. */
module Powers {

  function Pow2(k: nat): (p: nat)
    ensures p >= 1
  {
    if k == 0 then 1 else 2 * Pow2(k - 1)
  }

  lemma {:induction false} Pow2Split(a: nat, b: nat)
    ensures Pow2(a + b) == Pow2(a) * Pow2(b)
  {
    if a == 0 {
    } else {
      Pow2Split(a - 1, b);
      assert Pow2(a + b) == 2 * Pow2((a - 1) + b);
    }
  }

  lemma {:induction false} Pow2Monotone(a: nat, b: nat)
    requires a <= b
    ensures Pow2(a) <= Pow2(b)
    ensures a < b ==> 2 * Pow2(a) <= Pow2(b)
    decreases b
  {
    if a < b {
      Pow2Monotone(a, b - 1);
    }
  }

  /** The shift the source writes as `x / (1 << b)`, on a power of two. */
  lemma Pow2Quotient(a: nat, b: nat)
    requires b <= a
    ensures Pow2(a) / Pow2(b) == Pow2(a - b)
  {
    Pow2Split(a - b, b);
    assert Pow2(a) == Pow2(a - b) * Pow2(b);
    QuotientOfProduct(Pow2(a - b), Pow2(b));
  }

  lemma QuotientOfProduct(q: nat, d: nat)
    requires d > 0
    ensures q * d / d == q
  {
    var n, x := q * d, q * d / d;
    assert n == x * d + n % d;
    if x < q {
      MulMonotone(x + 1, q, d);
    } else if q < x {
      MulMonotone(q + 1, x, d);
    }
  }

  lemma {:induction false} MulMonotone(a: nat, b: nat, d: nat)
    requires a <= b
    ensures a * d <= b * d
  {
    assert b * d == a * d + (b - a) * d;
  }

  /** `b << j`: the first of the 2^j leaves under node `b`, `j` levels up. */
  function Shl(b: nat, j: nat): nat {
    if j == 0 then b else 2 * Shl(b, j - 1)
  }

  lemma {:induction false} ShlNext(b: nat, j: nat)
    ensures Shl(b + 1, j) == Shl(b, j) + Pow2(j)
  {
    if j > 0 {
      ShlNext(b, j - 1);
    }
  }

  lemma {:induction false} ShlMonotone(a: nat, b: nat, j: nat)
    requires a <= b
    ensures Shl(a, j) <= Shl(b, j)
  {
    if j > 0 {
      ShlMonotone(a, b, j - 1);
    }
  }

  lemma {:induction false} ShlOfPower(a: nat, j: nat)
    ensures Shl(Pow2(a), j) == Pow2(a + j)
  {
    if j > 0 {
      ShlOfPower(a, j - 1);
    }
  }

  /** The leaves under node `b` of a level with 2^a nodes are leaves of the whole. */
  lemma ShlInRange(b: nat, a: nat, j: nat)
    requires b < Pow2(a)
    ensures Shl(b, j) + Pow2(j) <= Pow2(a + j)
  {
    ShlNext(b, j);
    ShlMonotone(b + 1, Pow2(a), j);
    ShlOfPower(a, j);
  }

  /** The exponent of the bracket a field of `n` is rounded up to. */
  function CeilLog2(n: int): (k: nat)
    ensures n <= Pow2(k)
    ensures k > 0 ==> Pow2(k - 1) < n
  {
    CeilLog2From(n, 0)
  }

  function CeilLog2From(n: int, k: nat): (r: nat)
    requires k > 0 ==> Pow2(k - 1) < n
    ensures n <= Pow2(r)
    ensures r > 0 ==> Pow2(r - 1) < n
    decreases n - Pow2(k)
  {
    if n <= Pow2(k) then k else CeilLog2From(n, k + 1)
  }

  /** The exponent is the only one whose power brackets `n` from above. */
  lemma CeilLog2Unique(n: int, k: nat)
    requires n <= Pow2(k)
    requires k > 0 ==> Pow2(k - 1) < n
    ensures CeilLog2(n) == k
  {
    var c := CeilLog2(n);
    if c < k {
      Pow2Monotone(c, k - 1);
    } else if k < c {
      Pow2Monotone(k, c - 1);
    }
  }

  method NextPow2(n: int) returns (p: nat)
    ensures p == Pow2(CeilLog2(n))
  {
    p := 1;
    ghost var k: nat := 0;
    while p < n
      invariant p == Pow2(k)
      invariant k > 0 ==> Pow2(k - 1) < n
      decreases n - p
    {
      p := p * 2;
      k := k + 1;
    }
    CeilLog2Unique(n, k);
  }

  method ILog2(n: int) returns (k: nat)
    ensures n >= 1 ==> Pow2(k) <= n < Pow2(k + 1)
    ensures n < 1 ==> k == 0
  {
    k := 0;
    var v := n;
    while v > 1
      invariant n < 1 ==> v == n && k == 0
      invariant n >= 1 ==> v >= 1 && v * Pow2(k) <= n < (v + 1) * Pow2(k)
      decreases v
    {
      var half := v / 2;
      HalvingKeepsBounds(n, v, Pow2(k));
      v := half;
      k := k + 1;
    }
  }

  lemma HalvingKeepsBounds(n: nat, v: nat, p: nat)
    requires v * p <= n < (v + 1) * p
    ensures v / 2 * (2 * p) <= n < (v / 2 + 1) * (2 * p)
  {
    var h := v / 2;
    assert v == 2 * h || v == 2 * h + 1;
    assert h * (2 * p) == 2 * h * p;
    assert (h + 1) * (2 * p) == (2 * h + 2) * p;
  }

  lemma ILog2OfPower(k: nat, r: nat)
    requires Pow2(r) <= Pow2(k) < Pow2(r + 1)
    ensures r == k
  {
    if r < k {
      Pow2Monotone(r + 1, k);
    } else if k < r {
      Pow2Monotone(k, r);
    }
  }

  /** `m >> j`. */
  function Shr(m: nat, j: nat): nat {
    if j == 0 then m else Shr(m, j - 1) / 2
  }

  lemma {:induction false} ShrTwice(m: nat, a: nat, b: nat)
    ensures Shr(Shr(m, a), b) == Shr(m, a + b)
  {
    if b > 0 {
      ShrTwice(m, a, b - 1);
    }
  }

  /** Halving a slot once. */
  lemma ShrOnce(i: nat)
    ensures Shr(i, 1) == i / 2
  {
    assert Shr(i, 0) == i;
  }
}
