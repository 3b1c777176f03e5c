/** bracket.go's seedOrder: which seed starts in which line of the draw sheet. */
module SeedOrder {
  import opened Powers

  /** The seed on line `i` of a field of 2^k: each line of the smaller field is followed by
      its mirror, the seed that sums with it to one more than the field. */
  function SeedOn(k: nat, i: nat): int {
    if k == 0 then 1
    else if i % 2 == 0 then SeedOn(k - 1, i / 2)
    else Pow2(k) + 1 - SeedOn(k - 1, i / 2)
  }

  lemma {:induction false} SeedInRange(k: nat, i: nat)
    ensures 1 <= SeedOn(k, i) <= Pow2(k)
  {
    if k > 0 {
      SeedInRange(k - 1, i / 2);
    }
  }

  /** The two lines of a round-1 match: the better seed, and its mirror. */
  lemma Pairing(k: nat, i: nat)
    requires k >= 1
    ensures SeedOn(k, 2 * i) == SeedOn(k - 1, i)
    ensures SeedOn(k, 2 * i + 1) == Pow2(k) + 1 - SeedOn(k - 1, i)
    ensures 1 <= SeedOn(k - 1, i) <= Pow2(k - 1)
  {
    SeedInRange(k - 1, i);
    assert (2 * i) / 2 == i && (2 * i + 1) / 2 == i;
  }

  /** The line a seed starts on. */
  function LineOf(k: nat, s: nat): nat {
    if k == 0 then 0
    else if s <= Pow2(k - 1) then 2 * LineOf(k - 1, s)
    else if s <= Pow2(k) then 2 * LineOf(k - 1, Pow2(k) + 1 - s) + 1
    else 0
  }

  /** Every seed of the field starts on exactly one line. */
  lemma {:induction false} OrderIsPermutation(k: nat, s: nat)
    requires 1 <= s <= Pow2(k)
    ensures LineOf(k, s) < Pow2(k) && SeedOn(k, LineOf(k, s)) == s
    ensures forall i | 0 <= i < Pow2(k) && SeedOn(k, i) == s :: i == LineOf(k, s)
  {
    if k == 0 {
    } else {
      var half := if s <= Pow2(k - 1) then s else Pow2(k) + 1 - s;
      OrderIsPermutation(k - 1, half);
      Pairing(k, LineOf(k - 1, half));
      forall i | 0 <= i < Pow2(k) && SeedOn(k, i) == s ensures i == LineOf(k, s) {
        Pairing(k, i / 2);
        assert i == 2 * (i / 2) + i % 2;
        assert SeedOn(k - 1, i / 2) == half;
      }
    }
  }

  /** Two lines with the same seed are the same line. */
  lemma SameSeedSameLine(k: nat, i: nat, j: nat)
    requires i < Pow2(k) && j < Pow2(k) && SeedOn(k, i) == SeedOn(k, j)
    ensures i == j
  {
    SeedInRange(k, i);
    OrderIsPermutation(k, SeedOn(k, i));
  }

  /** A block's first line is the line of the smaller field the block stands for. */
  lemma {:induction false} BlockHead(k: nat, j: nat, b: nat)
    requires j <= k && b < Pow2(k - j)
    ensures Shl(b, j) < Pow2(k) && SeedOn(k, Shl(b, j)) == SeedOn(k - j, b)
    decreases j
  {
    if j == 0 {
    } else {
      assert k - 1 - (j - 1) == k - j;
      BlockHead(k - 1, j - 1, b);
      Pairing(k, Shl(b, j - 1));
    }
  }

  /** Every line of a block but its first holds a seed too weak to head one. */
  lemma {:induction false} BlockRest(k: nat, j: nat, b: nat, d: nat)
    requires j <= k && b < Pow2(k - j) && 0 < d < Pow2(j)
    ensures Shl(b, j) + d < Pow2(k) && SeedOn(k, Shl(b, j) + d) > Pow2(k - j)
    decreases j
  {
    ShlInRange(b, k - j, j);
    var h := Shl(b, j - 1) + d / 2;
    UnderBlock(b, j, d);
    if d % 2 == 0 {
      BlockRest(k - 1, j - 1, b, d / 2);
      Pairing(k, h);
    } else {
      MirroredIsWeak(k, j, h);
    }
  }

  /** A line of a block lies under a line of the block one size down. */
  lemma UnderBlock(b: nat, j: nat, d: nat)
    requires j >= 1
    ensures Shl(b, j) + d == 2 * (Shl(b, j - 1) + d / 2) + d % 2
  {
  }

  lemma MirroredIsWeak(k: nat, j: nat, h: nat)
    requires 1 <= j <= k
    ensures SeedOn(k, 2 * h + 1) > Pow2(k - j)
  {
    Pairing(k, h);
    Pow2Monotone(k - j, k - 1);
    assert Pow2(k) == 2 * Pow2(k - 1);
  }

  /** Separation: every aligned block of 2^j lines holds exactly one of the top 2^(k-j)
      seeds, at its head. So the top two are in opposite halves, the top four in different
      quarters, and so on. */
  lemma OneTopSeedPerBlock(k: nat, j: nat, b: nat)
    requires j <= k && b < Pow2(k - j)
    ensures Shl(b, j) + Pow2(j) <= Pow2(k)
    ensures forall i | Shl(b, j) <= i < Shl(b, j) + Pow2(j) ::
              SeedOn(k, i) <= Pow2(k - j) <==> i == Shl(b, j)
  {
    ShlInRange(b, k - j, j);
    BlockHead(k, j, b);
    SeedInRange(k - j, b);
    forall i | Shl(b, j) <= i < Shl(b, j) + Pow2(j)
      ensures SeedOn(k, i) <= Pow2(k - j) <==> i == Shl(b, j)
    {
      if i != Shl(b, j) {
        BlockRest(k, j, b, i - Shl(b, j));
      }
    }
  }

  method Generate(n: nat) returns (order: seq<int>)
    ensures |order| == Pow2(CeilLog2(n))
    ensures forall i | 0 <= i < |order| :: order[i] == SeedOn(CeilLog2(n), i)
  {
    order := [1];
    ghost var k: nat := 0;
    while |order| < n
      invariant |order| == Pow2(k)
      invariant forall i | 0 <= i < |order| :: order[i] == SeedOn(k, i)
      invariant k > 0 ==> Pow2(k - 1) < n
      decreases n - |order|
    {
      var length := |order| * 2;
      var next: seq<int> := [];
      for i := 0 to |order|
        invariant |next| == 2 * i
        invariant forall x | 0 <= x < |next| :: next[x] == SeedOn(k + 1, x)
      {
        Pairing(k + 1, i);
        next := next + [order[i], length + 1 - order[i]];
      }
      order := next;
      k := k + 1;
    }
    CeilLog2Unique(n, k);
  }

  /** The draw sheet of eight. */
  lemma EightLines()
    ensures SeedOn(3, 0) == 1 && SeedOn(3, 1) == 8 && SeedOn(3, 2) == 4 && SeedOn(3, 3) == 5
    ensures SeedOn(3, 4) == 2 && SeedOn(3, 5) == 7 && SeedOn(3, 6) == 3 && SeedOn(3, 7) == 6
  {
    assert Pow2(1) == 2 && Pow2(2) == 4 && Pow2(3) == 8;
    assert SeedOn(1, 0) == 1 && SeedOn(1, 1) == 2;
    assert SeedOn(2, 0) == 1 && SeedOn(2, 1) == 4 && SeedOn(2, 2) == 2 && SeedOn(2, 3) == 3;
  }
}
