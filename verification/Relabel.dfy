/** Renumbering the rounds a collapse left behind onto a contiguous 1..N, as double_elim.go,
    consolation.go and compass.go all do. */
module Relabel {

  /** The new number of round `r`: how many of the rounds present are not later. */
  function Rank(present: set<nat>, r: nat): nat {
    |UpTo(present, r)|
  }

  function UpTo(present: set<nat>, r: nat): set<nat> {
    set x | x in present && x <= r
  }

  lemma SubsetIsSmaller<T>(a: set<T>, b: set<T>)
    requires a <= b
    ensures |a| <= |b|
    ensures a != b ==> |a| < |b|
  {
    assert b == a + (b - a);
    if a != b {
      assert b - a != {};
    }
  }

  /** Renumbering keeps the order of rounds and is one-to-one, into 1..N. */
  lemma RankKeepsOrder(present: set<nat>, a: nat, b: nat)
    requires a in present && b in present
    ensures a < b <==> Rank(present, a) < Rank(present, b)
    ensures a == b <==> Rank(present, a) == Rank(present, b)
    ensures 1 <= Rank(present, a) <= |present|
  {
    var upToA := UpTo(present, a);
    var upToB := UpTo(present, b);
    assert a in upToA && b in upToB;
    SubsetIsSmaller({a}, upToA);
    SubsetIsSmaller(upToA, present);
    if a < b {
      assert upToA <= upToB && b !in upToA;
      SubsetIsSmaller(upToA, upToB);
    } else if b < a {
      assert upToB <= upToA && a !in upToB;
      SubsetIsSmaller(upToB, upToA);
    }
  }

  ghost predicate Increasing(s: seq<nat>) {
    forall i, j | 0 <= i < j < |s| :: s[i] < s[j]
  }

  /** In a sorted list of the rounds present, the one at index `i` gets number `i + 1`: the
      numbers used are exactly 1..N. */
  lemma {:induction false} RankOfSorted(s: seq<nat>, present: set<nat>, i: nat)
    requires Increasing(s) && present == (set x | x in s) && i < |s|
    ensures Rank(present, s[i]) == i + 1
  {
    var upTo := UpTo(present, s[i]);
    if i == 0 {
      assert upTo == {s[0]};
    } else {
      RankOfSorted(s, present, i - 1);
      var before := UpTo(present, s[i - 1]);
      forall x ensures x in upTo <==> x in before + {s[i]} {
        if x in upTo && x != s[i] {
          var j :| 0 <= j < |s| && s[j] == x;
          assert j <= i - 1;
        }
      }
      assert upTo == before + {s[i]};
      assert s[i] !in before;
      assert |before| == i;
    }
  }

  function Insert(s: seq<nat>, x: nat): seq<nat> {
    if s == [] || x < s[0] then [x] + s else [s[0]] + Insert(s[1..], x)
  }

  lemma {:induction false} InsertSorts(s: seq<nat>, x: nat)
    requires Increasing(s) && x !in s
    ensures Increasing(Insert(s, x))
    ensures forall y :: y in Insert(s, x) <==> y in s || y == x
  {
    if s == [] || x < s[0] {
    } else {
      InsertSorts(s[1..], x);
      var rest := Insert(s[1..], x);
      assert forall y :: y in s <==> y == s[0] || y in s[1..];
      assert forall k | 0 <= k < |rest| :: rest[k] in rest;
    }
  }

  /** Collect the distinct rounds, sort them, and number them from 1. */
  method Number(present: set<nat>) returns (remap: map<nat, nat>)
    ensures remap.Keys == present
    ensures forall r | r in present :: remap[r] == Rank(present, r)
  {
    var ordered: seq<nat> := [];
    var rest := present;
    while rest != {}
      invariant Increasing(ordered) && rest <= present
      invariant forall x :: x in ordered <==> x in present && x !in rest
      decreases rest
    {
      var r :| r in rest;
      InsertSorts(ordered, r);
      ordered := Insert(ordered, r);
      rest := rest - {r};
    }
    assert present == set x | x in ordered;
    remap := map[];
    for i := 0 to |ordered|
      invariant forall x :: x in remap <==> x in ordered[..i]
      invariant forall x | x in remap :: remap[x] == Rank(present, x)
    {
      RankOfSorted(ordered, present, i);
      remap := remap[ordered[i] := i + 1];
    }
  }

  /** Every number from 1 to N names a round that is present: no gaps. */
  lemma NoGaps(present: set<nat>, n: nat) returns (r: nat)
    requires 1 <= n <= |present|
    ensures r in present && Rank(present, r) == n
  {
    var s := SortedList(present);
    DistinctLength(s, present);
    r := s[n - 1];
    RankOfSorted(s, present, n - 1);
  }

  lemma SortedList(present: set<nat>) returns (s: seq<nat>)
    ensures Increasing(s) && present == set x | x in s
    decreases |present|
  {
    if present == {} {
      s := [];
    } else {
      var r :| r in present;
      var t := SortedList(present - {r});
      InsertSorts(t, r);
      s := Insert(t, r);
      forall x ensures x in present <==> x in s {
        assert x in present - {r} <==> x in t;
      }
    }
  }

  lemma {:induction false} DistinctLength(s: seq<nat>, present: set<nat>)
    requires Increasing(s) && present == set x | x in s
    ensures |s| == |present|
  {
    if s == [] {
    } else {
      var last := s[|s| - 1];
      DistinctLength(s[..|s| - 1], present - {last});
    }
  }
}
