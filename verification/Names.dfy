/** Text order, as the scheduler breaks ties with it. */
module Names {

  /** Byte-wise order on text: a proper prefix comes first. */
  predicate StrLess(a: string, b: string) {
    if b == [] then false
    else if a == [] then true
    else if a[0] != b[0] then a[0] < b[0]
    else StrLess(a[1..], b[1..])
  }

  lemma {:induction false} NotBoth(a: string, b: string)
    ensures StrLess(a, b) ==> !StrLess(b, a)
    decreases |a|
  {
    if a != [] && b != [] {
      NotBoth(a[1..], b[1..]);
    }
  }

  lemma {:induction false} OneOrTheOther(a: string, b: string)
    ensures a != b ==> StrLess(a, b) || StrLess(b, a)
    decreases |a|
  {
    if a != [] && b != [] && a[0] == b[0] {
      OneOrTheOther(a[1..], b[1..]);
      assert a == [a[0]] + a[1..] && b == [b[0]] + b[1..];
    }
  }

  lemma {:induction false} Transitive(a: string, b: string, c: string)
    requires StrLess(a, b) && StrLess(b, c)
    ensures StrLess(a, c)
    decreases |a|
  {
    if a != [] && a[0] == b[0] == c[0] {
      Transitive(a[1..], b[1..], c[1..]);
    }
  }

  /** The two agree up to place `k`; there the first one ends, or has the smaller letter. */
  predicate FirstDiffer(a: string, b: string, k: nat) {
    k <= |a| && k < |b| && a[..k] == b[..k] && (k == |a| || a[k] < b[k])
  }

  lemma {:induction false} LessAtFirstDifference(a: string, b: string)
    ensures StrLess(a, b) <==> exists k :: FirstDiffer(a, b, k)
    decreases |a|
  {
    if a == [] && b != [] {
      assert FirstDiffer(a, b, 0);
    } else if b != [] && a[0] < b[0] {
      assert FirstDiffer(a, b, 0);
    } else if b != [] && a[0] == b[0] {
      LessAtFirstDifference(a[1..], b[1..]);
      forall k: nat ensures FirstDiffer(a[1..], b[1..], k) <==> FirstDiffer(a, b, k + 1) {
        OneLater(a, b, k);
      }
      if k: nat :| FirstDiffer(a[1..], b[1..], k) {
        assert FirstDiffer(a, b, k + 1);
      }
      if k: nat :| FirstDiffer(a, b, k) {
        assert FirstDiffer(a[1..], b[1..], k - 1);
      }
    }
  }

  lemma OneLater(a: string, b: string, k: nat)
    requires a != [] && b != [] && a[0] == b[0]
    ensures FirstDiffer(a[1..], b[1..], k) <==> FirstDiffer(a, b, k + 1)
  {
    if k < |a| && k + 1 < |b| {
      assert a[..k + 1] == [a[0]] + a[1..][..k] && b[..k + 1] == [b[0]] + b[1..][..k];
      assert a[..k + 1][1..] == a[1..][..k] && b[..k + 1][1..] == b[1..][..k];
    }
  }
}
