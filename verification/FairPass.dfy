/** rotation.go: the equal-court-time pass on top of a round. */
module FairPass {
  import opened Layout
  import opened Rotation

  /** Games played before this round; whoever is missing has played none. */
  function Plays(played: map<Id, int>, id: Id): int {
    if id in played then played[id] else 0
  }

  // ---- Stable ordering.

  datatype Key = Key(first: int, second: int)

  predicate Less(a: Key, b: Key) {
    a.first < b.first || (a.first == b.first && a.second < b.second)
  }

  /** `i` stands before `j`: a smaller key, or an equal one met earlier. */
  ghost predicate Before(keys: seq<Key>, i: nat, j: nat)
    requires i < |keys| && j < |keys|
  {
    Less(keys[i], keys[j]) || (!Less(keys[j], keys[i]) && i < j)
  }

  predicate Within(order: seq<nat>, n: nat) {
    forall a | 0 <= a < |order| :: order[a] < n
  }

  ghost predicate InOrder(keys: seq<Key>, order: seq<nat>) {
    && Within(order, |keys|)
    && forall a, b | 0 <= a < b < |order| :: Before(keys, order[a], order[b])
  }

  function Insert(keys: seq<Key>, order: seq<nat>, x: nat): (r: seq<nat>)
    requires x < |keys| && Within(order, |keys|)
    ensures |r| == |order| + 1 && Within(r, |keys|)
  {
    if order == [] then [x]
    else
      var n := |order| - 1;
      if Less(keys[x], keys[order[n]]) then Insert(keys, order[..n], x) + [order[n]] else order + [x]
  }

  /** The positions of the first `n` keys, smallest key first, equal keys as met. */
  function StableOrder(keys: seq<Key>, n: nat): (r: seq<nat>)
    requires n <= |keys|
    ensures |r| == n && Within(r, |keys|)
  {
    if n == 0 then [] else Insert(keys, StableOrder(keys, n - 1), n - 1)
  }

  lemma AppendInOrder(keys: seq<Key>, front: seq<nat>, z: nat)
    requires InOrder(keys, front) && z < |keys|
    requires forall y | y in front :: y < |keys| && Before(keys, y, z)
    ensures InOrder(keys, front + [z])
  {
    var all := front + [z];
    forall a, b | 0 <= a < b < |all|
      ensures Before(keys, all[a], all[b])
    {
      if b == |front| {
        assert all[a] in front;
      }
    }
  }

  lemma {:induction false} InsertInOrder(keys: seq<Key>, order: seq<nat>, x: nat)
    requires x < |keys| && InOrder(keys, order) && Within(order, x)
    ensures InOrder(keys, Insert(keys, order, x))
    ensures forall y :: y in Insert(keys, order, x) <==> y in order || y == x
    decreases |order|
  {
    if order != [] {
      var n := |order| - 1;
      assert order == order[..n] + [order[n]];
      if Less(keys[x], keys[order[n]]) {
        InsertInOrder(keys, order[..n], x);
        AppendInOrder(keys, Insert(keys, order[..n], x), order[n]);
      } else {
        forall y | y in order
          ensures Before(keys, y, x)
        {
          NotAfter(keys, order, x, y);
        }
        AppendInOrder(keys, order, x);
      }
    }
  }

  /** When the last key is not larger than the new one, none is. */
  lemma NotAfter(keys: seq<Key>, order: seq<nat>, x: nat, y: nat)
    requires x < |keys| && InOrder(keys, order) && Within(order, x) && y in order
    requires !Less(keys[x], keys[order[|order| - 1]])
    ensures Before(keys, y, x)
  {
    var a :| 0 <= a < |order| && order[a] == y;
    if a < |order| - 1 {
      assert Before(keys, order[a], order[|order| - 1]);
    }
  }

  /** The stable order holds every position, each before every one that belongs after it. */
  lemma {:induction false} StableOrderInOrder(keys: seq<Key>, n: nat)
    requires n <= |keys|
    ensures InOrder(keys, StableOrder(keys, n)) && Within(StableOrder(keys, n), n)
    ensures forall y: nat :: y in StableOrder(keys, n) <==> y < n
    decreases n
  {
    if n > 0 {
      StableOrderInOrder(keys, n - 1);
      InsertInOrder(keys, StableOrder(keys, n - 1), n - 1);
      assert forall a | 0 <= a < n :: StableOrder(keys, n)[a] in StableOrder(keys, n);
    }
  }

  // ---- The pass.

  /** Seats are numbered court by court, four to a court. Most games first; on a tie, the bottom court first. */
  function SeatKeys(seats: seq<Id>, played: map<Id, int>): (keys: seq<Key>)
    ensures |keys| == |seats|
  {
    seq(|seats|, p requires 0 <= p < |seats| => Key(-Plays(played, seats[p]), -(p / 4)))
  }

  /** Fewest games first; on a tie, the longest-waiting first. */
  function BenchKeys(bench: seq<Id>, played: map<Id, int>): (keys: seq<Key>)
    ensures |keys| == |bench|
  {
    seq(|bench|, i requires 0 <= i < |bench| => Key(Plays(played, bench[i]), 0))
  }

  function SeatOrder(f: Floor, played: map<Id, int>): (order: seq<nat>)
    ensures |order| == 4 * |f.courts| && Within(order, 4 * |f.courts|)
  {
    var seats := Seated(f.courts);
    StableOrder(SeatKeys(seats, played), |seats|)
  }

  function BenchOrder(f: Floor, played: map<Id, int>): (order: seq<nat>)
    ensures |order| == |f.bench| && Within(order, |f.bench|)
  {
    StableOrder(BenchKeys(f.bench, played), |f.bench|)
  }

  /** How many swaps the pass can make at most. */
  function Limit(f: Floor): nat {
    if f.courts == [] then 0 else Min2(|f.bench|)
  }

  /** Who is next in line to leave a seat, and who is next in line to take it. */
  function Leaving(f: Floor, played: map<Id, int>, i: nat): Id
    requires i < Limit(f)
  {
    Seated(f.courts)[SeatOrder(f, played)[i]]
  }

  function Waiting(f: Floor, played: map<Id, int>, i: nat): Id
    requires i < Limit(f)
  {
    f.bench[BenchOrder(f, played)[i]]
  }

  /** The first swap, from the `i`-th on, that would not narrow the gap. */
  function SwapsFrom(f: Floor, played: map<Id, int>, i: nat): (m: nat)
    requires i <= Limit(f)
    ensures i <= m <= Limit(f)
    ensures forall j | i <= j < m :: Plays(played, Waiting(f, played, j)) < Plays(played, Leaving(f, played, j))
    ensures m < Limit(f) ==> Plays(played, Waiting(f, played, m)) >= Plays(played, Leaving(f, played, m))
    decreases Limit(f) - i
  {
    if i < Limit(f) && Plays(played, Waiting(f, played, i)) < Plays(played, Leaving(f, played, i)) then
      SwapsFrom(f, played, i + 1)
    else i
  }

  function WithSeatAt(courts: seq<RotCourt>, p: nat, id: Id): (r: seq<RotCourt>)
    requires p < 4 * |courts|
    ensures |r| == |courts|
  {
    courts[p / 4 := courts[p / 4].WithSeat(p % 4, id)]
  }

  /** The courts after the first `m` swaps. */
  function SwapIn(f: Floor, played: map<Id, int>, m: nat): (courts: seq<RotCourt>)
    requires m <= Limit(f)
    ensures |courts| == |f.courts|
  {
    if m == 0 then f.courts
    else WithSeatAt(SwapIn(f, played, m - 1), SeatOrder(f, played)[m - 1], Waiting(f, played, m - 1))
  }

  function TookOff(f: Floor, played: map<Id, int>, m: nat): (off: seq<Id>)
    requires m <= Limit(f)
    ensures |off| == m
  {
    if m == 0 then [] else TookOff(f, played, m - 1) + [Leaving(f, played, m - 1)]
  }

  function CameOn(f: Floor, played: map<Id, int>, m: nat): set<Id>
    requires m <= Limit(f)
  {
    if m == 0 then {} else CameOn(f, played, m - 1) + {Waiting(f, played, m - 1)}
  }

  /** The queue without those who came on, in the same order. */
  function Without(bench: seq<Id>, on: set<Id>): seq<Id> {
    if bench == [] then []
    else
      var n := |bench| - 1;
      if bench[n] in on then Without(bench[..n], on) else Without(bench[..n], on) + [bench[n]]
  }

  /** The pass over a floor: whoever comes off goes to the back of the queue. */
  function Evened(f: Floor, played: map<Id, int>): Floor {
    var m := SwapsFrom(f, played, 0);
    if m == 0 then f
    else Floor(SwapIn(f, played, m), Without(f.bench, CameOn(f, played, m)) + TookOff(f, played, m))
  }

  /** A round, then the pass; a refused layout is left alone. */
  ghost function MovedFairly(f: Floor, results: seq<RotResult>, mode: LoserMode, played: map<Id, int>): Floor {
    var g := Moved(f, results, mode);
    if f.OK() then Evened(g, played) else g
  }

  // ---- The code.

  method SetSeat(next: array<RotCourt>, p: nat, id: Id)
    requires p < 4 * next.Length
    modifies next
    ensures next[..] == WithSeatAt(old(next[..]), p, id)
  {
    var court, idx := p / 4, p % 4;
    if idx == 0 {
      next[court] := next[court].(teamA := next[court].teamA.(p0 := id));
    } else if idx == 1 {
      next[court] := next[court].(teamA := next[court].teamA.(p1 := id));
    } else if idx == 2 {
      next[court] := next[court].(teamB := next[court].teamB.(p0 := id));
    } else {
      next[court] := next[court].(teamB := next[court].teamB.(p1 := id));
    }
  }

  method ListSeats(courts: array<RotCourt>) returns (seats: seq<Id>)
    ensures seats == Seated(courts[..])
  {
    seats := [];
    for ci := 0 to courts.Length
      invariant seats == Seated(courts[..ci])
    {
      assert courts[..ci + 1] == courts[..ci] + [courts[ci]];
      SeatedPush(courts[..ci], courts[ci]);
      seats := seats + courts[ci].Seats();
    }
    assert courts[..courts.Length] == courts[..];
  }

  method Requeue(bench: seq<Id>, on: set<Id>, off: seq<Id>) returns (rebuilt: seq<Id>)
    ensures rebuilt == Without(bench, on) + off
  {
    rebuilt := [];
    for i := 0 to |bench|
      invariant rebuilt == Without(bench[..i], on)
    {
      assert bench[..i + 1][..i] == bench[..i];
      if bench[i] !in on {
        rebuilt := rebuilt + [bench[i]];
      }
    }
    assert bench[..|bench|] == bench;
    rebuilt := rebuilt + off;
  }

  method SwapSeats(next: array<RotCourt>, bench: seq<Id>, played: map<Id, int>) returns (nextBench: seq<Id>)
    requires next.Length > 0 && bench != []
    modifies next
    ensures Floor(next[..], nextBench) == Evened(Floor(old(next[..]), bench), played)
  {
    ghost var f := Floor(next[..], bench);
    var seats := ListSeats(next);
    var seatOrder := StableOrder(SeatKeys(seats, played), |seats|);
    var benchOrder := StableOrder(BenchKeys(bench, played), |bench|);
    var swaps := Min2(|bench|);
    var tookOff: seq<Id>, cameOn: set<Id> := [], {};
    var i := 0;
    while i < swaps && i < |seats| && i < |benchOrder|
      invariant i <= swaps == Limit(f)
      invariant SwapsFrom(f, played, 0) == SwapsFrom(f, played, i)
      invariant next[..] == SwapIn(f, played, i)
      invariant tookOff == TookOff(f, played, i) && cameOn == CameOn(f, played, i)
    {
      var waiting, onCourt := bench[benchOrder[i]], seats[seatOrder[i]];
      if Plays(played, waiting) >= Plays(played, onCourt) {
        break;
      }
      SetSeat(next, seatOrder[i], waiting);
      tookOff, cameOn := tookOff + [onCourt], cameOn + {waiting};
      i := i + 1;
    }
    assert SwapsFrom(f, played, i) == i;
    if |tookOff| == 0 {
      return bench;
    }
    nextBench := Requeue(bench, cameOn, tookOff);
  }

  /** The checks made on the courts and then on the bench pass exactly when the round was not refused. */
  lemma ChecksAreExact(f: Floor, results: seq<RotResult>, mode: LoserMode)
    ensures
      var g := Moved(f, results, mode);
      f.OK() <==> LayoutAndBenchOK(f.courts, []) && LayoutAndBenchOK(g.courts, []) && Proper(Seated(g.courts) + g.bench)
  {
    var g := Moved(f, results, mode);
    assert Seated(f.courts) + [] == Seated(f.courts) && Seated(g.courts) + [] == Seated(g.courts);
    if f.OK() {
      MoveKeepsOK(f, results, mode);
      ProperPrefix(Seated(f.courts), f.bench);
      ProperPrefix(Seated(g.courts), g.bench);
    }
  }

  method NextRoundFair(courts: seq<RotCourt>, results: seq<RotResult>, bench: seq<Id>, mode: LoserMode,
                       played: map<Id, int>)
    returns (next: array<RotCourt>, nextBench: seq<Id>)
    ensures fresh(next)
    ensures Floor(next[..], nextBench) == MovedFairly(Floor(courts, bench), results, mode, played)
  {
    ghost var f := Floor(courts, bench);
    next, nextBench := NextRound(courts, results, bench, mode);
    ghost var g := Floor(next[..], nextBench);
    if |nextBench| == 0 || next.Length == 0 {
      return;
    }
    ChecksAreExact(f, results, mode);
    var before := LayoutOK(courts);
    var after := LayoutOK(next[..]);
    if !before || !after {
      return;
    }
    assert Seated(g.courts) + [] == Seated(g.courts);
    var seats := ListSeats(next);
    var seated := set id | id in seats;
    var clear, _ := SeeAll(nextBench, seated, seats);
    if !clear {
      return;
    }
    nextBench := SwapSeats(next, nextBench, played);
  }
}
