/** rotation.go: the queue the equal-court-time pass leaves, told from the floor before it and the floor after it. */
module FairQueue {
  import opened Layout
  import opened Rotation
  import opened River
  import opened FairPass
  import opened FairNight

  /** `x` stands before `y` in the queue. */
  ghost predicate StandsBefore(queue: seq<Id>, x: Id, y: Id) {
    exists a, b :: 0 <= a < b < |queue| && queue[a] == x && queue[b] == y
  }

  /** `x` leaves before `y`: more games, or as many on a lower court, or an earlier seat of the same court. */
  ghost predicate LeavesBefore(courts: seq<RotCourt>, played: map<Id, int>, x: Id, y: Id) {
    exists p, q :: Sits(courts, x, p) && Sits(courts, y, q)
      && (|| Plays(played, x) > Plays(played, y)
          || (Plays(played, x) == Plays(played, y) && (p / 4 > q / 4 || (p / 4 == q / 4 && p < q))))
  }

  /** Seats are counted court by court, four to a court. */
  ghost predicate Sits(courts: seq<RotCourt>, x: Id, p: int) {
    0 <= p < 4 * |courts| && Seated(courts)[p] == x
  }

  lemma {:induction false} StayedOn(bench: seq<Id>, on: set<Id>, i: nat) returns (a: nat)
    requires i < |Without(bench, on)|
    ensures a < |bench| && bench[a] == Without(bench, on)[i]
    decreases |bench|
  {
    var n := |bench| - 1;
    if bench[n] !in on && i == |Without(bench, on)| - 1 {
      a := n;
    } else {
      a := StayedOn(bench[..n], on, i);
    }
  }

  /** Whoever stays in the queue keeps their order. */
  lemma {:induction false} OrderIsKept(bench: seq<Id>, on: set<Id>, i: nat, j: nat)
    requires i < j < |Without(bench, on)|
    ensures StandsBefore(bench, Without(bench, on)[i], Without(bench, on)[j])
    decreases |bench|
  {
    var n := |bench| - 1;
    if bench[n] !in on && j == |Without(bench, on)| - 1 {
      var a := StayedOn(bench[..n], on, i);
      assert bench[a] == Without(bench, on)[i] && bench[n] == Without(bench, on)[j];
    } else {
      OrderIsKept(bench[..n], on, i, j);
      var a, b :| 0 <= a < b < n && bench[a] == Without(bench, on)[i] && bench[b] == Without(bench, on)[j];
    }
  }

  lemma {:induction false} OffAt(f: Floor, played: map<Id, int>, m: nat, i: nat)
    requires i < m <= Limit(f)
    ensures TookOff(f, played, m)[i] == Leaving(f, played, i)
    decreases m
  {
    if i < m - 1 {
      OffAt(f, played, m - 1, i);
    }
  }

  /** The line of those leaving, by games, court and seat. */
  lemma LeavingInOrder(f: Floor, played: map<Id, int>, i: nat, j: nat)
    requires i < j < Limit(f)
    ensures LeavesBefore(f.courts, played, Leaving(f, played, i), Leaving(f, played, j))
  {
    Orders(f, played);
    var order := SeatOrder(f, played);
    assert Before(SeatKeys(Seated(f.courts), played), order[i], order[j]);
    assert Sits(f.courts, Leaving(f, played, i), order[i]) && Sits(f.courts, Leaving(f, played, j), order[j]);
  }

  lemma LeaverWasSeated(f: Floor, played: map<Id, int>, i: nat)
    requires f.OK() && i < Limit(f)
    ensures Leaving(f, played, i) !in f.bench
  {
    var p := SeatOrder(f, played)[i];
    SeatedAt(f.courts, p / 4, p % 4);
    forall b | 0 <= b < |f.bench| ensures f.bench[b] != Leaving(f, played, i) {
      NotOnTheBench(f, p / 4, p % 4, b);
    }
  }

  /** Of two people in the queue after the pass, in order: whoever waited already stands first, those who waited are in
      the order they waited in, and those taken off in the order they left. */
  ghost predicate QueuesBefore(g: Floor, played: map<Id, int>, x: Id, y: Id) {
    if y in g.bench then StandsBefore(g.bench, x, y)
    else x in g.bench || LeavesBefore(g.courts, played, x, y)
  }

  lemma EvenedQueue(g: Floor, played: map<Id, int>, i: nat, j: nat)
    requires g.OK() && i < j < |Evened(g, played).bench|
    ensures QueuesBefore(g, played, Evened(g, played).bench[i], Evened(g, played).bench[j])
  {
    var m := SwapsFrom(g, played, 0);
    if m > 0 {
      var stayed := Without(g.bench, CameOn(g, played, m));
      var n := |stayed|;
      if j < n {
        OrderIsKept(g.bench, CameOn(g, played, m), i, j);
      } else {
        OffAt(g, played, m, j - n);
        LeaverWasSeated(g, played, j - n);
        if i < n {
          var a := StayedOn(g.bench, CameOn(g, played, m), i);
        } else {
          OffAt(g, played, m, i - n);
          LeavingInOrder(g, played, i - n, j - n);
        }
      }
    }
  }

  /** The queue after a fair round, from the floor `Moved` leaves before the pass: those who waited and were not brought
      on come first, in the order they waited in, and behind them those taken off, in the order they left. */
  lemma QueueAfterThePass(f: Floor, results: seq<RotResult>, mode: LoserMode, played: map<Id, int>, i: nat, j: nat)
    requires f.OK() && i < j < |MovedFairly(f, results, mode, played).bench|
    ensures
      var queue := MovedFairly(f, results, mode, played).bench;
      QueuesBefore(Moved(f, results, mode), played, queue[i], queue[j])
  {
    MoveKeepsOK(f, results, mode);
    EvenedQueue(Moved(f, results, mode), played, i, j);
  }

  // ---- Somebody the counts do not mention.

  /** The two counts say the same of everybody. */
  ghost predicate SameCounts(p: map<Id, int>, q: map<Id, int>) {
    forall id :: Plays(p, id) == Plays(q, id)
  }

  lemma SameOrders(f: Floor, p: map<Id, int>, q: map<Id, int>)
    requires SameCounts(p, q)
    ensures SeatOrder(f, p) == SeatOrder(f, q) && BenchOrder(f, p) == BenchOrder(f, q)
  {
    assert SeatKeys(Seated(f.courts), p) == SeatKeys(Seated(f.courts), q);
    assert BenchKeys(f.bench, p) == BenchKeys(f.bench, q);
  }

  lemma {:induction false} SameSwaps(f: Floor, p: map<Id, int>, q: map<Id, int>, i: nat)
    requires SameCounts(p, q) && i <= Limit(f)
    ensures SwapsFrom(f, p, i) == SwapsFrom(f, q, i)
    decreases Limit(f) - i
  {
    SameOrders(f, p, q);
    if i < Limit(f) {
      SameSwaps(f, p, q, i + 1);
    }
  }

  lemma {:induction false} SameAfter(f: Floor, p: map<Id, int>, q: map<Id, int>, m: nat)
    requires SameCounts(p, q) && m <= Limit(f)
    ensures SwapIn(f, p, m) == SwapIn(f, q, m)
    ensures TookOff(f, p, m) == TookOff(f, q, m) && CameOn(f, p, m) == CameOn(f, q, m)
    decreases m
  {
    SameOrders(f, p, q);
    if m > 0 {
      SameAfter(f, p, q, m - 1);
    }
  }

  /** Whoever the counts do not mention is treated as having played none. */
  lemma UnknownCountsAsZero(f: Floor, results: seq<RotResult>, mode: LoserMode, played: map<Id, int>, x: Id)
    requires x !in played
    ensures MovedFairly(f, results, mode, played) == MovedFairly(f, results, mode, played[x := 0])
  {
    var g := Moved(f, results, mode);
    SameSwaps(g, played, played[x := 0], 0);
    SameAfter(g, played, played[x := 0], SwapsFrom(g, played, 0));
  }
}
