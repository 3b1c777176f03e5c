/** rotation.go: what the equal-court-time pass achieves, and what a whole night keeps. */
module FairNight {
  import opened Layout
  import opened Rotation
  import opened River
  import opened FairPass
  import Seeding

  // ---- The pass, seat by seat.

  lemma SeatedUpdate(courts: seq<RotCourt>, k: nat, c: RotCourt, idx: nat, id: Id)
    requires k < |courts| && idx < 4 && c == courts[k].WithSeat(idx, id)
    ensures Seated(courts[k := c]) == Seated(courts)[4 * k + idx := id]
  {
    var now := courts[k := c];
    forall p | 0 <= p < 4 * |courts|
      ensures Seated(now)[p] == Seated(courts)[4 * k + idx := id][p]
    {
      SeatedAt(now, p / 4, p % 4);
      SeatedAt(courts, p / 4, p % 4);
    }
  }

  lemma SeatTaken(courts: seq<RotCourt>, p: nat, id: Id)
    requires p < 4 * |courts|
    ensures Seated(WithSeatAt(courts, p, id)) == Seated(courts)[p := id]
  {
    SeatedUpdate(courts, p / 4, courts[p / 4].WithSeat(p % 4, id), p % 4, id);
    assert 4 * (p / 4) + p % 4 == p;
  }

  /** The two orders, as the pass uses them. */
  lemma Orders(f: Floor, played: map<Id, int>)
    ensures InOrder(SeatKeys(Seated(f.courts), played), SeatOrder(f, played))
    ensures InOrder(BenchKeys(f.bench, played), BenchOrder(f, played))
    ensures forall p: nat | p < 4 * |f.courts| :: p in SeatOrder(f, played)
    ensures forall i: nat | i < |f.bench| :: i in BenchOrder(f, played)
  {
    StableOrderInOrder(SeatKeys(Seated(f.courts), played), 4 * |f.courts|);
    StableOrderInOrder(BenchKeys(f.bench, played), |f.bench|);
  }

  /** Leaving seats are all different. */
  lemma SeatsDiffer(f: Floor, played: map<Id, int>, i: nat, j: nat)
    requires i < j < 4 * |f.courts|
    ensures SeatOrder(f, played)[i] != SeatOrder(f, played)[j]
  {
    Orders(f, played);
    assert Before(SeatKeys(Seated(f.courts), played), SeatOrder(f, played)[i], SeatOrder(f, played)[j]);
  }

  lemma PlacesDiffer(f: Floor, played: map<Id, int>, i: nat, j: nat)
    requires i < j < |f.bench|
    ensures BenchOrder(f, played)[i] != BenchOrder(f, played)[j]
  {
    Orders(f, played);
    assert Before(BenchKeys(f.bench, played), BenchOrder(f, played)[i], BenchOrder(f, played)[j]);
  }

  /** Seats not yet swapped are as they were. */
  lemma {:induction false} SeatsAfter(f: Floor, played: map<Id, int>, m: nat, p: nat)
    requires m <= Limit(f) && p < 4 * |f.courts| && p !in SeatOrder(f, played)[..m]
    ensures Seated(SwapIn(f, played, m))[p] == Seated(f.courts)[p]
    decreases m
  {
    if m > 0 {
      var order := SeatOrder(f, played);
      assert order[..m] == order[..m - 1] + [order[m - 1]];
      SeatTaken(SwapIn(f, played, m - 1), order[m - 1], Waiting(f, played, m - 1));
      SeatsAfter(f, played, m - 1, p);
    }
  }

  /** One swap: the player named in the order leaves, the one named in the queue order sits down. */
  lemma OneSwap(f: Floor, played: map<Id, int>, m: nat)
    requires m < Limit(f)
    ensures
      var p, was := SeatOrder(f, played)[m], Seated(SwapIn(f, played, m));
      && was[p] == Leaving(f, played, m)
      && Seated(SwapIn(f, played, m + 1)) == was[p := Waiting(f, played, m)]
  {
    var order := SeatOrder(f, played);
    SeatTaken(SwapIn(f, played, m), order[m], Waiting(f, played, m));
    forall i | 0 <= i < m
      ensures order[i] != order[m]
    {
      SeatsDiffer(f, played, i, m);
    }
    SeatsAfter(f, played, m, order[m]);
  }

  // ---- Conservation.

  /** Who came on, in order. */
  ghost function Incoming(f: Floor, played: map<Id, int>, m: nat): (on: seq<Id>)
    requires m <= Limit(f)
    ensures |on| == m
  {
    if m == 0 then [] else Incoming(f, played, m - 1) + [Waiting(f, played, m - 1)]
  }

  function Once(y: Id, x: Id): nat {
    if y == x then 1 else 0
  }

  lemma CountUpdate(s: seq<Id>, p: nat, id: Id, x: Id)
    requires p < |s|
    ensures multiset(s[p := id])[x] + Once(s[p], x) == multiset(s)[x] + Once(id, x)
  {
  }

  lemma CountPush(s: seq<Id>, id: Id, x: Id)
    ensures multiset(s + [id])[x] == multiset(s)[x] + Once(id, x)
  {
  }

  /** The books after one more swap. */
  lemma Balance(was: seq<Id>, p: nat, on: Id, off: seq<Id>, come: seq<Id>, start: nat, x: Id)
    requires p < |was| && multiset(was)[x] + multiset(off)[x] == start + multiset(come)[x]
    ensures multiset(was[p := on])[x] + multiset(off + [was[p]])[x] == start + multiset(come + [on])[x]
  {
    CountUpdate(was, p, on, x);
    CountPush(off, was[p], x);
    CountPush(come, on, x);
  }

  /** Seats after `m` swaps balance against who left and who came. */
  ghost predicate Balanced(f: Floor, played: map<Id, int>, m: nat, x: Id)
    requires m <= Limit(f)
  {
    multiset(Seated(SwapIn(f, played, m)))[x] + multiset(TookOff(f, played, m))[x]
      == multiset(Seated(f.courts))[x] + multiset(Incoming(f, played, m))[x]
  }

  lemma StepBalances(f: Floor, played: map<Id, int>, m: nat, x: Id)
    requires m < Limit(f) && Balanced(f, played, m, x)
    ensures Balanced(f, played, m + 1, x)
  {
    var was := Seated(SwapIn(f, played, m));
    OneSwap(f, played, m);
    Balance(was, SeatOrder(f, played)[m], Waiting(f, played, m), TookOff(f, played, m), Incoming(f, played, m),
            multiset(Seated(f.courts))[x], x);
  }

  lemma SeatsBalance(f: Floor, played: map<Id, int>, m: nat, x: Id)
    requires m <= Limit(f)
    ensures Balanced(f, played, m, x)
  {
    NothingMoved(f, played, x);
    if m >= 1 {
      StepBalances(f, played, 0, x);
    }
    if m == 2 {
      StepBalances(f, played, 1, x);
    }
  }

  lemma NothingMoved(f: Floor, played: map<Id, int>, x: Id)
    ensures Balanced(f, played, 0, x)
  {
    var none: seq<Id> := [];
    assert TookOff(f, played, 0) == none && Incoming(f, played, 0) == none && SwapIn(f, played, 0) == f.courts;
  }

  lemma {:induction false} WithoutCounts(bench: seq<Id>, on: set<Id>, x: Id)
    ensures multiset(Without(bench, on))[x] == if x in on then 0 else multiset(bench)[x]
    decreases |bench|
  {
    if bench != [] {
      var n := |bench| - 1;
      WithoutCounts(bench[..n], on, x);
      assert bench == bench[..n] + [bench[n]];
    }
  }

  /** Those who came on were each on the bench once. */
  lemma {:induction false} IncomingCounts(f: Floor, played: map<Id, int>, m: nat, x: Id)
    requires m <= Limit(f) && f.OK()
    ensures multiset(Incoming(f, played, m))[x] == if x in CameOn(f, played, m) then multiset(f.bench)[x] else 0
    ensures x in CameOn(f, played, m) ==> exists i | 0 <= i < m :: x == Waiting(f, played, i)
    decreases m
  {
    if m > 0 {
      IncomingCounts(f, played, m - 1, x);
      var y := Waiting(f, played, m - 1);
      if x == y {
        BenchOnce(f, BenchOrder(f, played)[m - 1]);
        if y in CameOn(f, played, m - 1) {
          var i :| 0 <= i < m - 1 && y == Waiting(f, played, i);
          PlacesDiffer(f, played, i, m - 1);
          BenchDistinct(f, BenchOrder(f, played)[i], BenchOrder(f, played)[m - 1]);
        }
      }
    }
  }

  lemma BenchDistinct(f: Floor, i: nat, j: nat)
    requires f.OK() && i < |f.bench| && j < |f.bench| && i != j
    ensures f.bench[i] != f.bench[j]
  {
    var all := Seated(f.courts) + f.bench;
    assert all[4 * |f.courts| + i] == f.bench[i] && all[4 * |f.courts| + j] == f.bench[j];
  }

  lemma BenchOnce(f: Floor, i: nat)
    requires f.OK() && i < |f.bench|
    ensures multiset(f.bench)[f.bench[i]] == 1
  {
    OKIsBag(f);
    assert f.Everyone()[f.bench[i]] <= 1;
    assert f.bench[i] in multiset(f.bench);
  }

  lemma PassKeepsCount(f: Floor, played: map<Id, int>, m: nat, x: Id)
    requires f.OK() && m <= Limit(f)
    ensures multiset(Seated(SwapIn(f, played, m)))[x]
      + multiset(Without(f.bench, CameOn(f, played, m)) + TookOff(f, played, m))[x] == f.Everyone()[x]
  {
    SeatsBalance(f, played, m, x);
    WithoutCounts(f.bench, CameOn(f, played, m), x);
    IncomingCounts(f, played, m, x);
    CountBoth(Without(f.bench, CameOn(f, played, m)), TookOff(f, played, m), x);
  }

  lemma CountBoth(s: seq<Id>, t: seq<Id>, x: Id)
    ensures multiset(s + t)[x] == multiset(s)[x] + multiset(t)[x]
  {
  }

  lemma EvenedCount(f: Floor, played: map<Id, int>, x: Id)
    requires f.OK()
    ensures Evened(f, played).Everyone()[x] == f.Everyone()[x]
  {
    if SwapsFrom(f, played, 0) > 0 {
      PassKeepsCount(f, played, SwapsFrom(f, played, 0), x);
    }
  }

  /** The pass moves people between seats and bench and does nothing else. */
  lemma PassKeepsEveryone(f: Floor, played: map<Id, int>)
    requires f.OK()
    ensures Evened(f, played).Everyone() == f.Everyone()
  {
    forall x: Id
      ensures Evened(f, played).Everyone()[x] == f.Everyone()[x]
    {
      EvenedCount(f, played, x);
    }
  }

  lemma {:induction false} SwapsKeepNumbers(f: Floor, played: map<Id, int>, m: nat)
    requires m <= Limit(f) && Contiguous(f.courts)
    ensures Contiguous(SwapIn(f, played, m))
    decreases m
  {
    if m > 0 {
      SwapsKeepNumbers(f, played, m - 1);
    }
  }

  lemma PassKeepsOK(f: Floor, played: map<Id, int>)
    requires f.OK()
    ensures Evened(f, played).OK()
    ensures |Evened(f, played).bench| == |f.bench|
  {
    var g := Evened(f, played);
    PassKeepsEveryone(f, played);
    SwapsKeepNumbers(f, played, SwapsFrom(f, played, 0));
    OKIsBag(f);
    OKIsBag(g);
    assert |f.Everyone()| == 4 * |f.courts| + |f.bench|;
    assert |g.Everyone()| == 4 * |g.courts| + |g.bench|;
  }

  // ---- A whole night.

  datatype Round =
    | Plain(results: seq<RotResult>, mode: LoserMode)
    | Fair(results: seq<RotResult>, mode: LoserMode, played: map<Id, int>)

  ghost function After(f: Floor, r: Round): Floor {
    match r
    case Plain(results, mode) => Moved(f, results, mode)
    case Fair(results, mode, played) => MovedFairly(f, results, mode, played)
  }

  ghost function Night(f: Floor, rounds: seq<Round>): Floor
    decreases |rounds|
  {
    if rounds == [] then f else After(Night(f, rounds[..|rounds| - 1]), rounds[|rounds| - 1])
  }

  lemma RoundIsSafe(f: Floor, r: Round)
    requires f.OK()
    ensures After(f, r).OK() && After(f, r).Everyone() == f.Everyone()
    ensures |After(f, r).courts| == |f.courts| && |After(f, r).bench| == |f.bench|
  {
    MoveKeepsOK(f, r.results, r.mode);
    MoveKeepsEveryone(f, r.results, r.mode);
    if r.Fair? {
      PassKeepsOK(Moved(f, r.results, r.mode), r.played);
      PassKeepsEveryone(Moved(f, r.results, r.mode), r.played);
    }
  }

  /** Any mix of rounds, with any results, modes and counts, keeps the same people on the same number of full courts. */
  lemma {:induction false} NightIsSafe(f: Floor, rounds: seq<Round>)
    requires f.OK()
    ensures Night(f, rounds).OK() && Night(f, rounds).Everyone() == f.Everyone()
    ensures |Night(f, rounds).courts| == |f.courts| && |Night(f, rounds).bench| == |f.bench|
    decreases |rounds|
  {
    if rounds != [] {
      NightIsSafe(f, rounds[..|rounds| - 1]);
      RoundIsSafe(Night(f, rounds[..|rounds| - 1]), rounds[|rounds| - 1]);
    }
  }

  /** From a rating order: any night seats the same people on as many full courts, with nobody doubled or blank. */
  lemma NightFromRatings(players: seq<Id>, maxCourts: int, rounds: seq<Round>)
    requires Proper(players)
    ensures
      var c := Seeding.CourtsFor(|players|, maxCourts);
      var f := Night(Floor(Seeding.RatedCourts(players, c), players[4 * c..]), rounds);
      f.OK() && f.Everyone() == multiset(players) && |f.courts| == c && |f.bench| == |players| - 4 * c
  {
    var c := Seeding.CourtsFor(|players|, maxCourts);
    Seeding.RatedFloorIsSafe(players, maxCourts);
    NightIsSafe(Floor(Seeding.RatedCourts(players, c), players[4 * c..]), rounds);
  }

  /** The same from explicit placements. */
  lemma NightFromPlacements(players: seq<Seeding.Seat>, maxCourts: int, f: Floor, rounds: seq<Round>)
    requires Seeding.IsPlacedFloor(players, maxCourts, f) && Proper(Seeding.Ids(players))
    ensures
      var c, g := Seeding.CourtsFor(|players|, maxCourts), Night(f, rounds);
      g.OK() && g.Everyone() == multiset(Seeding.Ids(players)) && |g.courts| == c && |g.bench| == |players| - 4 * c
  {
    Seeding.PlacedFloorIsSafe(players, maxCourts, f);
    NightIsSafe(f, rounds);
    assert |f.Everyone()| == 4 * |f.courts| + |f.bench|;
    assert |multiset(Seeding.Ids(players))| == |players|;
  }

  // ---- The refusal signal survives the pass.

  /** The first three seats of the top court always change hands when somebody is waiting. */
  lemma TopCourtTurnsOver(f: Floor, results: seq<RotResult>, mode: LoserMode, t: nat)
    requires f.OK() && |f.courts| > 0 && |f.bench| > 0 && t < 3
    ensures Seated(Moved(f, results, mode).courts)[t] != Seated(f.courts)[t]
  {
    var next := Moved(f, results, mode);
    assert next.courts[0] == NextCourt(f.courts, results, f.bench, mode, 0);
    SeatedAt(next.courts, 0, t);
    SeatedAt(f.courts, 0, t);
    FourAreFour(f, 0);
    if |f.courts| > 1 {
      var s := if Won(f.courts[1], results) == f.courts[1].teamA then 0 else 2;
      OneCourtEach(f, 0, 1, t, s);
      OneCourtEach(f, 0, 1, t, s + 1);
    } else {
      NotOnTheBench(f, 0, t, 0);
      if |f.bench| > 1 {
        NotOnTheBench(f, 0, t, 1);
      }
    }
  }

  lemma UntouchedSeat(g: Floor, played: map<Id, int>) returns (t: nat)
    requires |g.courts| > 0
    ensures t < 3 && Seated(Evened(g, played).courts)[t] == Seated(g.courts)[t]
  {
    var m := SwapsFrom(g, played, 0);
    var order := SeatOrder(g, played);
    t := if 0 !in order[..m] then 0 else if 1 !in order[..m] then 1 else 2;
    SeatsAfter(g, played, m, t);
  }

  /** With a court in play, the fair round too returns the courts unchanged exactly when the layout was unsafe. */
  lemma FairRefusalIsExact(f: Floor, results: seq<RotResult>, mode: LoserMode, played: map<Id, int>)
    requires |f.courts| > 0
    ensures MovedFairly(f, results, mode, played).courts == f.courts <==> !f.OK()
  {
    RefusalIsExact(f, results, mode);
    MoveKeepsEveryone(f, results, mode);
    var g := Moved(f, results, mode);
    if f.OK() && f.bench != [] {
      var t := UntouchedSeat(g, played);
      TopCourtTurnsOver(f, results, mode, t);
    }
  }

  // ---- What the pass achieves.

  ghost function GamesOnCourt(ids: seq<Id>, played: map<Id, int>): int {
    if ids == [] then 0 else GamesOnCourt(ids[..|ids| - 1], played) + Plays(played, ids[|ids| - 1])
  }

  lemma {:induction false} GamesUpdate(ids: seq<Id>, p: nat, id: Id, played: map<Id, int>)
    requires p < |ids|
    ensures GamesOnCourt(ids[p := id], played) == GamesOnCourt(ids, played) - Plays(played, ids[p]) + Plays(played, id)
    decreases |ids|
  {
    var n := |ids| - 1;
    if p < n {
      GamesUpdate(ids[..n], p, id, played);
      assert ids[p := id][..n] == ids[..n][p := id];
    } else {
      assert ids[p := id][..n] == ids[..n];
    }
  }

  /** Each swap sends off somebody with strictly more games than the one it brings on. */
  lemma EverySwapNarrows(f: Floor, played: map<Id, int>, m: nat)
    requires m < SwapsFrom(f, played, 0)
    ensures Plays(played, Waiting(f, played, m)) < Plays(played, Leaving(f, played, m))
    ensures GamesOnCourt(Seated(SwapIn(f, played, m + 1)), played) < GamesOnCourt(Seated(SwapIn(f, played, m)), played)
  {
    OneSwap(f, played, m);
    GamesUpdate(Seated(SwapIn(f, played, m)), SeatOrder(f, played)[m], Waiting(f, played, m), played);
  }

  /** From the `i`-th swap on, nobody left in line has played more than the one leaving; ties leave the lower court. */
  lemma MostPlayedLeaveFirst(f: Floor, played: map<Id, int>, i: nat, p: nat)
    requires i < Limit(f) && p < 4 * |f.courts| && p !in SeatOrder(f, played)[..i]
    ensures
      var x := Seated(f.courts)[p];
      || Plays(played, x) < Plays(played, Leaving(f, played, i))
      || (Plays(played, x) == Plays(played, Leaving(f, played, i)) && p / 4 <= SeatOrder(f, played)[i] / 4)
  {
    var order := SeatOrder(f, played);
    Orders(f, played);
    assert p in order;
    var b :| 0 <= b < |order| && order[b] == p;
    if b > i {
      assert Before(SeatKeys(Seated(f.courts), played), order[i], order[b]);
    }
  }

  /** Nobody left in the queue has played less than the one who comes on; ties go to whoever waited longer. */
  lemma LeastPlayedComeFirst(f: Floor, played: map<Id, int>, i: nat, q: nat)
    requires i < Limit(f) && q < |f.bench| && q !in BenchOrder(f, played)[..i]
    ensures
      var y := f.bench[q];
      || Plays(played, y) > Plays(played, Waiting(f, played, i))
      || (Plays(played, y) == Plays(played, Waiting(f, played, i)) && q >= BenchOrder(f, played)[i])
  {
    var order := BenchOrder(f, played);
    Orders(f, played);
    assert q in order;
    var b :| 0 <= b < |order| && order[b] == q;
    if b > i {
      assert Before(BenchKeys(f.bench, played), order[i], order[b]);
    }
  }

  /** Everybody seated after `m` swaps was seated before and stayed, or came on. */
  lemma {:induction false} SeatedAfterSwaps(f: Floor, played: map<Id, int>, m: nat, p: nat) returns (i: nat)
    requires m <= Limit(f) && p < 4 * |f.courts|
    ensures i <= m
    ensures i < m ==> Seated(SwapIn(f, played, m))[p] == Waiting(f, played, i)
    ensures i == m ==> p !in SeatOrder(f, played)[..m] && Seated(SwapIn(f, played, m))[p] == Seated(f.courts)[p]
    decreases m
  {
    if m == 0 {
      i := 0;
    } else {
      SeatAfterSwap(f, played, m, p);
      if p == SeatOrder(f, played)[m - 1] {
        i := m - 1;
      } else {
        i := SeatedAfterSwaps(f, played, m - 1, p);
        i := if i == m - 1 then m else i;
      }
    }
  }

  /** The last of `m` swaps changes one seat. */
  lemma SeatAfterSwap(f: Floor, played: map<Id, int>, m: nat, p: nat)
    requires 1 <= m <= Limit(f) && p < 4 * |f.courts|
    ensures Seated(SwapIn(f, played, m))[p]
         == if p == SeatOrder(f, played)[m - 1] then Waiting(f, played, m - 1) else Seated(SwapIn(f, played, m - 1))[p]
    ensures p in SeatOrder(f, played)[..m] <==> p in SeatOrder(f, played)[..m - 1] || p == SeatOrder(f, played)[m - 1]
  {
    var order := SeatOrder(f, played);
    OneSwap(f, played, m - 1);
    assert order[..m] == order[..m - 1] + [order[m - 1]];
  }

  /** Everybody queueing after `m` swaps was queueing before and stayed, or came off. */
  lemma QueueingAfterSwaps(f: Floor, played: map<Id, int>, m: nat, y: Id) returns (q: nat, i: nat)
    requires m <= Limit(f) && y in Without(f.bench, CameOn(f, played, m)) + TookOff(f, played, m)
    ensures i <= m
    ensures i < m ==> y == Leaving(f, played, i)
    ensures i == m ==> q < |f.bench| && f.bench[q] == y && q !in BenchOrder(f, played)[..m]
  {
    if y in TookOff(f, played, m) {
      i := OffIsLeaving(f, played, m, y);
      q := 0;
    } else {
      i := m;
      q := WithoutMember(f.bench, CameOn(f, played, m), y);
      if q in BenchOrder(f, played)[..m] {
        var a :| 0 <= a < m && BenchOrder(f, played)[..m][a] == q;
        OnHasCome(f, played, m, a);
      }
    }
  }

  lemma {:induction false} OffIsLeaving(f: Floor, played: map<Id, int>, m: nat, y: Id) returns (i: nat)
    requires m <= Limit(f) && y in TookOff(f, played, m)
    ensures i < m && y == Leaving(f, played, i)
    decreases m
  {
    if y == Leaving(f, played, m - 1) {
      i := m - 1;
    } else {
      i := OffIsLeaving(f, played, m - 1, y);
    }
  }

  lemma {:induction false} OnHasCome(f: Floor, played: map<Id, int>, m: nat, a: nat)
    requires a < m <= Limit(f)
    ensures Waiting(f, played, a) in CameOn(f, played, m)
    decreases m
  {
    if a < m - 1 {
      OnHasCome(f, played, m - 1, a);
    }
  }

  lemma {:induction false} WithoutMember(bench: seq<Id>, on: set<Id>, y: Id) returns (q: nat)
    requires y in Without(bench, on)
    ensures q < |bench| && bench[q] == y && y !in on
    decreases |bench|
  {
    var n := |bench| - 1;
    if bench[n] !in on && bench[n] == y {
      q := n;
    } else {
      q := WithoutMember(bench[..n], on, y);
    }
  }

  /** The line is sorted: whoever leaves earlier has played at least as much, whoever comes on earlier at most as much. */
  lemma LinesAreSorted(f: Floor, played: map<Id, int>, i: nat, j: nat)
    requires i <= j < Limit(f)
    ensures Plays(played, Leaving(f, played, i)) >= Plays(played, Leaving(f, played, j))
    ensures Plays(played, Waiting(f, played, i)) <= Plays(played, Waiting(f, played, j))
  {
    if i < j {
      Orders(f, played);
      assert Before(SeatKeys(Seated(f.courts), played), SeatOrder(f, played)[i], SeatOrder(f, played)[j]);
      assert Before(BenchKeys(f.bench, played), BenchOrder(f, played)[i], BenchOrder(f, played)[j]);
    }
  }

  /** Everybody the pass sends off has played strictly more than everybody it brings on. */
  lemma LeaversHavePlayedMore(f: Floor, played: map<Id, int>, i: nat, j: nat)
    requires i < SwapsFrom(f, played, 0) && j < SwapsFrom(f, played, 0)
    ensures Plays(played, Waiting(f, played, j)) < Plays(played, Leaving(f, played, i))
  {
    var last := if i < j then j else i;
    LinesAreSorted(f, played, i, last);
    LinesAreSorted(f, played, j, last);
  }

  /** When the pass stops early: whoever sits at seat `p` came on, or has played no more than the next to leave. */
  lemma SeatedWhenStopped(f: Floor, played: map<Id, int>, p: nat) returns (i: nat)
    requires p < 4 * |f.courts| && SwapsFrom(f, played, 0) < Limit(f)
    ensures var m, x := SwapsFrom(f, played, 0), Seated(Evened(f, played).courts)[p];
            && i <= m && Plays(played, x) <= Plays(played, Waiting(f, played, m))
            && (i < m ==> x == Waiting(f, played, i))
            && (i == m ==> Plays(played, x) <= Plays(played, Leaving(f, played, m)))
  {
    var m := SwapsFrom(f, played, 0);
    i := SeatedAfterSwaps(f, played, m, p);
    if i < m {
      LinesAreSorted(f, played, i, m);
    } else {
      MostPlayedLeaveFirst(f, played, m, p);
    }
  }

  /** When the pass stops early: whoever queues came off, or has played no less than the next to come on. */
  lemma QueueingWhenStopped(f: Floor, played: map<Id, int>, y: Id) returns (j: nat)
    requires y in Evened(f, played).bench && SwapsFrom(f, played, 0) < Limit(f)
    ensures var m := SwapsFrom(f, played, 0);
            && j <= m
            && (j < m ==> y == Leaving(f, played, j) && Plays(played, y) >= Plays(played, Leaving(f, played, m)))
            && (j == m ==> Plays(played, y) >= Plays(played, Waiting(f, played, m)))
  {
    var m := SwapsFrom(f, played, 0);
    assert m == 0 ==> Without(f.bench, {}) + [] == f.bench by {
      WithoutNobody(f.bench);
    }
    var q;
    q, j := QueueingAfterSwaps(f, played, m, y);
    if j < m {
      LinesAreSorted(f, played, j, m);
    } else {
      LeastPlayedComeFirst(f, played, m, q);
    }
  }

  /** Either the pass makes every swap it may, or it ends with nobody waiting who has played less than somebody seated. */
  lemma PassEvensOut(f: Floor, played: map<Id, int>, p: nat, y: Id)
    requires p < 4 * |f.courts| && y in Evened(f, played).bench
    ensures
      || SwapsFrom(f, played, 0) == Min2(|f.bench|)
      || Plays(played, y) >= Plays(played, Seated(Evened(f, played).courts)[p])
  {
    var m := SwapsFrom(f, played, 0);
    if m < Limit(f) {
      var i := SeatedWhenStopped(f, played, p);
      var j := QueueingWhenStopped(f, played, y);
      if i < m && j < m {
        LeaversHavePlayedMore(f, played, j, i);
      }
    }
  }

  lemma {:induction false} WithoutNobody(bench: seq<Id>)
    ensures Without(bench, {}) == bench
    decreases |bench|
  {
    if bench != [] {
      WithoutNobody(bench[..|bench| - 1]);
    }
  }
}
