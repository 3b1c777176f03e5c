/** rotation.go: who opens where. A floor is read as one line, top court first, and the line is compared with the
    list of players the floor was opened from. */
module Lineup {
  import opened Layout
  import opened Rotation
  import opened Seeding

  /** The four on a court in opening order: the first of each team, then the second of each. */
  function Four(c: RotCourt): (four: seq<Id>)
    ensures |four| == 4
  {
    [c.teamA.p0, c.teamB.p0, c.teamA.p1, c.teamB.p1]
  }

  function OnCourts(courts: seq<RotCourt>): (line: seq<Id>)
    ensures |line| == 4 * |courts|
  {
    if courts == [] then [] else OnCourts(courts[..|courts| - 1]) + Four(courts[|courts| - 1])
  }

  /** Everybody on a floor: place `p` of the line is on court `p / 4`, counted from 0, or else waiting. */
  function Line(f: Floor): (line: seq<Id>)
    ensures |line| == 4 * |f.courts| + |f.bench|
  {
    OnCourts(f.courts) + f.bench
  }

  predicate At(f: Floor, x: Id, p: nat) {
    p < |Line(f)| && Line(f)[p] == x
  }

  lemma {:induction false} OnCourtsAt(courts: seq<RotCourt>, k: nat, t: nat)
    requires k < |courts| && t < 4
    ensures OnCourts(courts)[4 * k + t] == Four(courts[k])[t]
    decreases |courts|
  {
    if k < |courts| - 1 {
      OnCourtsAt(courts[..|courts| - 1], k, t);
    }
  }

  function SeatIndex(t: nat): nat
    requires t < 4
  {
    if t == 1 then 2 else if t == 2 then 1 else t
  }

  /** Place `p` of the line, with `n` places on court, in the list of seats and bench. */
  function Index(n: nat, p: nat): nat {
    if p < n then 4 * (p / 4) + SeatIndex(p % 4) else p
  }

  /** The line is the seats and the bench, differently listed. */
  lemma PlaceIsSeat(f: Floor, p: nat)
    requires p < |Line(f)|
    ensures Index(4 * |f.courts|, p) < |Line(f)|
    ensures Line(f)[p] == (Seated(f.courts) + f.bench)[Index(4 * |f.courts|, p)]
  {
    if p < 4 * |f.courts| {
      OnCourtsAt(f.courts, p / 4, p % 4);
      SeatedAt(f.courts, p / 4, SeatIndex(p % 4));
    }
  }

  lemma IndexDiffers(n: nat, p: nat, q: nat)
    requires n % 4 == 0 && Index(n, p) == Index(n, q)
    ensures p == q
  {
  }

  /** On a safe floor everybody has one place. */
  lemma OnePlace(f: Floor, p: nat, q: nat)
    requires f.OK() && p < |Line(f)| && q < |Line(f)| && Line(f)[p] == Line(f)[q]
    ensures p == q
  {
    PlaceIsSeat(f, p);
    PlaceIsSeat(f, q);
    assert Proper(Seated(f.courts) + f.bench);
    var n := 4 * |f.courts|;
    NobodyTwice(Seated(f.courts) + f.bench, Index(n, p), Index(n, q));
    IndexDiffers(n, p, q);
  }

  lemma NobodyTwice(all: seq<Id>, x: nat, y: nat)
    requires Proper(all) && x < |all| && y < |all| && all[x] == all[y]
    ensures x == y
  {
  }

  // ---- By rating.

  /** Opening by rating, the line is the list: an earlier player is never on a lower court than a
      later one, and the bench keeps the order of the list. */
  lemma RatedLine(players: seq<Id>, maxCourts: int)
    ensures
      var c := CourtsFor(|players|, maxCourts);
      Line(Floor(RatedCourts(players, c), players[4 * c..])) == players
  {
    var c := CourtsFor(|players|, maxCourts);
    RatedOnCourts(players, c);
    assert players == players[..4 * c] + players[4 * c..];
  }

  lemma {:induction false} RatedOnCourts(players: seq<Id>, c: nat)
    requires 4 * c <= |players|
    ensures OnCourts(RatedCourts(players, c)) == players[..4 * c]
    decreases c
  {
    if c > 0 {
      RatedOnCourts(players, c - 1);
      var courts := RatedCourts(players, c);
      assert courts[..c - 1] == RatedCourts(players, c - 1);
      var four := players[4 * (c - 1)..4 * (c - 1) + 4];
      assert Four(courts[c - 1]) == four;
      assert players[..4 * c] == players[..4 * (c - 1)] + four;
    }
  }

  // ---- By placement.

  /** Who of the first `i` was put on court `k`. */
  function PutOn(players: seq<Seat>, i: nat, k: int): set<nat>
    requires i <= |players|
  {
    set h: nat | h < i && players[h].court == k
  }

  /** Does player `i` keep the court they were put on? It must be running, with fewer than four put there before. */
  predicate Keeps(players: seq<Seat>, c: nat, i: nat)
    requires i < |players|
  {
    1 <= players[i].court <= c && |PutOn(players, i, players[i].court)| < 4
  }

  lemma PutOnStep(players: seq<Seat>, i: nat, k: int)
    requires i < |players|
    ensures |PutOn(players, i + 1, k)| == |PutOn(players, i, k)| + if players[i].court == k then 1 else 0
  {
    var was := PutOn(players, i, k);
    assert PutOn(players, i + 1, k) == if players[i].court == k then was + {i} else was;
  }

  lemma {:induction false} WantingCounts(players: seq<Seat>, i: nat, k: int)
    requires i <= |players|
    ensures |Wanting(players[..i], k)| == |PutOn(players, i, k)|
    decreases i
  {
    if i == 0 {
      assert PutOn(players, 0, k) == {};
    } else {
      WantingCounts(players, i - 1, k);
      PutOnStep(players, i - 1, k);
      assert players[..i][..i - 1] == players[..i - 1];
    }
  }

  lemma KeepsIsHonoured(players: seq<Seat>, c: nat, i: nat)
    requires i < |players|
    ensures Keeps(players, c, i) <==> Honoured(players[..i], players[i], c)
  {
    WantingCounts(players, i, players[i].court);
  }

  /** Of two players who do not keep a court, who is seated first: the unplaced before those put on
      a court that is not running or was full; otherwise the one earlier in the list. */
  predicate FillsFirst(players: seq<Seat>, c: nat, i: nat, j: nat)
    requires i < |players| && j < |players|
  {
    && !Keeps(players, c, i) && !Keeps(players, c, j)
    && ((players[i].court < 1 <= players[j].court) || ((players[i].court < 1 <==> players[j].court < 1) && i < j))
  }

  lemma {:induction false} UnplacedHas(players: seq<Seat>, i: nat) returns (u: nat)
    requires i < |players| && players[i].court < 1
    ensures u < |Unplaced(players)| && Unplaced(players)[u] == players[i].id
    decreases |players|
  {
    var n := |players| - 1;
    if i == n {
      u := |Unplaced(players)| - 1;
    } else {
      u := UnplacedHas(players[..n], i);
    }
  }

  lemma {:induction false} UnplacedInOrder(players: seq<Seat>, i: nat, j: nat) returns (u: nat, v: nat)
    requires i < j < |players| && players[i].court < 1 && players[j].court < 1
    ensures u < v < |Unplaced(players)|
    ensures Unplaced(players)[u] == players[i].id && Unplaced(players)[v] == players[j].id
    decreases |players|
  {
    var n := |players| - 1;
    if j == n {
      u := UnplacedHas(players[..n], i);
      v := |Unplaced(players)| - 1;
    } else {
      u, v := UnplacedInOrder(players[..n], i, j);
    }
  }

  predicate Evicts(players: seq<Seat>, c: nat, i: nat)
    requires i < |players|
  {
    players[i].court >= 1 && !Honoured(players[..i], players[i], c)
  }

  lemma {:induction false} EvictedHas(players: seq<Seat>, c: nat, i: nat) returns (u: nat)
    requires i < |players| && Evicts(players, c, i)
    ensures u < |Evicted(players, c)| && Evicted(players, c)[u] == players[i].id
    decreases |players|
  {
    var n := |players| - 1;
    if i == n {
      u := |Evicted(players, c)| - 1;
    } else {
      assert players[..n][..i] == players[..i];
      u := EvictedHas(players[..n], c, i);
    }
  }

  lemma {:induction false} EvictedInOrder(players: seq<Seat>, c: nat, i: nat, j: nat) returns (u: nat, v: nat)
    requires i < j < |players| && Evicts(players, c, i) && Evicts(players, c, j)
    ensures u < v < |Evicted(players, c)|
    ensures Evicted(players, c)[u] == players[i].id && Evicted(players, c)[v] == players[j].id
    decreases |players|
  {
    var n := |players| - 1;
    assert players[..n][..i] == players[..i];
    if j == n {
      u := EvictedHas(players[..n], c, i);
      v := |Evicted(players, c)| - 1;
    } else {
      assert players[..n][..j] == players[..j];
      u, v := EvictedInOrder(players[..n], c, i, j);
    }
  }

  /** Who fills first stands first in the queue for the gaps. */
  lemma PoolInOrder(players: seq<Seat>, c: nat, i: nat, j: nat) returns (u: nat, v: nat)
    requires i < |players| && j < |players| && FillsFirst(players, c, i, j)
    ensures u < v < |Pool(players, c)| && Pool(players, c)[u] == players[i].id && Pool(players, c)[v] == players[j].id
  {
    KeepsIsHonoured(players, c, i);
    KeepsIsHonoured(players, c, j);
    var n := |Unplaced(players)|;
    if players[i].court >= 1 {
      u, v := EvictedInOrder(players, c, i, j);
      u, v := n + u, n + v;
    } else if players[j].court >= 1 {
      u := UnplacedHas(players, i);
      v := EvictedHas(players, c, j);
      v := n + v;
    } else {
      u, v := UnplacedInOrder(players, i, j);
    }
  }

  /** A court of a placed floor, read as a line: those who keep it, then the next in the queue. */
  lemma CourtAt(players: seq<Seat>, maxCourts: int, f: Floor, k: nat, t: nat)
    requires IsPlacedFloor(players, maxCourts, f) && 1 <= k <= |f.courts| && t < 4
    ensures Gaps(players, k) == Gaps(players, k - 1) + 4 - |FirstFour(players, k)| <= |Pool(players, |f.courts|)|
    ensures var kept, filled := FirstFour(players, k), Gaps(players, k - 1);
            At(f, if t < |kept| then kept[t] else Pool(players, |f.courts|)[filled + t - |kept|], 4 * (k - 1) + t)
  {
    assert PlacedCourt(players, |f.courts|, f.courts, k);
    RowAt(players, |f.courts|, k, t);
    OpenedAt(f, k, Row(players, |f.courts|, k), t);
  }

  lemma OpenedAt(f: Floor, k: nat, q: seq<Id>, t: nat)
    requires 1 <= k <= |f.courts| && t < 4 && |q| == 4 && f.courts[k - 1] == Opening(k, q)
    ensures At(f, q[t], 4 * (k - 1) + t)
  {
    OnCourtsAt(f.courts, k - 1, t);
    OpensAt(k, q, t);
  }

  lemma RowAt(players: seq<Seat>, c: nat, k: nat, t: nat)
    requires 1 <= k <= c && Gaps(players, k) <= |Pool(players, c)| && t < 4
    ensures Gaps(players, k) == Gaps(players, k - 1) + 4 - |FirstFour(players, k)|
    ensures var kept, filled := FirstFour(players, k), Gaps(players, k - 1);
            Row(players, c, k)[t] == if t < |kept| then kept[t] else Pool(players, c)[filled + t - |kept|]
  {
  }

  lemma KeeperAt(players: seq<Seat>, maxCourts: int, f: Floor, k: nat, t: nat)
    requires IsPlacedFloor(players, maxCourts, f) && 1 <= k <= |f.courts| && t < |FirstFour(players, k)|
    ensures At(f, FirstFour(players, k)[t], 4 * (k - 1) + t)
  {
    CourtAt(players, maxCourts, f, k, t);
  }

  lemma OpensAt(k: int, q: seq<Id>, t: nat)
    requires |q| == 4 && t < 4
    ensures Four(Opening(k, q))[t] == q[t]
  {
  }

  lemma BenchAt(players: seq<Seat>, maxCourts: int, f: Floor, u: nat)
    requires IsPlacedFloor(players, maxCourts, f) && |f.courts| > 0
    requires Gaps(players, |f.courts|) <= u < |Pool(players, |f.courts|)|
    ensures At(f, Pool(players, |f.courts|)[u], 4 * |f.courts| + u - Gaps(players, |f.courts|))
  {
  }

  /** Place `u` of the queue for the gaps is on court `k` of `n`, or on the bench when `k` is past the last. */
  ghost predicate InGap(players: seq<Seat>, n: nat, k: nat, u: nat, p: nat) {
    && 1 <= k <= n + 1 && Gaps(players, k - 1) <= u && (k <= n ==> u < Gaps(players, k))
    && p == 4 * (k - 1) + (if k <= n then |FirstFour(players, k)| else 0) + u - Gaps(players, k - 1)
  }

  /** Where the queue for the gaps ends up. */
  lemma PoolAt(players: seq<Seat>, maxCourts: int, f: Floor, u: nat) returns (k: nat, p: nat)
    requires IsPlacedFloor(players, maxCourts, f) && |f.courts| > 0 && u < |Pool(players, |f.courts|)|
    ensures InGap(players, |f.courts|, k, u, p) && At(f, Pool(players, |f.courts|)[u], p)
  {
    var c := |f.courts|;
    if u >= Gaps(players, c) {
      k := c + 1;
      p := 4 * c + u - Gaps(players, c);
      BenchAt(players, maxCourts, f, u);
    } else {
      k := GapOf(players, c, u);
      assert Gaps(players, k) == Gaps(players, k - 1) + 4 - |FirstFour(players, k)|;
      var t := |FirstFour(players, k)| + u - Gaps(players, k - 1);
      p := 4 * (k - 1) + t;
      CourtAt(players, maxCourts, f, k, t);
    }
  }

  lemma GapOrder(players: seq<Seat>, n: nat, k: nat, u: nat, p: nat, m: nat, v: nat, q: nat)
    requires InGap(players, n, k, u, p) && InGap(players, n, m, v, q) && u < v
    ensures p < q
  {
    if k > m {
      GapsGrow(players, m, k - 1);
    }
    assert k <= n ==> Gaps(players, k) == Gaps(players, k - 1) + 4 - |FirstFour(players, k)|;
  }

  lemma GapSeat(players: seq<Seat>, n: nat, k: nat, u: nat, p: nat)
    requires InGap(players, n, k, u, p) && p < 4 * n
    ensures p % 4 >= |FirstFour(players, p / 4 + 1)|
  {
    assert k <= n ==> Gaps(players, k) == Gaps(players, k - 1) + 4 - |FirstFour(players, k)|;
    assert k <= n && p / 4 == k - 1;
  }

  lemma {:induction false} GapOf(players: seq<Seat>, c: nat, u: nat) returns (k: nat)
    requires u < Gaps(players, c)
    ensures 1 <= k <= c && Gaps(players, k - 1) <= u < Gaps(players, k)
    decreases c
  {
    k := c;
    if u < Gaps(players, c - 1) {
      k := GapOf(players, c - 1, u);
    }
  }

  /** The earlier in the queue for the gaps, the earlier in the line. */
  lemma QueueIsLine(players: seq<Seat>, maxCourts: int, f: Floor, u: nat, v: nat) returns (p: nat, q: nat)
    requires IsPlacedFloor(players, maxCourts, f) && |f.courts| > 0 && u < v < |Pool(players, |f.courts|)|
    ensures p < q && At(f, Pool(players, |f.courts|)[u], p) && At(f, Pool(players, |f.courts|)[v], q)
  {
    var k, m;
    k, p := PoolAt(players, maxCourts, f, u);
    m, q := PoolAt(players, maxCourts, f, v);
    GapOrder(players, |f.courts|, k, u, p, m, v, q);
  }

  /** Gaps are filled in order: of two players who keep no court, whoever fills first is never on a lower
      court than the other, never behind them on the same court, and never waiting while they play. */
  lemma GapsFillInOrder(players: seq<Seat>, maxCourts: int, f: Floor, i: nat, j: nat, p: nat, q: nat)
    requires IsPlacedFloor(players, maxCourts, f) && Proper(Ids(players)) && |f.courts| > 0
    requires i < |players| && j < |players| && FillsFirst(players, |f.courts|, i, j)
    requires At(f, players[i].id, p) && At(f, players[j].id, q)
    ensures p < q
  {
    var u, v := PoolInOrder(players, |f.courts|, i, j);
    var p0, q0 := QueueIsLine(players, maxCourts, f, u, v);
    PlacedFloorIsSafe(players, maxCourts, f);
    OnePlace(f, p, p0);
    OnePlace(f, q, q0);
  }

  lemma {:induction false} WantingPrefix(players: seq<Seat>, i: nat, k: int)
    requires i <= |players|
    ensures |Wanting(players[..i], k)| <= |Wanting(players, k)|
    ensures Wanting(players, k)[..|Wanting(players[..i], k)|] == Wanting(players[..i], k)
    decreases |players|
  {
    if i < |players| {
      var n := |players| - 1;
      WantingPrefix(players[..n], i, k);
      assert players[..n][..i] == players[..i];
    } else {
      assert players[..i] == players;
    }
  }

  lemma WantingHas(players: seq<Seat>, i: nat)
    requires i < |players|
    ensures var k, t := players[i].court, |Wanting(players[..i], players[i].court)|;
            && t < |Wanting(players, k)| && Wanting(players, k)[t] == players[i].id
            && (t < 4 ==> t < |FirstFour(players, k)| && FirstFour(players, k)[t] == players[i].id)
  {
    var k, t := players[i].court, |Wanting(players[..i], players[i].court)|;
    assert players[..i + 1][..i] == players[..i];
    assert Wanting(players[..i + 1], k) == Wanting(players[..i], k) + [players[i].id];
    WantingPrefix(players, i + 1, k);
    assert Wanting(players, k)[t] == Wanting(players, k)[..t + 1][t];
  }

  /** Whoever keeps a court is on it, behind as many as were put there before. */
  lemma KeptAt(players: seq<Seat>, maxCourts: int, f: Floor, i: nat) returns (t: nat)
    requires IsPlacedFloor(players, maxCourts, f) && i < |players| && Keeps(players, |f.courts|, i)
    ensures t == |Wanting(players[..i], players[i].court)| < |FirstFour(players, players[i].court)|
    ensures At(f, players[i].id, 4 * (players[i].court - 1) + t)
  {
    KeepsIsHonoured(players, |f.courts|, i);
    t := |Wanting(players[..i], players[i].court)|;
    WantingHas(players, i);
    KeeperAt(players, maxCourts, f, players[i].court, t);
  }

  /** Of two who keep the same court, the earlier in the list has the earlier place. */
  lemma KeptInOrder(players: seq<Seat>, c: nat, i: nat, j: nat)
    requires i < j < |players| && players[i].court == players[j].court
    ensures |Wanting(players[..i], players[i].court)| < |Wanting(players[..j], players[j].court)|
  {
    assert players[..j][..i + 1] == players[..i + 1];
    assert players[..i + 1][..i] == players[..i];
    WantingPrefix(players[..j], i + 1, players[i].court);
  }

  lemma KeepersPlace(players: seq<Seat>, maxCourts: int, f: Floor, i: nat, p: nat)
    requires IsPlacedFloor(players, maxCourts, f) && f.OK() && i < |players| && Keeps(players, |f.courts|, i)
    requires At(f, players[i].id, p)
    ensures |Wanting(players[..i], players[i].court)| < |FirstFour(players, players[i].court)|
    ensures p == 4 * (players[i].court - 1) + |Wanting(players[..i], players[i].court)|
  {
    var t := KeptAt(players, maxCourts, f, i);
    OnePlace(f, p, 4 * (players[i].court - 1) + t);
  }

  /** On a court some were put on, they come first, in the order of the list, and whoever fills up comes behind. */
  lemma KeepersComeFirst(players: seq<Seat>, maxCourts: int, f: Floor, i: nat, j: nat, p: nat, q: nat)
    requires IsPlacedFloor(players, maxCourts, f) && Proper(Ids(players))
    requires i < |players| && j < |players| && Keeps(players, |f.courts|, i)
    requires Keeps(players, |f.courts|, j) ==> i < j
    requires At(f, players[i].id, p) && At(f, players[j].id, q) && q / 4 == players[i].court - 1
    ensures p / 4 == players[i].court - 1 && p < q
  {
    PlacedFloorIsSafe(players, maxCourts, f);
    KeepersPlace(players, maxCourts, f, i, p);
    if Keeps(players, |f.courts|, j) {
      KeepersPlace(players, maxCourts, f, j, q);
      KeptInOrder(players, |f.courts|, i, j);
    } else {
      FillerBehind(players, maxCourts, f, j, q);
    }
  }

  lemma FillerIndex(players: seq<Seat>, c: nat, j: nat) returns (v: nat)
    requires j < |players| && !Keeps(players, c, j)
    ensures v < |Pool(players, c)| && Pool(players, c)[v] == players[j].id
  {
    KeepsIsHonoured(players, c, j);
    if players[j].court < 1 {
      v := UnplacedHas(players, j);
    } else {
      v := EvictedHas(players, c, j);
      v := |Unplaced(players)| + v;
    }
  }

  /** A filler's place on a court is behind everybody who keeps it. */
  lemma FillerBehind(players: seq<Seat>, maxCourts: int, f: Floor, j: nat, q: nat)
    requires IsPlacedFloor(players, maxCourts, f) && f.OK() && |f.courts| > 0
    requires j < |players| && !Keeps(players, |f.courts|, j) && At(f, players[j].id, q)
    ensures q < 4 * |f.courts| ==> q % 4 >= |FirstFour(players, q / 4 + 1)|
  {
    var v := FillerIndex(players, |f.courts|, j);
    var m, q0 := PoolAt(players, maxCourts, f, v);
    OnePlace(f, q, q0);
    if q < 4 * |f.courts| {
      GapSeat(players, |f.courts|, m, v, q);
    }
  }

  /** When nobody is put anywhere, the floor is the one the rating order opens. */
  lemma NoPlacementsIsRating(players: seq<Seat>, maxCourts: int, f: Floor)
    requires IsPlacedFloor(players, maxCourts, f) && forall i | 0 <= i < |players| :: players[i].court < 1
    ensures
      var c := CourtsFor(|players|, maxCourts);
      f == Floor(RatedCourts(Ids(players), c), Ids(players)[4 * c..])
  {
    var c, ids := CourtsFor(|players|, maxCourts), Ids(players);
    if c == 0 {
      assert RatedCourts(ids, 0) == [] && ids[0..] == ids;
    } else {
      NobodyPlaced(players, c);
      UnplacedCourts(players, c, f.courts);
    }
  }

  lemma UnplacedCourts(players: seq<Seat>, c: nat, courts: seq<RotCourt>)
    requires (forall i | 0 <= i < |players| :: players[i].court < 1) && |courts| == c && 4 * c <= |players|
    requires forall k | 1 <= k <= c :: PlacedCourt(players, c, courts, k)
    ensures courts == RatedCourts(Ids(players), c)
  {
    forall j: nat | j < c ensures courts[j] == RatedCourts(Ids(players), c)[j] {
      assert PlacedCourt(players, c, courts, j + 1);
      UnplacedRow(players, c, j);
    }
  }

  lemma UnplacedRow(players: seq<Seat>, c: nat, j: nat)
    requires (forall i | 0 <= i < |players| :: players[i].court < 1) && j < c && 4 * c <= |players|
    ensures Gaps(players, j + 1) <= |Pool(players, c)|
    ensures Row(players, c, j + 1) == Ids(players)[4 * j..4 * j + 4]
  {
    NobodyPlaced(players, c);
    NobodyPlaced(players, j + 1);
    NobodyPlaced(players, j);
    RowOfFillers(players, c, j + 1, Ids(players), 4 * j, 4 * j + 4);
  }

  lemma RowOfFillers(players: seq<Seat>, c: nat, k: nat, ids: seq<Id>, from: nat, to: nat)
    requires 1 <= k <= c && FirstFour(players, k) == [] && Pool(players, c) == ids
    requires Gaps(players, k - 1) == from && Gaps(players, k) == to <= |ids|
    ensures Row(players, c, k) == ids[from..to]
  {
  }

  /** With too few for a court everybody waits, in the order of the list. */
  lemma TooFewToPlay(players: seq<Seat>, maxCourts: int, f: Floor, i: nat)
    requires IsPlacedFloor(players, maxCourts, f) && |players| < 4 && i < |players|
    ensures f.courts == [] && |f.bench| == |players| && f.bench[i] == players[i].id
  {
  }

  lemma {:induction false} NobodyPlaced(players: seq<Seat>, c: nat)
    requires forall i | 0 <= i < |players| :: players[i].court < 1
    ensures Pool(players, c) == Ids(players) && Gaps(players, c) == 4 * c
    ensures c > 0 ==> FirstFour(players, c) == []
    decreases c, |players|
  {
    NobodyWanting(players, c);
    if c > 0 {
      NobodyPlaced(players, c - 1);
    }
    EverybodyUnplaced(players, c);
  }

  lemma {:induction false} NobodyWanting(players: seq<Seat>, k: nat)
    requires k > 0 ==> forall i | 0 <= i < |players| :: players[i].court < 1
    ensures k > 0 ==> Wanting(players, k) == []
    decreases |players|
  {
    if players != [] {
      NobodyWanting(players[..|players| - 1], k);
    }
  }

  lemma {:induction false} EverybodyUnplaced(players: seq<Seat>, c: nat)
    requires forall i | 0 <= i < |players| :: players[i].court < 1
    ensures Unplaced(players) == Ids(players) && Evicted(players, c) == []
    decreases |players|
  {
    if players != [] {
      var n := |players| - 1;
      EverybodyUnplaced(players[..n], c);
      assert Ids(players) == Ids(players[..n]) + [players[n].id];
    }
  }
}
