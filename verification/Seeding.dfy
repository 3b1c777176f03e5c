/** rotation.go: opening courts from a rating order, and from explicit court placements. */
module Seeding {
  import opened Layout
  import opened Rotation

  /** As many full courts as there are players for, up to the cap; no cap when it is not positive. */
  function CourtsFor(n: nat, maxCourts: int): (c: nat)
    ensures 4 * c <= n
    ensures maxCourts > 0 ==> c <= maxCourts
    ensures 4 * (c + 1) > n || 0 < c == maxCourts
  {
    if 0 < maxCourts < n / 4 then maxCourts else n / 4
  }

  /** Four players, strongest first, open with first and third against second and fourth. */
  function Opening(k: int, q: seq<Id>): RotCourt
    requires |q| == 4
  {
    RotCourt(k, Pair(q[0], q[2]), Pair(q[1], q[3]))
  }

  lemma OpeningTally(k: int, q: seq<Id>, x: Id)
    requires |q| == 4
    ensures Tally(Opening(k, q).Seats(), x) == Tally(q, x)
  {
    assert q == [q[0], q[1], q[2], q[3]];
    assert multiset(Opening(k, q).Seats()) == multiset(q);
    TallyIsCount(q, x);
    TallyIsCount(Opening(k, q).Seats(), x);
  }

  lemma PushOpening(courts: seq<RotCourt>, k: int, q: seq<Id>, x: Id)
    requires |q| == 4
    ensures Tally(Seated(courts + [Opening(k, q)]), x) == Tally(Seated(courts), x) + Tally(q, x)
  {
    SeatedPush(courts, Opening(k, q));
    OpeningTally(k, q, x);
    TallyAppend(Seated(courts), Opening(k, q).Seats(), x);
  }

  /** A floor numbered 1..n that holds exactly some different, named people is safe. */
  lemma HoldsThem(f: Floor, ids: seq<Id>)
    requires Contiguous(f.courts) && Proper(ids)
    requires forall x :: Tally(Seated(f.courts) + f.bench, x) == Tally(ids, x)
    ensures f.OK() && f.Everyone() == multiset(ids)
  {
    SameTally(Seated(f.courts) + f.bench, ids);
    OKIsBag(f);
    ProperIsBag(ids);
  }

  // ---- By rating.

  function RatedCourts(players: seq<Id>, c: nat): (courts: seq<RotCourt>)
    requires 4 * c <= |players|
    ensures |courts| == c
  {
    seq(c, k requires 0 <= k < c => Opening(k + 1, players[4 * k..4 * k + 4]))
  }

  method SeedCourts(players: seq<Id>, maxCourts: int) returns (courts: seq<RotCourt>, bench: seq<Id>)
    ensures
      var c := CourtsFor(|players|, maxCourts);
      courts == RatedCourts(players, c) && bench == players[4 * c..]
  {
    var full := |players| / 4;
    var c := full;
    if maxCourts > 0 && maxCourts < c {
      c := maxCourts;
    }
    var seats := c * 4;
    courts := [];
    for k := 0 to c
      invariant |courts| == k
      invariant forall j | 0 <= j < k :: courts[j] == RatedCourts(players, c)[j]
    {
      var i := k * 4;
      courts := courts + [RotCourt(k + 1, Pair(players[i], players[i + 2]), Pair(players[i + 1], players[i + 3]))];
    }
    bench := players[seats..];
  }

  lemma RatedPush(players: seq<Id>, c: nat, x: Id)
    requires 0 < 4 * c <= |players|
    ensures Tally(Seated(RatedCourts(players, c)), x)
      == Tally(Seated(RatedCourts(players, c - 1)), x) + Tally(players[4 * (c - 1)..4 * (c - 1) + 4], x)
  {
    var four := players[4 * (c - 1)..4 * (c - 1) + 4];
    PushOpening(RatedCourts(players, c - 1), c, four, x);
    assert RatedCourts(players, c) == RatedCourts(players, c - 1) + [Opening(c, four)];
  }

  lemma {:induction false} RatedTally(players: seq<Id>, c: nat, x: Id)
    requires 4 * c <= |players|
    ensures Tally(Seated(RatedCourts(players, c)), x) == Tally(players[..4 * c], x)
    decreases c
  {
    if c > 0 {
      RatedTally(players, c - 1, x);
      RatedPush(players, c, x);
      var head, four := players[..4 * (c - 1)], players[4 * (c - 1)..4 * (c - 1) + 4];
      assert players[..4 * c] == head + four;
      TallyAppend(head, four, x);
    } else {
      assert RatedCourts(players, 0) == [] && players[..0] == [];
    }
  }

  lemma RatedEveryone(players: seq<Id>, c: nat, x: Id)
    requires 4 * c <= |players|
    ensures Tally(Seated(RatedCourts(players, c)) + players[4 * c..], x) == Tally(players, x)
  {
    var head, tail := players[..4 * c], players[4 * c..];
    RatedTally(players, c, x);
    TallyAppend(Seated(RatedCourts(players, c)), tail, x);
    TallyAppend(head, tail, x);
    assert players == head + tail;
  }

  /** Different, named players always open a safe floor holding all of them. */
  lemma RatedFloorIsSafe(players: seq<Id>, maxCourts: int)
    requires Proper(players)
    ensures
      var c := CourtsFor(|players|, maxCourts);
      var f := Floor(RatedCourts(players, c), players[4 * c..]);
      f.OK() && f.Everyone() == multiset(players)
  {
    var c := CourtsFor(|players|, maxCourts);
    var f := Floor(RatedCourts(players, c), players[4 * c..]);
    forall x: Id
      ensures Tally(Seated(f.courts) + f.bench, x) == Tally(players, x)
    {
      RatedEveryone(players, c, x);
    }
    HoldsThem(f, players);
  }

  // ---- By placement.

  /** A player and the court they were put on; 0 or less is unplaced. */
  datatype Seat = Seat(id: Id, court: int)

  function Ids(players: seq<Seat>): (ids: seq<Id>)
    ensures |ids| == |players|
  {
    seq(|players|, i requires 0 <= i < |players| => players[i].id)
  }

  /** Everybody put on court `k`, strongest first. */
  function Wanting(players: seq<Seat>, k: int): (ids: seq<Id>) {
    if players == [] then []
    else
      var n := |players| - 1;
      Wanting(players[..n], k) + if players[n].court == k then [players[n].id] else []
  }

  /** Who keeps a seat on court `k`: the first four put there. */
  function FirstFour(players: seq<Seat>, k: int): (ids: seq<Id>)
    ensures |ids| <= 4
  {
    var all := Wanting(players, k);
    if |all| <= 4 then all else all[..4]
  }

  function Unplaced(players: seq<Seat>): seq<Id> {
    if players == [] then []
    else
      var n := |players| - 1;
      Unplaced(players[..n]) + if players[n].court < 1 then [players[n].id] else []
  }

  /** Does the last of these players keep the court they were put on? */
  predicate Honoured(before: seq<Seat>, p: Seat, c: nat) {
    1 <= p.court <= c && |Wanting(before, p.court)| < 4
  }

  /** Put on a court that is not running, or on one that was full. */
  function Evicted(players: seq<Seat>, c: nat): seq<Id> {
    if players == [] then []
    else
      var n := |players| - 1;
      Evicted(players[..n], c)
      + if players[n].court >= 1 && !Honoured(players[..n], players[n], c) then [players[n].id] else []
  }

  /** Who fills the gaps: the unplaced, and behind them the evicted. */
  function Pool(players: seq<Seat>, c: nat): seq<Id> {
    Unplaced(players) + Evicted(players, c)
  }

  /** Seats left open on courts 1 to `k`. */
  function Gaps(players: seq<Seat>, k: nat): nat {
    if k == 0 then 0 else Gaps(players, k - 1) + 4 - |FirstFour(players, k)|
  }

  lemma {:induction false} GapsGrow(players: seq<Seat>, j: nat, k: nat)
    requires j <= k
    ensures Gaps(players, j) <= Gaps(players, k)
    decreases k
  {
    if j < k {
      GapsGrow(players, j, k - 1);
    }
  }

  /** How often somebody keeps a seat on courts 1 to `c`. */
  ghost function KeptTally(players: seq<Seat>, c: nat, x: Id): nat {
    if c == 0 then 0 else KeptTally(players, c - 1, x) + Tally(FirstFour(players, c), x)
  }

  lemma FirstFourPush(before: seq<Seat>, p: Seat, k: int)
    ensures FirstFour(before + [p], k)
      == FirstFour(before, k) + if p.court == k && |Wanting(before, k)| < 4 then [p.id] else []
  {
    assert (before + [p])[..|before|] == before;
    var was, now := Wanting(before, k), Wanting(before + [p], k);
    if p.court == k {
      assert now == was + [p.id];
    } else {
      assert now == was;
    }
  }

  function Once(p: Seat, x: Id): nat {
    if p.id == x then 1 else 0
  }

  lemma TallyPush(ids: seq<Id>, p: Seat, x: Id)
    ensures Tally(ids + [p.id], x) == Tally(ids, x) + Once(p, x)
  {
    assert (ids + [p.id])[..|ids|] == ids;
  }

  /** Does one more player fit on court `k`? */
  predicate Fits(before: seq<Seat>, p: Seat, k: nat) {
    p.court == k && |Wanting(before, k)| < 4
  }

  lemma FirstFourTally(before: seq<Seat>, p: Seat, now: seq<Seat>, k: nat, x: Id)
    requires now == before + [p]
    ensures
      && Tally(FirstFour(now, k), x) == Tally(FirstFour(before, k), x) + (if Fits(before, p, k) then Once(p, x) else 0)
      && |FirstFour(now, k)| == |FirstFour(before, k)| + (if Fits(before, p, k) then 1 else 0)
  {
    FirstFourPush(before, p, k);
    if p.court == k && |Wanting(before, k)| < 4 {
      TallyPush(FirstFour(before, k), p, x);
    } else {
      assert FirstFour(now, k) == FirstFour(before, k);
    }
  }

  lemma HonouredSomewhere(before: seq<Seat>, p: Seat, c: nat)
    requires c > 0
    ensures Honoured(before, p, c) == (Honoured(before, p, c - 1) || Fits(before, p, c))
    ensures !(Honoured(before, p, c - 1) && Fits(before, p, c))
  {
  }

  /** One more player takes one gap, if they can be honoured. */
  lemma {:induction false} GapsPush(before: seq<Seat>, p: Seat, now: seq<Seat>, c: nat)
    requires now == before + [p]
    ensures Gaps(now, c) == Gaps(before, c) - if Honoured(before, p, c) then 1 else 0
    decreases c
  {
    if c > 0 {
      GapsPush(before, p, now, c - 1);
      HonouredSomewhere(before, p, c);
      FirstFourTally(before, p, now, c, p.id);
      assert Gaps(before, c) == Gaps(before, c - 1) + 4 - |FirstFour(before, c)|;
      assert Gaps(now, c) == Gaps(now, c - 1) + 4 - |FirstFour(now, c)|;
    }
  }

  lemma KeptStep(before: seq<Seat>, p: Seat, now: seq<Seat>, c: nat, x: Id)
    requires now == before + [p] && c > 0
    ensures KeptTally(now, c, x) - KeptTally(now, c - 1, x)
      == KeptTally(before, c, x) - KeptTally(before, c - 1, x) + if Fits(before, p, c) then Once(p, x) else 0
  {
    FirstFourTally(before, p, now, c, x);
  }

  lemma {:induction false} KeptPush(before: seq<Seat>, p: Seat, now: seq<Seat>, c: nat, x: Id)
    requires now == before + [p]
    ensures KeptTally(now, c, x) == KeptTally(before, c, x) + if Honoured(before, p, c) then Once(p, x) else 0
    decreases c
  {
    if c > 0 {
      KeptPush(before, p, now, c - 1, x);
      HonouredSomewhere(before, p, c);
      KeptStep(before, p, now, c, x);
    }
  }

  /** Whoever cannot be honoured joins the pool. */
  lemma PoolPush(before: seq<Seat>, p: Seat, c: nat, x: Id)
    ensures Tally(Pool(before + [p], c), x) == Tally(Pool(before, c), x) + if Honoured(before, p, c) then 0 else Once(p, x)
    ensures |Pool(before + [p], c)| == |Pool(before, c)| + if Honoured(before, p, c) then 0 else 1
  {
    var now := before + [p];
    assert now[..|before|] == before;
    TallyAppend(Unplaced(now), Evicted(now, c), x);
    TallyAppend(Unplaced(before), Evicted(before, c), x);
    if p.court < 1 {
      TallyPush(Unplaced(before), p, x);
      assert Evicted(now, c) == Evicted(before, c);
    } else if Honoured(before, p, c) {
      assert Unplaced(now) == Unplaced(before) && Evicted(now, c) == Evicted(before, c);
    } else {
      assert Unplaced(now) == Unplaced(before);
      TallyPush(Evicted(before, c), p, x);
    }
  }

  lemma {:induction false} NobodyKept(c: nat, x: Id)
    ensures KeptTally([], c, x) == 0 && Gaps([], c) == 4 * c
    decreases c
  {
    if c > 0 {
      NobodyKept(c - 1, x);
    }
  }

  /** Kept, unplaced and evicted: everybody, once each. */
  lemma {:induction false} EverybodySomewhere(players: seq<Seat>, c: nat, x: Id)
    ensures KeptTally(players, c, x) + Tally(Pool(players, c), x) == Tally(Ids(players), x)
    decreases |players|
  {
    if players == [] {
      NobodySomewhere(c, x);
    } else {
      var n := |players| - 1;
      EverybodySomewhere(players[..n], c, x);
      OneMoreSomewhere(players[..n], players[n], players, c, x);
    }
  }

  lemma NobodySomewhere(c: nat, x: Id)
    ensures KeptTally([], c, x) + Tally(Pool([], c), x) == Tally(Ids([]), x)
  {
    NobodyKept(c, x);
    assert Ids([]) == [] && Pool([], c) == [];
  }

  lemma OneMoreSomewhere(before: seq<Seat>, p: Seat, now: seq<Seat>, c: nat, x: Id)
    requires now == before + [p]
    requires KeptTally(before, c, x) + Tally(Pool(before, c), x) == Tally(Ids(before), x)
    ensures KeptTally(now, c, x) + Tally(Pool(now, c), x) == Tally(Ids(now), x)
  {
    KeptPush(before, p, now, c, x);
    PoolPush(before, p, c, x);
    assert Ids(now) == Ids(before) + [p.id];
    TallyPush(Ids(before), p, x);
  }

  lemma {:induction false} PoolSize(players: seq<Seat>, c: nat)
    ensures 4 * c - Gaps(players, c) + |Pool(players, c)| == |players|
    decreases |players|
  {
    if players == [] {
      NobodyKept(c, "");
    } else {
      var n := |players| - 1;
      var before, p := players[..n], players[n];
      PoolSize(before, c);
      assert players == before + [p];
      GapsPush(before, p, players, c);
      PoolPush(before, p, c, "");
    }
  }

  /** There are always enough people to fill the gaps. */
  lemma PoolIsEnough(players: seq<Seat>, c: nat)
    requires 4 * c <= |players|
    ensures Gaps(players, c) <= |Pool(players, c)|
  {
    PoolSize(players, c);
  }

  /** Court `k`: whoever keeps it, then the next in the pool. */
  function Row(players: seq<Seat>, c: nat, k: nat): (row: seq<Id>)
    requires 1 <= k <= c && Gaps(players, k) <= |Pool(players, c)|
    ensures |row| == 4
  {
    FirstFour(players, k) + Pool(players, c)[Gaps(players, k - 1)..Gaps(players, k)]
  }

  ghost predicate IsPlacedFloor(players: seq<Seat>, maxCourts: int, f: Floor) {
    var c := CourtsFor(|players|, maxCourts);
    if c == 0 then f == Floor([], Ids(players))
    else
      && Gaps(players, c) <= |Pool(players, c)|
      && |f.courts| == c
      && (forall k | 1 <= k <= c :: PlacedCourt(players, c, f.courts, k))
      && f.bench == Pool(players, c)[Gaps(players, c)..]
  }

  ghost predicate PlacedCourt(players: seq<Seat>, c: nat, courts: seq<RotCourt>, k: nat)
    requires 1 <= k <= c && k <= |courts|
  {
    Gaps(players, k) <= |Pool(players, c)| && courts[k - 1] == Opening(k, Row(players, c, k))
  }

  /** One more player placed, evicted or left unplaced. */
  lemma PlaceOne(players: seq<Seat>, i: nat, c: nat)
    requires i < |players|
    ensures
      var before, p := players[..i], players[i];
      && (forall k | 1 <= k <= c ::
            FirstFour(players[..i + 1], k) == FirstFour(before, k) + if Fits(before, p, k) then [p.id] else [])
      && Unplaced(players[..i + 1]) == Unplaced(before) + (if p.court < 1 then [p.id] else [])
      && Evicted(players[..i + 1], c)
         == Evicted(before, c) + (if p.court >= 1 && !Honoured(before, p, c) then [p.id] else [])
  {
    var before, p := players[..i], players[i];
    assert players[..i + 1] == before + [p];
    assert (before + [p])[..i] == before;
    forall k | 1 <= k <= c
      ensures FirstFour(before + [p], k) == FirstFour(before, k) + if Fits(before, p, k) then [p.id] else []
    {
      FirstFourPush(before, p, k);
    }
  }

  /** Seat whoever can be honoured; everybody else goes to the pool, the evicted last. */
  method PlacePlayers(players: seq<Seat>, c: nat) returns (seats: array<seq<Id>>, pool: seq<Id>)
    ensures fresh(seats) && seats.Length == c + 1
    ensures forall k | 1 <= k <= c :: seats[k] == FirstFour(players, k)
    ensures pool == Pool(players, c)
  {
    seats := new seq<Id>[c + 1](_ => []);
    var unplaced: seq<Id>, overflow: seq<Id> := [], [];
    for i := 0 to |players|
      invariant forall k | 1 <= k <= c :: seats[k] == FirstFour(players[..i], k)
      invariant unplaced == Unplaced(players[..i]) && overflow == Evicted(players[..i], c)
    {
      var p := players[i];
      PlaceOne(players, i, c);
      if 1 <= p.court <= c && |seats[p.court]| < 4 {
        seats[p.court] := seats[p.court] + [p.id];
      } else if p.court >= 1 {
        overflow := overflow + [p.id];
      } else {
        unplaced := unplaced + [p.id];
      }
    }
    assert players[..|players|] == players;
    pool := unplaced + overflow;
  }

  /** Top up one court from the pool. */
  method TopUp(players: seq<Seat>, c: nat, seats: array<seq<Id>>, pool: seq<Id>, start: nat, k: nat) returns (next: nat)
    requires 1 <= k <= c < seats.Length && pool == Pool(players, c)
    requires start == Gaps(players, k - 1) && Gaps(players, k) <= |pool|
    requires seats[k] == FirstFour(players, k)
    modifies seats
    ensures next == Gaps(players, k) && seats[..] == old(seats[..])[k := Row(players, c, k)]
  {
    next := start;
    while |seats[k]| < 4 && next < |pool|
      invariant start <= next <= Gaps(players, k)
      invariant |seats[k]| == 4 - (Gaps(players, k) - next)
      invariant seats[k] == FirstFour(players, k) + pool[start..next]
      invariant forall j | 0 <= j < seats.Length && j != k :: seats[j] == old(seats[j])
      decreases |pool| - next
    {
      seats[k] := seats[k] + [pool[next]];
      next := next + 1;
    }
  }

  ghost predicate Filled(players: seq<Seat>, c: nat, seats: seq<seq<Id>>, k: nat)
    requires 1 <= k <= c < |seats|
  {
    Gaps(players, k) <= |Pool(players, c)| && seats[k] == Row(players, c, k)
  }

  /** Fill the gaps, top court first. */
  method FillGaps(players: seq<Seat>, c: nat, seats: array<seq<Id>>, pool: seq<Id>) returns (next: nat)
    requires 4 * c <= |players| && seats.Length == c + 1 && pool == Pool(players, c)
    requires forall k | 1 <= k <= c :: seats[k] == FirstFour(players, k)
    modifies seats
    ensures next == Gaps(players, c) <= |pool|
    ensures forall k | 1 <= k <= c :: Filled(players, c, seats[..], k)
  {
    PoolIsEnough(players, c);
    next := 0;
    for k := 1 to c + 1
      invariant next == Gaps(players, k - 1) <= |pool|
      invariant forall j | 1 <= j < k :: Filled(players, c, seats[..], j)
      invariant forall j | k <= j <= c :: seats[j] == FirstFour(players, j)
    {
      GapsGrow(players, k, c);
      ghost var was := seats[..];
      next := TopUp(players, c, seats, pool, next, k);
      forall j | 1 <= j <= k
        ensures Filled(players, c, seats[..], j)
      {
        assert j < k ==> Filled(players, c, was, j);
      }
    }
  }

  method SeedPlacedCourts(players: seq<Seat>, maxCourts: int) returns (courts: seq<RotCourt>, bench: seq<Id>)
    ensures IsPlacedFloor(players, maxCourts, Floor(courts, bench))
  {
    var c := |players| / 4;
    if maxCourts > 0 && maxCourts < c {
      c := maxCourts;
    }
    courts := [];
    if c == 0 {
      bench := [];
      for i := 0 to |players|
        invariant |bench| == i && forall j | 0 <= j < i :: bench[j] == players[j].id
      {
        bench := bench + [players[i].id];
      }
      return;
    }
    var seats, pool := PlacePlayers(players, c);
    var next := FillGaps(players, c, seats, pool);
    courts := OpenCourts(players, c, seats[..]);
    bench := pool[next..];
  }

  method OpenCourts(players: seq<Seat>, c: nat, seats: seq<seq<Id>>) returns (courts: seq<RotCourt>)
    requires |seats| == c + 1 && forall k | 1 <= k <= c :: Filled(players, c, seats, k)
    ensures |courts| == c && forall k | 1 <= k <= c :: PlacedCourt(players, c, courts, k)
  {
    courts := [];
    for k := 1 to c + 1
      invariant |courts| == k - 1
      invariant forall j | 1 <= j < k :: PlacedCourt(players, c, courts, j)
    {
      assert Filled(players, c, seats, k);
      var q := seats[k];
      ghost var were := courts;
      courts := courts + [RotCourt(k, Pair(q[0], q[2]), Pair(q[1], q[3]))];
      forall j | 1 <= j <= k
        ensures PlacedCourt(players, c, courts, j)
      {
        assert j < k ==> PlacedCourt(players, c, were, j);
      }
    }
  }

  // ---- What placement promises.

  lemma PlacedPush(players: seq<Seat>, c: nat, f: Floor, k: nat, x: Id)
    requires 1 <= k <= c <= |f.courts| && PlacedCourt(players, c, f.courts, k)
    ensures Tally(Seated(f.courts[..k]), x) == Tally(Seated(f.courts[..k - 1]), x) + Tally(Row(players, c, k), x)
  {
    PushOpening(f.courts[..k - 1], k, Row(players, c, k), x);
    assert f.courts[..k] == f.courts[..k - 1] + [f.courts[k - 1]];
  }

  lemma RowTally(players: seq<Seat>, c: nat, k: nat, x: Id)
    requires 1 <= k <= c && Gaps(players, k) <= |Pool(players, c)|
    ensures Tally(Row(players, c, k), x) + Tally(Pool(players, c)[..Gaps(players, k - 1)], x)
      == Tally(FirstFour(players, k), x) + Tally(Pool(players, c)[..Gaps(players, k)], x)
  {
    var pool, from, to := Pool(players, c), Gaps(players, k - 1), Gaps(players, k);
    TallyAppend(FirstFour(players, k), pool[from..to], x);
    SliceTally(pool, from, to, x);
  }

  lemma SliceTally(pool: seq<Id>, from: nat, to: nat, x: Id)
    requires from <= to <= |pool|
    ensures Tally(pool[..to], x) == Tally(pool[..from], x) + Tally(pool[from..to], x)
  {
    TallyAppend(pool[..from], pool[from..to], x);
    assert pool[..to] == pool[..from] + pool[from..to];
  }

  lemma {:induction false} PlacedTally(players: seq<Seat>, c: nat, f: Floor, k: nat, x: Id)
    requires k <= c <= |f.courts| && Gaps(players, k) <= |Pool(players, c)|
    requires forall j | 1 <= j <= c :: PlacedCourt(players, c, f.courts, j)
    ensures Tally(Seated(f.courts[..k]), x) == KeptTally(players, k, x) + Tally(Pool(players, c)[..Gaps(players, k)], x)
    decreases k
  {
    if k > 0 {
      PlacedTally(players, c, f, k - 1, x);
      PlacedPush(players, c, f, k, x);
      RowTally(players, c, k, x);
    } else {
      assert f.courts[..0] == [] && Pool(players, c)[..0] == [];
    }
  }

  lemma PlacedEveryone(players: seq<Seat>, c: nat, f: Floor, x: Id)
    requires c == |f.courts| && Gaps(players, c) <= |Pool(players, c)|
    requires forall j | 1 <= j <= c :: PlacedCourt(players, c, f.courts, j)
    requires f.bench == Pool(players, c)[Gaps(players, c)..]
    ensures Tally(Seated(f.courts) + f.bench, x) == Tally(Ids(players), x)
  {
    PlacedTally(players, c, f, c, x);
    assert f.courts[..c] == f.courts;
    EverybodySomewhere(players, c, x);
    SplitTally(Pool(players, c), Gaps(players, c), x);
    TallyAppend(Seated(f.courts), f.bench, x);
  }

  lemma SplitTally(ids: seq<Id>, n: nat, x: Id)
    requires n <= |ids|
    ensures Tally(ids, x) == Tally(ids[..n], x) + Tally(ids[n..], x)
  {
    TallyAppend(ids[..n], ids[n..], x);
    assert ids == ids[..n] + ids[n..];
  }

  /** Nobody vanishes and nobody is seated twice, however the organizer placed them. */
  lemma PlacedFloorIsSafe(players: seq<Seat>, maxCourts: int, f: Floor)
    requires IsPlacedFloor(players, maxCourts, f) && Proper(Ids(players))
    ensures f.OK() && f.Everyone() == multiset(Ids(players))
    ensures |f.courts| == CourtsFor(|players|, maxCourts)
  {
    var c := CourtsFor(|players|, maxCourts);
    if c == 0 {
      assert Seated(f.courts) + f.bench == Ids(players);
    } else {
      forall x: Id
        ensures Tally(Seated(f.courts) + f.bench, x) == Tally(Ids(players), x)
      {
        PlacedEveryone(players, c, f, x);
      }
      forall i | 0 <= i < c
        ensures f.courts[i].court == i + 1
      {
        assert PlacedCourt(players, c, f.courts, i + 1);
      }
    }
    HoldsThem(f, Ids(players));
  }

  lemma {:induction false} KeepsTheirPlace(players: seq<Seat>, i: nat)
    requires i < |players| && |Wanting(players[..i], players[i].court)| < 4
    ensures players[i].id in FirstFour(players, players[i].court)
    decreases |players|
  {
    var n := |players| - 1;
    assert players == players[..n] + [players[n]];
    FirstFourPush(players[..n], players[n], players[i].court);
    if i < n {
      assert players[..n][..i] == players[..i];
      KeepsTheirPlace(players[..n], i);
    }
  }

  lemma InTheRow(players: seq<Seat>, c: nat, k: nat, id: Id)
    requires 1 <= k <= c && Gaps(players, k) <= |Pool(players, c)| && id in FirstFour(players, k)
    ensures id in Row(players, c, k)
  {
  }

  lemma OpeningSeats(k: int, q: seq<Id>, id: Id)
    requires |q| == 4 && id in q
    ensures id in Opening(k, q).Seats()
  {
    var i :| 0 <= i < 4 && q[i] == id;
    var seats := Opening(k, q).Seats();
    assert seats[0] == q[0] && seats[1] == q[2] && seats[2] == q[1] && seats[3] == q[3];
  }

  /** A court number is a destination: whoever is among the first four put on a running court opens on that court. */
  lemma PlacementsAreHonoured(players: seq<Seat>, maxCourts: int, f: Floor, i: nat)
    requires IsPlacedFloor(players, maxCourts, f) && i < |players|
    requires Honoured(players[..i], players[i], CourtsFor(|players|, maxCourts))
    ensures 1 <= players[i].court <= |f.courts|
    ensures players[i].id in f.courts[players[i].court - 1].Seats()
  {
    var c, k := CourtsFor(|players|, maxCourts), players[i].court;
    KeepsTheirPlace(players, i);
    assert PlacedCourt(players, c, f.courts, k);
    InTheRow(players, c, k, players[i].id);
    OpeningSeats(k, Row(players, c, k), players[i].id);
  }
}
