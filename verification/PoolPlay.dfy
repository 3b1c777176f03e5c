/** schedule.go: the whole pool-play generator, and what its schedules promise. */
module PoolPlay {
  import opened Circle
  import opened Schedule
  import opened Mixer
  import opened MixerPlay

  datatype PlayFormat = Singles | Doubles
  datatype PartnerMode = Fixed | Rotating
  datatype Pairs = Unset | Pairs(pairs: seq<Side>)

  const BYE := ""

  // ---- Singles and fixed pairs as units of the circle.

  function SingleSides(players: seq<string>): map<string, Side> {
    map x | x in players :: [x]
  }

  function Units(n: nat): (units: seq<int>)
    ensures |units| == n && forall i | 0 <= i < n :: units[i] == i
  {
    seq(n, i => i)
  }

  function PairSides(pairs: seq<Side>): map<int, Side> {
    map i | 0 <= i < |pairs| :: pairs[i]
  }

  method SinglesRoundRobin(players: seq<string>) returns (raw: seq<RawRound>)
    ensures AllSides(CircleRounds(players, BYE), SingleSides(players), raw)
  {
    var rr: seq<seq<Pairing<string>>> := RoundRobin(players, BYE);
    forall r | 0 <= r < |rr|
      ensures forall i | 0 <= i < |rr[r]| :: rr[r][i].a in SingleSides(players) && rr[r][i].b in SingleSides(players)
    {
      OnlyPlayers(players, BYE, r);
    }
    raw := NameSides(rr, SingleSides(players));
  }

  method DoublesFixed(pairs: seq<Side>) returns (raw: seq<RawRound>)
    ensures AllSides(CircleRounds(Units(|pairs|), -1), PairSides(pairs), raw)
  {
    var units := Units(|pairs|);
    var rr: seq<seq<Pairing<int>>> := RoundRobin(units, -1);
    forall r | 0 <= r < |rr|
      ensures forall i | 0 <= i < |rr[r]| :: rr[r][i].a in PairSides(pairs) && rr[r][i].b in PairSides(pairs)
    {
      OnlyPlayers(units, -1, r);
    }
    raw := NameSides(rr, PairSides(pairs));
  }

  /** Neighbours in the list become partners; an odd one out is left over. */
  method AutoPair(players: seq<string>) returns (pairs: seq<Side>)
    ensures |pairs| == |players| / 2
    ensures forall k | 0 <= k < |pairs| :: pairs[k] == [players[2 * k], players[2 * k + 1]]
  {
    pairs := [];
    var i := 0;
    while i + 1 < |players|
      invariant i == 2 * |pairs| <= |players|
      invariant forall k | 0 <= k < |pairs| :: pairs[k] == [players[2 * k], players[2 * k + 1]]
    {
      pairs := pairs + [[players[i], players[i + 1]]];
      i := i + 2;
    }
  }

  // ---- The generator.

  /** A round-robin over units, cut or cycled to the organizer's window. */
  ghost predicate IsRoundRobin<T>(units: seq<T>, bye: T, side: map<T, Side>, minRounds: int, maxRounds: int,
                                       rounds: seq<RawRound>)
  {
    exists raw :: AllSides(CircleRounds(units, bye), side, raw)
      && rounds == Fitted(raw, BoundedTarget(|raw|, minRounds, maxRounds))
  }

  ghost predicate IsSingles(players: seq<string>, minRounds: int, maxRounds: int, rounds: seq<RawRound>) {
    IsRoundRobin(players, BYE, SingleSides(players), minRounds, maxRounds, rounds)
  }

  ghost predicate IsFixed(pairs: seq<Side>, minRounds: int, maxRounds: int, rounds: seq<RawRound>) {
    IsRoundRobin(Units(|pairs|), -1, PairSides(pairs), minRounds, maxRounds, rounds)
  }

  /** The pairs given, or neighbours in the list when none were. */
  ghost predicate PairsUsed(players: seq<string>, given: Pairs, used: seq<Side>) {
    match given
    case Pairs(pairs) => used == pairs
    case Unset =>
      && |used| == |players| / 2
      && forall k | 0 <= k < |used| :: used[k] == [players[2 * k], players[2 * k + 1]]
  }

  method GenerateSchedule(playerIDs: seq<string>, format: PlayFormat, partner: PartnerMode, numCourts0: int,
                          fixedPairs: Pairs, rounds: int, minRounds: int, maxRounds: int)
    returns (out: seq<RoundSpec>, pairs: seq<Side>)
    ensures AllPlaced(RawRounds(out), if numCourts0 < 1 then 1 else numCourts0, out)
    ensures format.Singles? ==> IsSingles(playerIDs, minRounds, maxRounds, RawRounds(out))
    ensures format.Doubles? && partner.Fixed? ==>
      PairsUsed(playerIDs, fixedPairs, pairs) && IsFixed(pairs, minRounds, maxRounds, RawRounds(out))
    ensures format.Doubles? && partner.Rotating? ==>
      |out| == BoundedTarget(rounds, minRounds, maxRounds) && IsMixed(playerIDs, RawRounds(out))
  {
    var numCourts := if numCourts0 < 1 then 1 else numCourts0;
    pairs := [];
    var fitted;
    if format.Singles? {
      var rr := SinglesRoundRobin(playerIDs);
      fitted := FitRounds(rr, BoundedTarget(|rr|, minRounds, maxRounds));
    } else if partner.Fixed? {
      if fixedPairs.Unset? {
        pairs := AutoPair(playerIDs);
      } else {
        pairs := fixedPairs.pairs;
      }
      var rr := DoublesFixed(pairs);
      fitted := FitRounds(rr, BoundedTarget(|rr|, minRounds, maxRounds));
    } else {
      fitted := DoublesRotating(playerIDs, BoundedTarget(rounds, minRounds, maxRounds));
    }
    out := PlaceCourts(fitted, numCourts);
    PlacementRoundTrip(fitted, numCourts, out);
  }

  // ---- Promises of a round-robin.

  /** In a cycle of named rounds the two units meet in exactly one round. */
  lemma NamedMeetOnlyIn<T(!new)>(units: seq<T>, bye: T, side: map<T, Side>, raw: seq<RawRound>, x: nat, y: nat)
    requires Distinct(units) && bye !in units && x < y < |units|
    requires Injective(side) && (forall u | u in units :: u in side)
    requires AllSides(CircleRounds(units, bye), side, raw)
    ensures MeetOnlyIn(raw, side[units[x]], side[units[y]], MeetingRound(|Padded(units, bye)|, x, y))
  {
    var r0 := MeetingRound(|Padded(units, bye)|, x, y);
    OppositeOnce(|Padded(units, bye)|, x, y, 0);
    forall r | 0 <= r < |raw|
      ensures RoundMeetings(raw[r], side[units[x]], side[units[y]]) == if r == r0 then 1 else 0
    {
      MeetInTheirRound(units, bye, x, y, r);
      NamedRoundMeetings(CircleRounds(units, bye)[r], side, raw[r], units[x], units[y]);
    }
  }

  /** How many rounds one full cycle takes. */
  function CycleLength(n: nat): (r: nat)
    requires n >= 2
    ensures r == if n % 2 == 0 then n - 1 else n
  {
    if n % 2 == 0 then n - 1 else n
  }

  /** These two meet the floor or the ceiling of the rounds over the cycle. */
  ghost predicate MeetEvenly(rounds: seq<RawRound>, s: Side, t: Side, cycle: nat)
    requires cycle > 0
  {
    && |rounds| / cycle <= Meetings(rounds, s, t) <= |rounds| / cycle + 1
    && (|rounds| % cycle == 0 ==> Meetings(rounds, s, t) == |rounds| / cycle)
  }

  lemma FittedMeetEvenly(raw: seq<RawRound>, s: Side, t: Side, r0: int, target: int)
    requires MeetOnlyIn(raw, s, t, r0) && target >= 1
    ensures |Fitted(raw, target)| == target && MeetEvenly(Fitted(raw, target), s, t, |raw|)
  {
    FittedMeetings(raw, s, t, r0, target);
  }

  /** With a target of T rounds and a cycle of R, every two units meet the floor or the ceiling of T over R times. */
  lemma EveryPairMeetsEvenly<T(!new)>(units: seq<T>, bye: T, side: map<T, Side>, minRounds: int, maxRounds: int,
                                      rounds: seq<RawRound>, x: nat, y: nat)
    requires Distinct(units) && bye !in units && x < y < |units|
    requires Injective(side) && (forall u | u in units :: u in side)
    requires IsRoundRobin(units, bye, side, minRounds, maxRounds, rounds)
    ensures |rounds| == BoundedTarget(CycleLength(|units|), minRounds, maxRounds)
    ensures MeetEvenly(rounds, side[units[x]], side[units[y]], CycleLength(|units|))
  {
    var raw :| AllSides(CircleRounds(units, bye), side, raw)
      && rounds == Fitted(raw, BoundedTarget(|raw|, minRounds, maxRounds));
    assert |raw| == CycleLength(|units|);
    var target := BoundedTarget(|raw|, minRounds, maxRounds);
    NamedMeetOnlyIn(units, bye, side, raw, x, y);
    FittedMeetEvenly(raw, side[units[x]], side[units[y]], MeetingRound(|Padded(units, bye)|, x, y), target);
  }

  /** Game `i` of a round of the cycle: the pairing `i` places into a turn of the circle, its units as sides. */
  ghost predicate IsFacing<T>(units: seq<T>, side: map<T, Side>, round: RawRound, s: nat, i: nat)
    requires i < |units| && s < |units| - 1
  {
    var m := Facing(units, s, i);
    i < |round| && m.a in side && m.b in side && round[i] == Pairing(side[m.a], side[m.b])
  }

  /** Who plays whom, game by game, with an even number of units: the first rounds are the turns of the circle. */
  lemma GamesOfRound<T(!new)>(units: seq<T>, bye: T, side: map<T, Side>, minRounds: int, maxRounds: int,
                              rounds: seq<RawRound>, r: nat, i: nat)
    requires bye !in units && |units| % 2 == 0 && r < |rounds| && r < |units| - 1 && i < |units| / 2
    requires IsRoundRobin(units, bye, side, minRounds, maxRounds, rounds)
    ensures |rounds[r]| == |units| / 2 && IsFacing(units, side, rounds[r], r, i)
  {
    var raw, target := CycleBehind(units, bye, side, minRounds, maxRounds, rounds);
    FirstRounds(raw, target, r);
    GameOfCycle(units, bye, side, raw, r, i);
  }

  lemma CycleBehind<T(!new)>(units: seq<T>, bye: T, side: map<T, Side>, minRounds: int, maxRounds: int,
                             rounds: seq<RawRound>) returns (raw: seq<RawRound>, target: int)
    requires units != [] && IsRoundRobin(units, bye, side, minRounds, maxRounds, rounds)
    ensures AllSides(CircleRounds(units, bye), side, raw)
    ensures |raw| == if |units| % 2 == 0 then |units| - 1 else |units|
    ensures target >= 1 && rounds == Fitted(raw, target)
  {
    raw :| AllSides(CircleRounds(units, bye), side, raw)
      && rounds == Fitted(raw, BoundedTarget(|raw|, minRounds, maxRounds));
    target := BoundedTarget(|raw|, minRounds, maxRounds);
  }

  lemma FirstRounds(raw: seq<RawRound>, target: int, r: nat)
    requires raw != [] && target >= 1 && r < |Fitted(raw, target)| && r < |raw|
    ensures Fitted(raw, target)[r] == raw[r]
  {
    QuotientIs(r, 0, r, |raw|);
  }

  /** After a cycle the rounds come again. */
  lemma RoundsComeAgain(raw: seq<RawRound>, target: int, r: nat)
    requires raw != [] && target >= 1 && |raw| <= r < |Fitted(raw, target)|
    ensures Fitted(raw, target)[r] == Fitted(raw, target)[r - |raw|]
  {
    RemainderBack(r, |raw|);
  }

  lemma RemainderBack(r: nat, n: nat)
    requires 1 <= n <= r
    ensures r % n == (r - n) % n
  {
    var q := (r - n) / n;
    assert (q + 1) * n == q * n + n;
    QuotientIs(r, q + 1, (r - n) % n, n);
  }

  lemma GameOfCycle<T(!new)>(units: seq<T>, bye: T, side: map<T, Side>, raw: seq<RawRound>, s: nat, i: nat)
    requires bye !in units && |units| % 2 == 0 && s < |units| - 1 && i < |units| / 2
    requires AllSides(CircleRounds(units, bye), side, raw) && s < |raw|
    ensures |raw[s]| == |units| / 2 && IsFacing(units, side, raw[s], s, i)
  {
    EvenRounds(units, bye, s, i);
    assert RoundSides(CircleRounds(units, bye)[s], side, raw[s]);
  }

  /** No unit plays twice in a round. */
  lemma NobodyTwice<T(!new)>(units: seq<T>, bye: T, side: map<T, Side>, minRounds: int, maxRounds: int,
                             rounds: seq<RawRound>, x: nat, r: nat)
    requires Distinct(units) && bye !in units && x < |units| && r < |rounds|
    requires Injective(side) && (forall u | u in units :: u in side)
    requires IsRoundRobin(units, bye, side, minRounds, maxRounds, rounds)
    ensures Appearances(rounds[r], side[units[x]]) <= 1
    ensures |units| % 2 == 0 ==> Appearances(rounds[r], side[units[x]]) == 1
  {
    var raw :| AllSides(CircleRounds(units, bye), side, raw)
      && rounds == Fitted(raw, BoundedTarget(|raw|, minRounds, maxRounds));
    var s := InCycle(raw, BoundedTarget(|raw|, minRounds, maxRounds), r);
    NobodyTwiceInARound(units, bye, x, s);
    NamedAppearances(CircleRounds(units, bye)[s], side, raw[s], units[x]);
  }

  /** Singles: any two players meet evenly, and nobody plays twice in a round. */
  lemma SinglesAreEven(players: seq<string>, minRounds: int, maxRounds: int, rounds: seq<RawRound>, x: nat, y: nat, r: nat)
    requires Distinct(players) && BYE !in players && x < y < |players| && r < |rounds|
    requires IsSingles(players, minRounds, maxRounds, rounds)
    ensures
      var cycle := CycleLength(|players|);
      && |rounds| == BoundedTarget(cycle, minRounds, maxRounds)
      && MeetEvenly(rounds, [players[x]], [players[y]], cycle)
      && Appearances(rounds[r], [players[x]]) <= 1 && Appearances(rounds[r], [players[y]]) <= 1
  {
    SinglesDiffer(players);
    EveryPairMeetsEvenly(players, BYE, SingleSides(players), minRounds, maxRounds, rounds, x, y);
    NobodyTwice(players, BYE, SingleSides(players), minRounds, maxRounds, rounds, x, r);
    NobodyTwice(players, BYE, SingleSides(players), minRounds, maxRounds, rounds, y, r);
  }

  lemma SinglesDiffer(players: seq<string>)
    ensures Injective(SingleSides(players))
  {
    forall x, y | x in players && y in players && x != y
      ensures SingleSides(players)[x] != SingleSides(players)[y]
    {
      assert [x][0] != [y][0];
    }
  }

  /** Fixed pairs: any two pairs meet evenly, and no pair plays twice in a round. */
  lemma FixedPairsAreEven(pairs: seq<Side>, minRounds: int, maxRounds: int, rounds: seq<RawRound>, x: nat, y: nat, r: nat)
    requires Distinct(pairs) && x < y < |pairs| && r < |rounds|
    requires IsFixed(pairs, minRounds, maxRounds, rounds)
    ensures
      var cycle := CycleLength(|pairs|);
      && |rounds| == BoundedTarget(cycle, minRounds, maxRounds)
      && MeetEvenly(rounds, pairs[x], pairs[y], cycle)
      && Appearances(rounds[r], pairs[x]) <= 1 && Appearances(rounds[r], pairs[y]) <= 1
  {
    var units, side := Units(|pairs|), PairSides(pairs);
    EveryPairMeetsEvenly(units, -1, side, minRounds, maxRounds, rounds, x, y);
    NobodyTwice(units, -1, side, minRounds, maxRounds, rounds, x, r);
    NobodyTwice(units, -1, side, minRounds, maxRounds, rounds, y, r);
  }

  // ---- The same about the players on the sides.

  /** Every side has players on it, all different, and nobody is on two sides. */
  ghost predicate ShareNobody<T(!new)>(units: seq<T>, side: map<T, Side>) {
    && (forall u | u in units :: u in side && Distinct(side[u]) && side[u] != [])
    && (forall u, v, p | u in units && v in units && u != v && p in side[u] && p in side[v] :: false)
  }

  /** Two different players in each pair, and nobody in two pairs. */
  ghost predicate ProperPairs(pairs: seq<Side>) {
    && (forall k | 0 <= k < |pairs| :: |pairs[k]| == 2 && pairs[k][0] != pairs[k][1])
    && (forall j, k, p | 0 <= j < k < |pairs| && p in pairs[j] :: p !in pairs[k])
  }

  lemma {:induction false} SeatsPush(round: RawRound, m: Pairing<Side>, p: string)
    ensures RoundSeats(round + [m], p) == RoundSeats(round, p) + multiset(m.a)[p] + multiset(m.b)[p]
    decreases |round|
  {
    if round == [] {
      assert round + [m] == [m] && [m][1..] == [];
    } else {
      SeatsPush(round[1..], m, p);
      assert (round + [m])[1..] == round[1..] + [m];
    }
  }

  /** A side of the game is `home`, or `p` is not on it. */
  ghost predicate AwayFrom(s: Side, home: Side, p: string) {
    s == home || p !in s
  }

  /** A player on one side only has a seat for each game of that side. */
  lemma {:induction false} SeatsOfSide(round: RawRound, home: Side, p: string)
    requires multiset(home)[p] == 1
    requires forall i | 0 <= i < |round| :: AwayFrom(round[i].a, home, p) && AwayFrom(round[i].b, home, p)
    ensures RoundSeats(round, p) == Appearances(round, home)
    decreases |round|
  {
    if round != [] {
      var n := |round| - 1;
      SeatsOfSide(round[..n], home, p);
      SeatsPush(round[..n], round[n], p);
      assert round == round[..n] + [round[n]];
      assert AwayFrom(round[n].a, home, p) && AwayFrom(round[n].b, home, p);
      assert p !in round[n].a ==> multiset(round[n].a)[p] == 0;
      assert p !in round[n].b ==> multiset(round[n].b)[p] == 0;
    }
  }

  lemma {:induction false} NoSeats(round: RawRound, p: string)
    requires forall i | 0 <= i < |round| :: p !in round[i].a && p !in round[i].b
    ensures RoundSeats(round, p) == 0
    decreases |round|
  {
    if round != [] {
      NoSeats(round[1..], p);
      assert p !in round[0].a && p !in round[0].b;
    }
  }

  lemma {:induction false} OnceInSide(s: Side, p: string)
    requires Distinct(s) && p in s
    ensures multiset(s)[p] == 1
    decreases |s|
  {
    var n := |s| - 1;
    assert s == s[..n] + [s[n]];
    if p == s[n] {
      assert p !in s[..n];
    } else {
      OnceInSide(s[..n], p);
    }
  }

  /** Every side in a fitted round is the side of one of the units. */
  lemma SidesOfUnits<T(!new)>(units: seq<T>, bye: T, side: map<T, Side>, raw: seq<RawRound>, s: nat, i: nat)
    requires AllSides(CircleRounds(units, bye), side, raw) && s < |raw| && i < |raw[s]|
    ensures exists u, v :: u in units && v in units && u in side && v in side
                           && raw[s][i].a == side[u] && raw[s][i].b == side[v]
  {
    var round := CircleRounds(units, bye)[s];
    assert RoundSides(round, side, raw[s]);
    OnlyPlayers(units, bye, s);
    assert round[i] in round;
  }

  lemma StaysAway<T(!new)>(units: seq<T>, bye: T, side: map<T, Side>, raw: seq<RawRound>, s: nat, x: nat, p: string)
    requires AllSides(CircleRounds(units, bye), side, raw) && s < |raw| && ShareNobody(units, side)
    requires x < |units| && units[x] in side && p in side[units[x]]
    ensures forall i | 0 <= i < |raw[s]| ::
              AwayFrom(raw[s][i].a, side[units[x]], p) && AwayFrom(raw[s][i].b, side[units[x]], p)
  {
    forall i | 0 <= i < |raw[s]|
      ensures AwayFrom(raw[s][i].a, side[units[x]], p) && AwayFrom(raw[s][i].b, side[units[x]], p)
    {
      SidesOfUnits(units, bye, side, raw, s, i);
    }
  }

  lemma StaysOut<T(!new)>(units: seq<T>, bye: T, side: map<T, Side>, raw: seq<RawRound>, s: nat, p: string)
    requires AllSides(CircleRounds(units, bye), side, raw) && s < |raw| && !OnSomeSide(units, side, p)
    ensures RoundSeats(raw[s], p) == 0
  {
    OffEverySide(units, side, p);
    forall i | 0 <= i < |raw[s]| ensures p !in raw[s][i].a && p !in raw[s][i].b {
      SidesOfUnits(units, bye, side, raw, s, i);
    }
    NoSeats(raw[s], p);
  }

  /** A fitted round is one of the cycle's. */
  lemma InCycle(raw: seq<RawRound>, target: int, r: nat) returns (s: nat)
    requires raw != [] && target >= 1 && r < |Fitted(raw, target)|
    ensures s < |raw| && Fitted(raw, target)[r] == raw[s]
  {
    s := r % |raw|;
  }

  /** When nobody is on two sides, no round uses a player twice; with an even number of sides
      it uses everybody exactly once. */
  lemma NoPlayerTwice<T(!new)>(units: seq<T>, bye: T, side: map<T, Side>, minRounds: int, maxRounds: int,
                               rounds: seq<RawRound>, r: nat, p: string)
    requires Distinct(units) && bye !in units && r < |rounds|
    requires Injective(side) && ShareNobody(units, side)
    requires IsRoundRobin(units, bye, side, minRounds, maxRounds, rounds)
    ensures RoundSeats(rounds[r], p) <= 1
    ensures RoundSeats(rounds[r], p) == 1 ==> OnSomeSide(units, side, p)
    ensures |units| % 2 == 0 && OnSomeSide(units, side, p) ==> RoundSeats(rounds[r], p) == 1
  {
    var raw :| AllSides(CircleRounds(units, bye), side, raw)
      && rounds == Fitted(raw, BoundedTarget(|raw|, minRounds, maxRounds));
    var s := InCycle(raw, BoundedTarget(|raw|, minRounds, maxRounds), r);
    if OnSomeSide(units, side, p) {
      var x :| 0 <= x < |units| && p in side[units[x]];
      StaysAway(units, bye, side, raw, s, x, p);
      OnceInSide(side[units[x]], p);
      SeatsOfSide(rounds[r], side[units[x]], p);
      NobodyTwice(units, bye, side, minRounds, maxRounds, rounds, x, r);
    } else {
      StaysOut(units, bye, side, raw, s, p);
    }
  }

  ghost predicate OnSomeSide<T>(units: seq<T>, side: map<T, Side>, p: string) {
    exists x :: 0 <= x < |units| && units[x] in side && p in side[units[x]]
  }

  lemma OffEverySide<T(!new)>(units: seq<T>, side: map<T, Side>, p: string)
    requires !OnSomeSide(units, side, p)
    ensures forall u | u in units && u in side :: p !in side[u]
  {
    forall u | u in units && u in side ensures p !in side[u] {
      var x :| 0 <= x < |units| && units[x] == u;
    }
  }

  /** Fixed doubles: when no two pairs share a player, no round uses a player twice, and with an
      even number of pairs every round uses everybody exactly once. */
  lemma FixedPairsUseNobodyTwice(pairs: seq<Side>, minRounds: int, maxRounds: int, rounds: seq<RawRound>,
                                 r: nat, p: string)
    requires ProperPairs(pairs) && IsFixed(pairs, minRounds, maxRounds, rounds) && r < |rounds|
    ensures RoundSeats(rounds[r], p) <= 1
    ensures |pairs| % 2 == 0 ==> RoundSeats(rounds[r], p) == if exists k :: 0 <= k < |pairs| && p in pairs[k] then 1 else 0
  {
    var units, side := Units(|pairs|), PairSides(pairs);
    PairsShareNobody(pairs);
    NoPlayerTwice(units, -1, side, minRounds, maxRounds, rounds, r, p);
    if exists k :: 0 <= k < |pairs| && p in pairs[k] {
      var k :| 0 <= k < |pairs| && p in pairs[k];
      assert units[k] == k && p in side[units[k]];
    }
  }

  lemma PairsShareNobody(pairs: seq<Side>)
    requires ProperPairs(pairs)
    ensures Injective(PairSides(pairs)) && ShareNobody(Units(|pairs|), PairSides(pairs))
  {
    var side := PairSides(pairs);
    forall x, y | x in side && y in side && x != y ensures side[x] != side[y] {
      assert pairs[x][0] in pairs[x] && pairs[y][0] in pairs[y];
    }
  }

  /** Singles: no round uses a player twice, and with an even field it uses everybody. */
  lemma SinglesUseNobodyTwice(players: seq<string>, minRounds: int, maxRounds: int, rounds: seq<RawRound>,
                              r: nat, p: string)
    requires Distinct(players) && BYE !in players && r < |rounds|
    requires IsSingles(players, minRounds, maxRounds, rounds)
    ensures RoundSeats(rounds[r], p) <= 1
    ensures |players| % 2 == 0 ==> RoundSeats(rounds[r], p) == if p in players then 1 else 0
  {
    var side := SingleSides(players);
    SinglesDiffer(players);
    NoPlayerTwice(players, BYE, side, minRounds, maxRounds, rounds, r, p);
    if p in players {
      var x :| 0 <= x < |players| && players[x] == p;
      assert p in side[players[x]];
    }
  }

  /** Pairing neighbours of a list of different players makes proper pairs. */
  lemma NeighboursAreProper(players: seq<string>, used: seq<Side>)
    requires Distinct(players) && PairsUsed(players, Unset, used)
    ensures ProperPairs(used)
  {
    forall j, k, p | 0 <= j < k < |used| && p in used[j] ensures p !in used[k] {
      assert p == players[2 * j] || p == players[2 * j + 1];
    }
  }

  /** So fixed doubles with nobody's partner chosen use no player twice in a round. */
  lemma AutoPairsUseNobodyTwice(players: seq<string>, pairs: seq<Side>, minRounds: int, maxRounds: int,
                                rounds: seq<RawRound>, r: nat, p: string)
    requires Distinct(players) && PairsUsed(players, Unset, pairs)
    requires IsFixed(pairs, minRounds, maxRounds, rounds) && r < |rounds|
    ensures RoundSeats(rounds[r], p) <= 1
  {
    NeighboursAreProper(players, pairs);
    FixedPairsUseNobodyTwice(pairs, minRounds, maxRounds, rounds, r, p);
  }
}
