/** Why the drops come around: in the first match it plays after dropping, a winners-round-2
    loser (a bracket of 8 or more) or a winners-round-3 loser (32 or more) meets nobody from its
    own part of the winners bracket, so nobody it has met before; one match of a field of five
    is the exception. The geometry is in
    losers rounds before renumbering; the result is about the finished plan. */
module ComeAroundDrops {
  import opened Draws
  import opened Powers
  import opened Play
  import opened Knockout
  import opened Collapse
  import opened DoubleElim
  import opened DoubleElimPlay
  import opened History
  import Bracket
  import SeedOrder

  /** The round-1 match a team of the field starts from, played or not. */
  function StartMatch(sides: seq<Team>, i: nat): nat {
    SeedOrder.LineOf(Rounds(sides), i + 1) / 2
  }

  predicate StartsUnder(sides: seq<Team>, i: nat, r: nat, s: nat)
    requires r >= 1
  {
    Shr(StartMatch(sides, i), r - 1) == s
  }

  /** The teams that start below winners match (r, s): its part of the bracket. */
  function Region(sides: seq<Team>, r: nat, s: nat): set<Team>
    requires r >= 1
  {
    set i | 0 <= i < |sides| && StartsUnder(sides, i, r, s) :: sides[i]
  }

  lemma RegionsNest(sides: seq<Team>, r: nat, s: nat, d: nat)
    requires r >= 1
    ensures Region(sides, r, s) <= Region(sides, r + d, Shr(s, d))
  {
    forall p | p in Region(sides, r, s) ensures p in Region(sides, r + d, Shr(s, d)) {
      var i :| 0 <= i < |sides| && StartsUnder(sides, i, r, s) && sides[i] == p;
      ShrTwice(StartMatch(sides, i), r - 1, d);
      assert StartsUnder(sides, i, r + d, Shr(s, d));
    }
  }

  lemma RegionsApart(sides: seq<Team>, r: nat, s: nat, s': nat)
    requires r >= 1 && DistinctTeams(sides) && s != s'
    ensures Region(sides, r, s) !! Region(sides, r, s')
  {
    forall p | p in Region(sides, r, s) ensures p !in Region(sides, r, s') {
      var i :| 0 <= i < |sides| && StartsUnder(sides, i, r, s) && sides[i] == p;
    }
  }

  /** The teams that can come into a seat of the losers bracket. */
  function SpotTeams(sides: seq<Team>, e: Spot): set<Team>
    requires Rounds(sides) >= 2 && ValidSpot(LoserShape(sides), e)
    decreases e.round
  {
    var sh := LoserShape(sides);
    match FeederOf(sh, e)
    case FromSource(s) => FeederIsHome(sh, e); Region(sides, s.round, s.slot)
    case FromMatch(r, j) =>
      FeederIsBelow(sh, e);
      SpotTeams(sides, Spot(r, j, 1)) + SpotTeams(sides, Spot(r, j, 2))
  }

  /** Skipping byes only moves up: the seat a team really plays in takes in all of them. */
  lemma {:induction false} DestTakesAll(sides: seq<Team>, e: Spot)
    requires Rounds(sides) >= 2 && ValidSpot(LoserShape(sides), e)
    ensures var d := Dest(LoserShape(sides), e);
            d.Lands? ==> ValidSpot(LoserShape(sides), d.spot) && SpotTeams(sides, e) <= SpotTeams(sides, d.spot)
    decreases LoserShape(sides).Rounds() - e.round
  {
    var sh := LoserShape(sides);
    if In(sh, OtherSide(e)) == Bye && e.round < sh.Rounds() {
      UpIsFedByMatch(sh, e.round, e.slot);
      assert e == Spot(e.round, e.slot, 1) || e == Spot(e.round, e.slot, 2);
      DestTakesAll(sides, Up(sh, e.round, e.slot));
    }
  }

  // --- bounds on who sits where, and on what they have played -------------------------------

  /** Who may sit in a seat of the losers bracket: a dropper's own part of the winners bracket, or
      everybody who can come up. */
  function SeatTeams(sides: seq<Team>, x: Spot): set<Team>
    requires Rounds(sides) >= 2 && ValidSpot(LoserShape(sides), x)
  {
    var t := In(LoserShape(sides), x);
    if t.Loser? && t.source.round >= 1 then Region(sides, t.source.round, t.source.slot) else SpotTeams(sides, x)
  }

  /** Whoever drops into a match that is played is one of those who can come into its seat. */
  lemma SeatTeamsCanCome(sides: seq<Team>, x: Spot)
    requires Rounds(sides) >= 2 && ValidSpot(LoserShape(sides), x) && Emitted(LoserShape(sides), x.round, x.slot)
    ensures SeatTeams(sides, x) <= SpotTeams(sides, x)
  {
    var sh := LoserShape(sides);
    var t := In(sh, x);
    EachSideFedOnce(sh, x);
    if t.Loser? {
      HomeIsFedBySource(sh, t.source);
      DestTakesAll(sides, Home(sh, t.source));
    }
  }

  function WhoMaySit(sides: seq<Team>, e: Entry): set<Team>
    requires Rounds(sides) >= 2
  {
    var x := Spot(e.node.round, e.node.slot, e.team);
    if e.node.group == Winners && e.node.round >= 1 then Region(sides, e.node.round, e.node.slot)
    else if e.node.group == Losers && ValidSpot(LoserShape(sides), x) then SeatTeams(sides, x)
    else set i | 0 <= i < |sides| :: sides[i]
  }

  /** The winners matches below and including match (r, s). */
  function Below(plan: Plan, r: nat, s: nat): set<MatchId> {
    set id | id in plan.Keys && id.group == Winners && id.round <= r && Shr(id.slot, r - id.round) == s
  }

  function MayHavePlayed(sides: seq<Team>, plan: Plan, e: Entry): set<MatchId>
    requires Rounds(sides) >= 2
  {
    var sh := LoserShape(sides);
    var x := Spot(e.node.round, e.node.slot, e.team);
    if e.node.group == Winners then Below(plan, e.node.round, e.node.slot)
    else if e.node.group == Losers && ValidSpot(sh, x) && In(sh, x).Loser? then
      Below(plan, In(sh, x).source.round, In(sh, x).source.slot)
    else plan.Keys
  }

  function From(sides: seq<Team>, plan: Plan): map<Entry, set<Team>>
    requires Rounds(sides) >= 2
  {
    map e | e in Seats(plan) :: WhoMaySit(sides, e)
  }

  function Via(sides: seq<Team>, plan: Plan): map<Entry, set<MatchId>>
    requires Rounds(sides) >= 2
  {
    map e | e in Seats(plan) :: MayHavePlayed(sides, plan, e)
  }

  lemma RegionInField(sides: seq<Team>, r: nat, s: nat)
    requires r >= 1
    ensures Region(sides, r, s) <= set i | 0 <= i < |sides| :: sides[i]
  {
  }

  lemma {:induction false} SpotTeamsInField(sides: seq<Team>, e: Spot)
    requires Rounds(sides) >= 2 && ValidSpot(LoserShape(sides), e)
    ensures SpotTeams(sides, e) <= set i | 0 <= i < |sides| :: sides[i]
    decreases e.round
  {
    var sh := LoserShape(sides);
    match FeederOf(sh, e)
    case FromSource(s) => FeederIsHome(sh, e);
    case FromMatch(r, j) =>
      FeederIsBelow(sh, e);
      SpotTeamsInField(sides, Spot(r, j, 1));
      SpotTeamsInField(sides, Spot(r, j, 2));
  }

  /** A team of the field that is seeded starts below the match it is seeded into. */
  lemma SeedInRegion(sides: seq<Team>, e: Entry)
    requires |sides| >= 2 && Alive(sides, e.node.round, e.node.slot) && (e.team == 1 || e.team == 2)
    requires SeedFrom(Bracket.InitialSide(sides, e.node.round, e.node.slot, e.team)).Some?
    ensures SeedFrom(Bracket.InitialSide(sides, e.node.round, e.node.slot, e.team)).value
            in Region(sides, e.node.round, e.node.slot)
  {
    var k := Rounds(sides);
    SeededSeat(sides, e);
    var seed := SeedOrder.SeedOn(k, SeedLine(e));
    SeedOrder.OrderIsPermutation(k, seed);
    assert SeedOrder.LineOf(k, seed) == SeedLine(e);
    assert Shr(StartMatch(sides, seed - 1), 1) == StartMatch(sides, seed - 1) / 2;
    assert StartsUnder(sides, seed - 1, e.node.round, e.node.slot);
  }

  /** The bounds of the seat a result feeds take in those of the match it comes from. */
  ghost predicate Widens(sides: seq<Team>, plan: Plan, id: MatchId, e: Entry)
    requires Rounds(sides) >= 2
  {
    && WhoMaySit(sides, Entry(id, 1)) + WhoMaySit(sides, Entry(id, 2)) <= WhoMaySit(sides, e)
    && MayHavePlayed(sides, plan, Entry(id, 1)) + MayHavePlayed(sides, plan, Entry(id, 2)) + {id}
       <= MayHavePlayed(sides, plan, e)
  }

  lemma BelowGrows(plan: Plan, id: MatchId)
    requires id in plan && id.group == Winners
    ensures Below(plan, id.round, id.slot) + {id} <= Below(plan, id.round + 1, id.slot / 2)
    ensures id in Below(plan, id.round, id.slot)
  {
    assert Shr(id.slot, 1) == Shr(id.slot, 0) / 2;
    forall x | x in Below(plan, id.round, id.slot) ensures x in Below(plan, id.round + 1, id.slot / 2) {
      assert Shr(x.slot, id.round + 1 - x.round) == Shr(x.slot, id.round - x.round) / 2;
    }
  }

  /** A win in the winners bracket. */
  lemma WinWidens(sides: seq<Team>, plan: Plan, id: MatchId, t: nat)
    requires Rounds(sides) >= 2 && id in plan && id.group == Winners && id.round >= 1
    ensures Widens(sides, plan, id, Entry(MatchId(Winners, id.round + 1, id.slot / 2), t))
  {
    RegionsNest(sides, id.round, id.slot, 1);
    assert Shr(id.slot, 1) == Shr(id.slot, 0) / 2;
    BelowGrows(plan, id);
  }

  /** A winners loser's drop. */
  lemma DropWidens(sides: seq<Team>, plan: Plan, id: MatchId)
    requires Rounds(sides) >= 2 && id in plan && id.group == Winners && id.round >= 1
    requires Producer(LoserShape(sides), Loser(Source(id.round, id.slot)))
    ensures var d := FeedFor(LoserShape(sides), Loser(Source(id.round, id.slot)));
            d.Lands? ==> Widens(sides, plan, id, AsFeed(d).entry)
  {
    var sh := LoserShape(sides);
    FeedIsRight(sh, Loser(Source(id.round, id.slot)));
    BelowGrows(plan, id);
  }

  /** A win in the losers bracket. */
  lemma LosersWinWidens(sides: seq<Team>, plan: Plan, id: MatchId)
    requires Rounds(sides) >= 2 && id in plan && id.group == Losers
    requires Producer(LoserShape(sides), Token.Winner(id.round, id.slot))
    ensures var d := FeedFor(LoserShape(sides), Token.Winner(id.round, id.slot));
            d.Lands? ==> Widens(sides, plan, id, AsFeed(d).entry)
  {
    var sh := LoserShape(sides);
    FeedIsRight(sh, Token.Winner(id.round, id.slot));
    SeatTeamsCanCome(sides, Spot(id.round, id.slot, 1));
    SeatTeamsCanCome(sides, Spot(id.round, id.slot, 2));
    if id.round < sh.Rounds() {
      UpIsFedByMatch(sh, id.round, id.slot);
      var up := Up(sh, id.round, id.slot);
      assert SpotTeams(sides, up) == SpotTeams(sides, Spot(id.round, id.slot, 1)) + SpotTeams(sides, Spot(id.round, id.slot, 2));
      DestTakesAll(sides, up);
    }
    MayHavePlayedInPlan(sides, plan, Entry(id, 1));
    MayHavePlayedInPlan(sides, plan, Entry(id, 2));
  }

  lemma MayHavePlayedInPlan(sides: seq<Team>, plan: Plan, e: Entry)
    requires Rounds(sides) >= 2
    ensures MayHavePlayed(sides, plan, e) <= plan.Keys
  {
  }

  lemma WhoMaySitInField(sides: seq<Team>, e: Entry)
    requires Rounds(sides) >= 2
    ensures WhoMaySit(sides, e) <= set i | 0 <= i < |sides| :: sides[i]
  {
    var x := Spot(e.node.round, e.node.slot, e.team);
    if e.node.group == Winners && e.node.round >= 1 {
      RegionInField(sides, e.node.round, e.node.slot);
    } else if e.node.group == Losers && ValidSpot(LoserShape(sides), x) {
      SpotTeamsInField(sides, x);
      var t := In(LoserShape(sides), x);
      if t.Loser? && t.source.round >= 1 {
        RegionInField(sides, t.source.round, t.source.slot);
      }
    }
  }

  lemma FinalWidens(sides: seq<Team>, plan: Plan, id: MatchId, t: nat)
    requires Rounds(sides) >= 2 && id in plan
    ensures Widens(sides, plan, id, Entry(GRAND_FINAL, t))
  {
    WhoMaySitInField(sides, Entry(id, 1));
    WhoMaySitInField(sides, Entry(id, 2));
    MayHavePlayedInPlan(sides, plan, Entry(id, 1));
    MayHavePlayedInPlan(sides, plan, Entry(id, 2));
  }

  lemma FeedWidens(sides: seq<Team>, plan: Plan, r: Result)
    requires |sides| >= 2 && Rounds(sides) >= 2 && IsStructuralPlan(sides, plan)
    requires r.node in plan && FeedOf(plan, r).To?
    ensures Widens(sides, plan, r.node, FeedOf(plan, r).entry)
  {
    var id, e := r.node, FeedOf(plan, r).entry;
    assert id.group == Winners ==> BracketMatch(plan, sides, To(Entry(GRAND_FINAL, 1)), id);
    if e.node == GRAND_FINAL {
      FinalWidens(sides, plan, id, e.team);
    } else if id.group == Winners && r.won {
      assert plan[id].win == WinFeed(Rounds(sides), Winners, id.round, id.slot, To(Entry(GRAND_FINAL, 1)));
      WinWidens(sides, plan, id, e.team);
    } else if id.group == Winners {
      DropWidens(sides, plan, id);
    } else {
      LosersWinWidens(sides, plan, id);
    }
  }

  lemma BoundsAreClosed(sides: seq<Team>, plan: Plan, source: map<Entry, Result>)
    requires |sides| >= 2 && Rounds(sides) >= 2 && IsStructuralPlan(sides, plan) && FedBy(plan, source)
    ensures Closed(plan, From(sides, plan), Via(sides, plan))
  {
    var from, via := From(sides, plan), Via(sides, plan);
    forall e | IsSeeded(plan, e) ensures SeedAt(plan, e) in from[e] {
      SeedIsBounded(sides, plan, e);
    }
    forall r: Result | r.node in plan && FeedOf(plan, r).To?
      ensures FedFrom(r, FeedOf(plan, r).entry, from, via)
    {
      assert source[FeedOf(plan, r).entry] == r;
      FeedWidens(sides, plan, r);
      WideningIsBounded(sides, plan, r, FeedOf(plan, r).entry);
    }
  }

  lemma WideningIsBounded(sides: seq<Team>, plan: Plan, r: Result, e: Entry)
    requires Rounds(sides) >= 2 && r.node in plan && IsEntry(plan, e) && Widens(sides, plan, r.node, e)
    ensures FedFrom(r, e, From(sides, plan), Via(sides, plan))
  {
    assert Entry(r.node, 1) in Seats(plan) && Entry(r.node, 2) in Seats(plan) && e in Seats(plan);
  }

  lemma SeedIsBounded(sides: seq<Team>, plan: Plan, e: Entry)
    requires |sides| >= 2 && Rounds(sides) >= 2 && IsStructuralPlan(sides, plan) && IsSeeded(plan, e)
    ensures e in From(sides, plan) && SeedAt(plan, e) in From(sides, plan)[e]
  {
    assert e.node.group == Winners;
    SeedOfNode(plan, sides, Winners, To(Entry(GRAND_FINAL, 1)), e.node, e.team);
    SeedInRegion(sides, e);
  }

  // --- the permutations keep the regions apart ----------------------------------------------

  /** The teams coming up the losers bracket to major round 2 are those of one winners-round-2 region. */
  lemma ComingUpToRound2(sides: seq<Team>, j: nat)
    requires Rounds(sides) >= 2 && ValidMatch(LoserShape(sides), 2, j)
    ensures SpotTeams(sides, Spot(2, j, 1)) <= Region(sides, 2, j)
  {
    var sh := LoserShape(sides);
    FeederIsBelow(sh, Spot(2, j, 1));
    forall t | t == 1 || t == 2 ensures SpotTeams(sides, Spot(1, j, t)) <= Region(sides, 2, j) {
      RegionsNest(sides, 1, 2 * j + t - 1, 1);
      assert Shr(2 * j + t - 1, 1) == Shr(2 * j + t - 1, 0) / 2 == j;
    }
  }

  /** The teams of losers round 2, match `i`: a winners-round-2 region and its mirror. */
  lemma Round2Teams(sides: seq<Team>, i: nat)
    requires Rounds(sides) >= 2 && ValidMatch(LoserShape(sides), 2, i)
    ensures SpotTeams(sides, Spot(2, i, 2)) == Region(sides, 2, Pow2(Rounds(sides) - 2) - 1 - i)
    ensures i < Pow2(Rounds(sides) - 2)
  {
    DropWidth(LoserShape(sides), 2);
    DropsInto(LoserShape(sides), 2, i);
  }

  /** Either side of a round-3 match brings up the teams of one round-2 match. */
  lemma Round3Teams(sides: seq<Team>, j: nat, t: nat, i: nat, m: nat)
    requires Rounds(sides) >= 3 && (t == 1 || t == 2) && ValidMatch(LoserShape(sides), 3, j)
    requires i == 2 * j + t - 1 && i + m + 1 == Pow2(Rounds(sides) - 2)
    ensures SpotTeams(sides, Spot(3, j, t)) <= Region(sides, 2, i) + Region(sides, 2, m)
  {
    Round3Feeder(sides, j, t, i);
    MatchTeams2(sides, i);
    assert m == Pow2(Rounds(sides) - 2) - 1 - i;
  }

  /** Either side of a round-3 match brings up one half of a winners-round-3 region and half of its mirror. */
  lemma ComingUpToRound3(sides: seq<Team>, j: nat, t: nat)
    requires Rounds(sides) >= 3 && (t == 1 || t == 2)
    requires j < Pow2(Rounds(sides) - 3) && ValidMatch(LoserShape(sides), 3, j)
    ensures SpotTeams(sides, Spot(3, j, t)) <= Region(sides, 3, j) + Region(sides, 3, Pow2(Rounds(sides) - 3) - 1 - j)
  {
    var i, w := 2 * j + t - 1, Pow2(Rounds(sides) - 3) - 1 - j;
    SeatToMatch(j, t);
    var m := 2 * (j + w + 1) - 1 - i;
    assert Pow2(Rounds(sides) - 2) == 2 * Pow2(Rounds(sides) - 3);
    Round3Teams(sides, j, t, i, m);
    HalvesNest(sides, i, j, m, w);
    UnionBound(SpotTeams(sides, Spot(3, j, t)), Region(sides, 2, i), Region(sides, 2, m),
               Region(sides, 3, j), Region(sides, 3, w));
  }

  lemma UnionBound<T>(a: set<T>, b: set<T>, c: set<T>, d: set<T>, e: set<T>)
    requires a <= b + c && b <= d && c <= e
    ensures a <= d + e
  {
  }

  /** What comes up to a side of round 3: whoever match (2, i) seats. */
  lemma Round3Feeder(sides: seq<Team>, j: nat, t: nat, i: nat)
    requires Rounds(sides) >= 3 && (t == 1 || t == 2) && ValidMatch(LoserShape(sides), 3, j) && i == 2 * j + t - 1
    ensures ValidMatch(LoserShape(sides), 2, i)
    ensures SpotTeams(sides, Spot(3, j, t)) == SpotTeams(sides, Spot(2, i, 1)) + SpotTeams(sides, Spot(2, i, 2))
    ensures i / 2 == j && Pow2(Rounds(sides) - 2) == 2 * Pow2(Rounds(sides) - 3)
  {
    var e := Spot(3, j, t);
    FeederIsBelow(LoserShape(sides), e);
    assert FeederOf(LoserShape(sides), e) == FromMatch(2, i);
    SeatToMatch(j, t);
  }

  lemma HalvesNest(sides: seq<Team>, i: nat, j: nat, m: nat, w: nat)
    requires i / 2 == j && i + m + 1 == 2 * (j + w + 1)
    ensures Region(sides, 2, i) <= Region(sides, 3, j)
    ensures Region(sides, 2, m) <= Region(sides, 3, w)
  {
    assert m / 2 == w;
    RegionsNest(sides, 2, i, 1);
    RegionsNest(sides, 2, m, 1);
    ShrOnce(i);
    ShrOnce(m);
  }

  /** The teams coming up to major round 4 are those of one winners-round-3 region and its mirror. */
  lemma ComingUpToRound4(sides: seq<Team>, j: nat)
    requires Rounds(sides) >= 3 && ValidMatch(LoserShape(sides), 4, j)
    ensures j < Pow2(Rounds(sides) - 3)
    ensures SpotTeams(sides, Spot(4, j, 1)) <= Region(sides, 3, j) + Region(sides, 3, Pow2(Rounds(sides) - 3) - 1 - j)
  {
    DropWidth(LoserShape(sides), 3);
    FeederIsBelow(LoserShape(sides), Spot(4, j, 1));
    ComingUpToRound3(sides, j, 1);
    ComingUpToRound3(sides, j, 2);
  }

  /** Reversing moves every slot, once there are two. */
  lemma ReversedElsewhere(m: nat, j: nat)
    requires m >= 1 && j < Pow2(m)
    ensures ComeAround(2, Pow2(m), j) != j
  {
  }

  /** Shifting by half lands neither on a slot nor on its mirror, once there are four. */
  lemma ShiftedElsewhere(m: nat, j: nat)
    requires m >= 2 && j < Pow2(m)
    ensures ComeAround(3, Pow2(m), j) != j && ComeAround(3, Pow2(m), j) != Pow2(m) - 1 - j
  {
    var half := Pow2(m - 1);
    assert Pow2(m) == 2 * half && half == 2 * Pow2(m - 2);
    WrapOnce(j + half, Pow2(m));
  }

  /** The bracket is deep enough for the losers of winners round `r` to be kept apart. */
  predicate KeptApart(sides: seq<Team>, r: nat) {
    (r == 2 && Rounds(sides) >= 3) || (r == 3 && Rounds(sides) >= 5)
  }

  /** Nobody coming up to the match where a winners-round-2 or -3 loser drops in is from the
      dropped team's own part of the winners bracket. */
  lemma DropsApart(sides: seq<Team>, r: nat, j: nat)
    requires DistinctTeams(sides) && KeptApart(sides, r) && ValidMatch(LoserShape(sides), 2 * (r - 1), j)
    ensures var sh := LoserShape(sides);
            var s := Source(r, ComeAround(r, sh.Width(2 * (r - 1)), j));
            && FeederOf(sh, Spot(2 * (r - 1), j, 2)) == FromSource(s) && ValidSource(sh, s)
            && SpotTeams(sides, Spot(2 * (r - 1), j, 1)) !! Region(sides, r, s.slot)
  {
    var sh, k := LoserShape(sides), Rounds(sides);
    DropsInto(sh, 2 * (r - 1), j);
    DropWidth(sh, r);
    if r == 2 {
      ReversedApart(sides, j);
    } else {
      ShiftedApart(sides, j);
    }
  }

  lemma ReversedApart(sides: seq<Team>, j: nat)
    requires DistinctTeams(sides) && Rounds(sides) >= 3 && ValidMatch(LoserShape(sides), 2, j) && j < Pow2(Rounds(sides) - 2)
    ensures SpotTeams(sides, Spot(2, j, 1)) !! Region(sides, 2, ComeAround(2, Pow2(Rounds(sides) - 2), j))
  {
    ComingUpToRound2(sides, j);
    ReversedElsewhere(Rounds(sides) - 2, j);
    RegionsApart(sides, 2, j, ComeAround(2, Pow2(Rounds(sides) - 2), j));
  }

  lemma ShiftedApart(sides: seq<Team>, j: nat)
    requires DistinctTeams(sides) && Rounds(sides) >= 5 && ValidMatch(LoserShape(sides), 4, j) && j < Pow2(Rounds(sides) - 3)
    ensures SpotTeams(sides, Spot(4, j, 1)) !! Region(sides, 3, ComeAround(3, Pow2(Rounds(sides) - 3), j))
  {
    var cnt := Pow2(Rounds(sides) - 3);
    var src := ComeAround(3, cnt, j);
    ComingUpToRound4(sides, j);
    ShiftedElsewhere(Rounds(sides) - 3, j);
    RegionsApart(sides, 3, j, src);
    RegionsApart(sides, 3, cnt - 1 - j, src);
  }

  // --- where a drop lands when byes are skipped ------------------------------------------------

  /** A match that takes in winners losers always passes somebody on. */
  lemma MajorPassesOn(sides: seq<Team>, i: nat, j: nat)
    requires Rounds(sides) >= 2 && i >= 1 && ValidMatch(LoserShape(sides), 2 * i, j)
    ensures OutOf(LoserShape(sides), 2 * i, j) != Bye
  {
    DropsInto(LoserShape(sides), 2 * i, j);
  }

  lemma MinorSideIsFilled(sides: seq<Team>, i: nat, j: nat, t: nat)
    requires Rounds(sides) >= 2 && i >= 1 && ValidMatch(LoserShape(sides), 2 * i + 1, j) && (t == 1 || t == 2)
    ensures In(LoserShape(sides), Spot(2 * i + 1, j, t)) != Bye
  {
    FeederIsBelow(LoserShape(sides), Spot(2 * i + 1, j, t));
    MajorPassesOn(sides, i, 2 * j + t - 1);
  }

  /** So both sides of a later match that takes in nobody are filled. */
  lemma MinorIsPlayed(sides: seq<Team>, i: nat, j: nat)
    requires Rounds(sides) >= 2 && i >= 1 && ValidMatch(LoserShape(sides), 2 * i + 1, j)
    ensures Emitted(LoserShape(sides), 2 * i + 1, j)
  {
    MinorSideIsFilled(sides, i, j, 1);
    MinorSideIsFilled(sides, i, j, 2);
  }

  /** With at most a quarter of the lines empty, one of two neighbouring first-round matches is played. */
  lemma OddSlotPlays(sides: seq<Team>, j: nat)
    requires |sides| >= 2 && Rounds(sides) >= 2 && j < Pow2(Rounds(sides) - 2)
    requires Pow2(Rounds(sides)) - |sides| <= Pow2(Rounds(sides) - 2)
    ensures In(LoserShape(sides), Spot(1, j, 2)) != Bye
  {
    var k := Rounds(sides);
    assert Pow2(k) == 2 * Pow2(k - 1) && Pow2(k - 1) == 2 * Pow2(k - 2);
    Bracket.OpeningSides(sides, 2 * j + 1);
    SeedOrder.Pairing(k, 2 * j + 1);
    SeedOrder.Pairing(k - 1, j);
    assert Alive(sides, 1, 2 * j + 1);
  }

  lemma SomebodyComesUp(sides: seq<Team>, j: nat)
    requires Rounds(sides) >= 3 && ValidSpot(LoserShape(sides), Spot(4, j, 1))
    ensures In(LoserShape(sides), Spot(4, j, 1)) != Bye
  {
    var sh := LoserShape(sides);
    FeederIsBelow(sh, Spot(4, j, 1));
    assert FeederOf(sh, Spot(4, j, 1)) == FromMatch(3, j);
    MinorIsPlayed(sides, 1, j);
    assert In(sh, Spot(4, j, 1)) == OutOf(sh, 3, j);
  }

  /** A winners-round-3 loser plays in the round it drops into, byes or not. */
  lemma Round3LandsHome(sides: seq<Team>, s: nat)
    requires Rounds(sides) >= 3 && s < Pow2(Rounds(sides) - 3)
    ensures Producer(LoserShape(sides), Loser(Source(3, s)))
    ensures ValidSpot(LoserShape(sides), Home(LoserShape(sides), Source(3, s)))
    ensures FeedFor(LoserShape(sides), Loser(Source(3, s))) == Lands(Home(LoserShape(sides), Source(3, s)))
  {
    var sh := LoserShape(sides);
    HomeIsFedBySource(sh, Source(3, s));
    var h := Home(sh, Source(3, s));
    SomebodyComesUp(sides, h.slot);
    assert OtherSide(h) == Spot(4, h.slot, 1);
    assert Dest(sh, h) == Lands(h);
  }

  /** A winners-round-2 loser plays in the round it drops into; or in the next, when nobody comes
      up to meet it. */
  lemma Round2LandsNear(sides: seq<Team>, s: nat)
    requires Rounds(sides) >= 3 && s < Pow2(Rounds(sides) - 2)
    ensures Producer(LoserShape(sides), Loser(Source(2, s)))
    ensures ValidSpot(LoserShape(sides), Home(LoserShape(sides), Source(2, s)))
    ensures var sh := LoserShape(sides);
            var h := Home(sh, Source(2, s));
            FeedFor(sh, Loser(Source(2, s))) == Lands(if In(sh, OtherSide(h)) != Bye then h else Up(sh, 2, h.slot))
  {
    var sh := LoserShape(sides);
    HomeIsFedBySource(sh, Source(2, s));
    var h := Home(sh, Source(2, s));
    if In(sh, OtherSide(h)) == Bye {
      UpIsFedByMatch(sh, 2, h.slot);
      var x := Up(sh, 2, h.slot);
      MinorIsPlayed(sides, 1, x.slot);
      assert Dest(sh, x) == Lands(x);
    }
  }

  /** The other side of a round-3 match brings up a different half, of a different region. */
  lemma NeighbourElsewhere(m: nat, j: nat)
    requires m >= 2 && j < Pow2(m)
    ensures var i := 2 * (j / 2) + 1 - j % 2;
            i < Pow2(m) && i != Pow2(m) - 1 - j && Pow2(m) - 1 - i != Pow2(m) - 1 - j
  {
    assert Pow2(m) == 4 * Pow2(m - 2);
  }

  lemma ApartFromBoth<T>(a: set<T>, b: set<T>, c: set<T>, d: set<T>)
    requires a <= b + c && b !! d && c !! d
    ensures a !! d
  {
  }

  lemma SkippedApart(sides: seq<Team>, j: nat, s: nat)
    requires DistinctTeams(sides) && Rounds(sides) >= 4 && ValidMatch(LoserShape(sides), 2, j)
    requires j + s + 1 == Pow2(Rounds(sides) - 2)
    ensures ValidSpot(LoserShape(sides), OtherSide(Up(LoserShape(sides), 2, j)))
    ensures SpotTeams(sides, OtherSide(Up(LoserShape(sides), 2, j))) !! Region(sides, 2, s)
  {
    var i := AcrossInRound3(sides, j);
    NeighbourElsewhere(Rounds(sides) - 2, j);
    var m := Pow2(Rounds(sides) - 2) - 1 - i;
    RegionsApart(sides, 2, i, s);
    RegionsApart(sides, 2, m, s);
    ApartFromBoth(SpotTeams(sides, OtherSide(Up(LoserShape(sides), 2, j))),
                  Region(sides, 2, i), Region(sides, 2, m), Region(sides, 2, s));
  }

  /** Who comes up opposite whoever skips match (2, j): the teams of its neighbour. */
  lemma AcrossInRound3(sides: seq<Team>, j: nat) returns (i: nat)
    requires Rounds(sides) >= 3 && ValidMatch(LoserShape(sides), 2, j)
    ensures j < Pow2(Rounds(sides) - 2) && i == 2 * (j / 2) + 1 - j % 2 < Pow2(Rounds(sides) - 2)
    ensures var o := OtherSide(Up(LoserShape(sides), 2, j));
            ValidSpot(LoserShape(sides), o)
            && SpotTeams(sides, o) <= Region(sides, 2, i) + Region(sides, 2, Pow2(Rounds(sides) - 2) - 1 - i)
  {
    var sh := LoserShape(sides);
    DropWidth(sh, 2);
    UpIsFedByMatch(sh, 2, j);
    var o := OtherSide(Up(sh, 2, j));
    i := 2 * (j / 2) + 1 - j % 2;
    FeederIsBelow(sh, o);
    assert FeederOf(sh, o) == FromMatch(2, i);
    MatchTeams2(sides, i);
  }

  /** The teams of losers round 2, match `i`. */
  lemma MatchTeams2(sides: seq<Team>, i: nat)
    requires Rounds(sides) >= 2 && ValidMatch(LoserShape(sides), 2, i)
    ensures i < Pow2(Rounds(sides) - 2)
    ensures SpotTeams(sides, Spot(2, i, 1)) + SpotTeams(sides, Spot(2, i, 2))
            <= Region(sides, 2, i) + Region(sides, 2, Pow2(Rounds(sides) - 2) - 1 - i)
  {
    ComingUpToRound2(sides, i);
    Round2Teams(sides, i);
  }

  /** The losers of winners round `r` are kept apart, and the first match is not the exception: with
      five teams, nobody comes up to meet the loser of winners match (2, 0). */
  predicate Sheltered(sides: seq<Team>, r: nat, s: nat) {
    KeptApart(sides, r) && !(r == 2 && |sides| == 5 && s == 0)
  }

  lemma SmallPowers(k: nat)
    ensures Pow2(1) == 2 && Pow2(3) == 8 && (k <= 2 ==> Pow2(k) <= 4)
  {
    if k <= 2 {
      Pow2Monotone(k, 2);
    }
  }

  lemma DeepIsLarge(sides: seq<Team>, r: nat)
    requires KeptApart(sides, r)
    ensures |sides| >= 5
    ensures Rounds(sides) == 3 && |sides| >= 6 ==> Pow2(3) - |sides| <= Pow2(1)
  {
    var k := Rounds(sides);
    SmallPowers(k);
    CeilLog2Unique(2, 1);
    Pow2Monotone(2, k - 1);
    assert Pow2(2) == 2 * Pow2(1);
  }

  /** At home in the round it drops into, a winners loser is met by nobody from its own part. */
  lemma HomeApart(sides: seq<Team>, r: nat, s: nat)
    requires DistinctTeams(sides) && KeptApart(sides, r) && s < Pow2(Rounds(sides) - r)
    ensures ValidSpot(LoserShape(sides), Home(LoserShape(sides), Source(r, s)))
    ensures SpotTeams(sides, OtherSide(Home(LoserShape(sides), Source(r, s)))) !! Region(sides, r, s)
  {
    var sh := LoserShape(sides);
    HomeIsFedBySource(sh, Source(r, s));
    var h := Home(sh, Source(r, s));
    DropWidth(sh, r);
    ComeAroundInvolution(r, Rounds(sides) - r, s);
    DropsApart(sides, r, h.slot);
    assert OtherSide(h) == Spot(2 * (r - 1), h.slot, 1);
  }

  /** In a field of five, the first losers match has somebody in it. */
  lemma FiveComeUp(sides: seq<Team>)
    requires |sides| == 5 && Rounds(sides) == 3
    ensures In(LoserShape(sides), Spot(1, 0, 2)) != Bye
  {
    SmallPowers(2);
    Bracket.OpeningSides(sides, 1);
    SeedOrder.Pairing(2, 0);
    SeedOrder.SeedInRange(0, 0);
    assert SeedOrder.SeedOn(2, 1) == 4;
    assert Alive(sides, 1, 1);
  }

  /** In a bracket of eight lines somebody comes up to losers match (2, j), but to the second with
      five teams. */
  lemma ComesUpOfEight(sides: seq<Team>, j: nat)
    requires Rounds(sides) == 3 && j < 2 && (|sides| == 5 ==> j == 0)
    ensures In(LoserShape(sides), Spot(1, j, 2)) != Bye
  {
    DeepIsLarge(sides, 2);
    SmallPowers(1);
    if |sides| == 5 {
      FiveComeUp(sides);
    } else {
      OddSlotPlays(sides, j);
    }
  }

  /** Somebody who waits in the first losers round comes up. */
  lemma WaiterComesUp(sides: seq<Team>, j: nat)
    requires Rounds(sides) >= 2 && ValidMatch(LoserShape(sides), 2, j)
    requires ValidSpot(LoserShape(sides), Spot(1, j, 2)) && In(LoserShape(sides), Spot(1, j, 2)) != Bye
    ensures In(LoserShape(sides), Spot(2, j, 1)) != Bye
  {
    FeederIsBelow(LoserShape(sides), Spot(2, j, 1));
    assert FeederOf(LoserShape(sides), Spot(2, j, 1)) == FromMatch(1, j);
  }

  /** In a bracket of eight lines somebody meets the dropped team at once. */
  lemma MetInEight(sides: seq<Team>, s: nat)
    requires Sheltered(sides, 2, s) && Rounds(sides) == 3 && s < Pow2(1)
    requires ValidSpot(LoserShape(sides), Home(LoserShape(sides), Source(2, s)))
    ensures In(LoserShape(sides), OtherSide(Home(LoserShape(sides), Source(2, s)))) != Bye
  {
    var j := Home(LoserShape(sides), Source(2, s)).slot;
    SmallPowers(1);
    SkippedFrom(sides, s);
    ComesUpOfEight(sides, j);
    FeederIsBelow(LoserShape(sides), Spot(2, j, 1));
    WaiterComesUp(sides, j);
  }

  /** When nobody comes up to meet a winners-round-2 loser, the bracket has four rounds or more. */
  lemma OnlyDeepSkips(sides: seq<Team>, s: nat)
    requires Sheltered(sides, 2, s) && s < Pow2(Rounds(sides) - 2)
    requires ValidSpot(LoserShape(sides), Home(LoserShape(sides), Source(2, s)))
    requires In(LoserShape(sides), OtherSide(Home(LoserShape(sides), Source(2, s)))) == Bye
    ensures Rounds(sides) >= 4
  {
    if Rounds(sides) == 3 {
      MetInEight(sides, s);
    }
  }

  /** Wherever the loser of winners match (r, s) lands, nobody from its own part of the winners
      bracket can be waiting. */
  lemma LandsApart(sides: seq<Team>, r: nat, s: nat) returns (x: Spot)
    requires DistinctTeams(sides) && Sheltered(sides, r, s) && s < Pow2(Rounds(sides) - r)
    ensures Producer(LoserShape(sides), Loser(Source(r, s)))
    ensures FeedFor(LoserShape(sides), Loser(Source(r, s))) == Lands(x) && ValidSpot(LoserShape(sides), x)
    ensures SpotTeams(sides, OtherSide(x)) !! Region(sides, r, s)
  {
    var sh := LoserShape(sides);
    if r == 3 {
      Round3LandsHome(sides, s);
      HomeApart(sides, r, s);
      x := Home(sh, Source(3, s));
    } else {
      x := Round2Apart(sides, s);
    }
  }

  lemma Round2Apart(sides: seq<Team>, s: nat) returns (x: Spot)
    requires DistinctTeams(sides) && Sheltered(sides, 2, s) && s < Pow2(Rounds(sides) - 2)
    ensures Producer(LoserShape(sides), Loser(Source(2, s)))
    ensures FeedFor(LoserShape(sides), Loser(Source(2, s))) == Lands(x) && ValidSpot(LoserShape(sides), x)
    ensures SpotTeams(sides, OtherSide(x)) !! Region(sides, 2, s)
  {
    var sh := LoserShape(sides);
    Round2LandsNear(sides, s);
    FeedIsRight(sh, Loser(Source(2, s)));
    var h := Home(sh, Source(2, s));
    if In(sh, OtherSide(h)) != Bye {
      HomeApart(sides, 2, s);
      x := h;
    } else {
      OnlyDeepSkips(sides, s);
      SkippedFrom(sides, s);
      SkippedApart(sides, h.slot, s);
      x := Up(sh, 2, h.slot);
    }
  }

  /** Which winners-round-2 match drops into match (2, j): the one across. */
  lemma SkippedFrom(sides: seq<Team>, s: nat)
    requires Rounds(sides) >= 2 && s < Pow2(Rounds(sides) - 2)
    ensures Pow2(Rounds(sides) - 2) - 1 - Home(LoserShape(sides), Source(2, s)).slot == s
    ensures Home(LoserShape(sides), Source(2, s)).slot < Pow2(Rounds(sides) - 2)
  {
  }

  // --- the bounds after renumbering ------------------------------------------------------------

  lemma OriginalOf(plan: Plan, out: Plan, present: set<nat>, id: MatchId)
    requires RenamedPlan(plan, out, present) && id in plan
    ensures HasOriginal(plan, present, RenameId(present, id))
    ensures Original(plan, present, RenameId(present, id)) == id
  {
    RenameIsInjective(present, id, Original(plan, present, RenameId(present, id)));
  }

  ghost function OriginalSeat(plan: Plan, present: set<nat>, o: Entry): (e: Entry)
    requires HasOriginal(plan, present, o.node) && (o.team == 1 || o.team == 2)
    ensures IsEntry(plan, e)
  {
    Entry(Original(plan, present, o.node), o.team)
  }

  ghost function RenamedFrom(plan: Plan, out: Plan, present: set<nat>, from: map<Entry, set<Team>>): map<Entry, set<Team>>
    requires RenamedPlan(plan, out, present) && forall e | IsEntry(plan, e) :: e in from
  {
    map o | o in Seats(out) :: from[OriginalSeat(plan, present, o)]
  }

  ghost function RenamedIds(present: set<nat>, ids: set<MatchId>): set<MatchId> {
    set m | m in ids :: RenameId(present, m)
  }

  ghost function RenamedVia(plan: Plan, out: Plan, present: set<nat>, via: map<Entry, set<MatchId>>)
    : map<Entry, set<MatchId>>
    requires RenamedPlan(plan, out, present) && forall e | IsEntry(plan, e) :: e in via
  {
    map o | o in Seats(out) :: RenamedIds(present, via[OriginalSeat(plan, present, o)])
  }

  lemma RenamedBounds(plan: Plan, out: Plan, present: set<nat>, from: map<Entry, set<Team>>, via: map<Entry, set<MatchId>>,
                      e: Entry)
    requires RenamedPlan(plan, out, present) && IsEntry(plan, e)
    requires forall x | IsEntry(plan, x) :: x in from && x in via
    ensures var o := RenameEntry(present, e);
            && o in RenamedFrom(plan, out, present, from) && RenamedFrom(plan, out, present, from)[o] == from[e]
            && o in RenamedVia(plan, out, present, via)
            && RenamedVia(plan, out, present, via)[o] == RenamedIds(present, via[e])
  {
    OriginalOf(plan, out, present, e.node);
    var o := RenameEntry(present, e);
    assert o in Seats(out) && OriginalSeat(plan, present, o) == e;
  }

  lemma RenamedFedFrom(plan: Plan, out: Plan, present: set<nat>, from: map<Entry, set<Team>>, via: map<Entry, set<MatchId>>,
                       r: Result, e: Entry)
    requires RenamedPlan(plan, out, present) && IsEntry(plan, e) && r.node in plan
    requires forall x | IsEntry(plan, x) :: x in from && x in via
    requires FedFrom(r, e, from, via)
    ensures FedFrom(RenameResult(present, r), RenameEntry(present, e),
                    RenamedFrom(plan, out, present, from), RenamedVia(plan, out, present, via))
  {
    RenamedBounds(plan, out, present, from, via, e);
    RenamedBounds(plan, out, present, from, via, Entry(r.node, 1));
    RenamedBounds(plan, out, present, from, via, Entry(r.node, 2));
  }

  /** Bounds that are closed stay closed when the rounds are renumbered. */
  lemma RenamedClosed(plan: Plan, source: map<Entry, Result>, out: Plan, present: set<nat>,
                      from: map<Entry, set<Team>>, via: map<Entry, set<MatchId>>)
    requires RenamedPlan(plan, out, present) && FedBy(plan, source) && Closed(plan, from, via)
    ensures Closed(out, RenamedFrom(plan, out, present, from), RenamedVia(plan, out, present, via))
  {
    forall o | IsSeeded(out, o) ensures SeedAt(out, o) in RenamedFrom(plan, out, present, from)[o] {
      var e := OriginalSeat(plan, present, o);
      assert IsSeeded(plan, e) && SeedAt(plan, e) == SeedAt(out, o);
    }
    forall r: Result | r.node in out && FeedOf(out, r).To?
      ensures FedFrom(r, FeedOf(out, r).entry, RenamedFrom(plan, out, present, from), RenamedVia(plan, out, present, via))
    {
      var r0 := Result(Original(plan, present, r.node), r.won);
      RenamedFeed(plan, out, present, r0);
      assert source[FeedOf(plan, r0).entry] == r0;
      RenamedFedFrom(plan, out, present, from, via, r0, FeedOf(plan, r0).entry);
    }
  }

  // --- no rematch on the drop --------------------------------------------------------------------

  /** The drop of winners match (r, s), about to be played: who is on the other side. */
  ghost predicate NewOpponent(sides: seq<Team>, st: State, r: nat, s: nat, e: Entry)
    requires r >= 1
  {
    && e in st.seats && OtherSeat(e) in st.seats
    && st.seats[e] in Region(sides, r, s) && st.seats[OtherSeat(e)] !in Region(sides, r, s)
    && !HaveMet(st.log, st.seats[e], st.seats[OtherSeat(e)])
  }

  /** The draw as it was before its losers rounds were renumbered. */
  lemma BeforeRenumbering(sides: seq<Team>, plan: DoubleElimPlan) returns (before: Plan, present: set<nat>)
    requires Rounds(sides) >= 2 && IsDoubleElim(sides, plan)
    ensures IsStructuralPlan(sides, before) && RenamedPlan(before, DrawOf(plan), present)
  {
    var ms :| IsStructural(sides, ms) && Renumbered(ms, plan.matches, LosersRounds(ms));
    PlanOfStructural(sides, ms);
    PlayableIsRenamed(ms, plan.matches);
    before, present := Playable(ms), LosersRounds(ms);
  }

  lemma DrawBefore(sides: seq<Team>, before: Plan, out: Plan, present: set<nat>)
    requires |sides| >= 2 && DistinctTeams(sides) && Rounds(sides) >= 2
    requires IsStructuralPlan(sides, before) && RenamedPlan(before, out, present)
    ensures FedBy(before, StructuralSource(sides, before)) && DistinctSeeds(out)
    ensures FedBy(out, RenamedSource(before, StructuralSource(sides, before), out, present))
    ensures Closed(before, From(sides, before), Via(sides, before))
  {
    StructuralPlanIsWired(sides, before);
    var source := StructuralSource(sides, before);
    RenamedIsWired(before, source, out, present);
    RenamedIsDraw(sides, before, out, present);
    DrawHasDistinctSeeds(sides, out);
    BoundsAreClosed(sides, before, source);
  }

  /** Whatever has happened so far: in the first match it plays after dropping, wherever byes have
      moved that to, the loser of a winners-round-2 match (in a bracket of 8 or more, but for one
      match of a field of five) or -3 match (in a bracket of 32 or more) is about to meet a team
      from outside its own part of the winners bracket, whom it has not met before. */
  lemma NoRematchOnTheDrop(sides: seq<Team>, plan: DoubleElimPlan, calls: seq<Call>, r: nat, s: nat, e: Entry)
    requires DistinctTeams(sides) && Sheltered(sides, r, s) && IsDoubleElim(sides, plan)
    requires Legal(DrawOf(plan), Start(DrawOf(plan)), calls)
    requires MatchId(Winners, r, s) in DrawOf(plan) && DrawOf(plan)[MatchId(Winners, r, s)].lose == To(e)
    requires Ready(DrawOf(plan), PlayAll(DrawOf(plan), Start(DrawOf(plan)), calls), e.node)
    ensures NewOpponent(sides, PlayAll(DrawOf(plan), Start(DrawOf(plan)), calls), r, s, e)
  {
    DeepIsLarge(sides, r);
    var before, present := BeforeRenumbering(sides, plan);
    NobodyMetOnTheDrop(sides, before, DrawOf(plan), present, calls, r, s, e);
  }

  /** The same of any renumbering `out` of the draw. */
  lemma NobodyMetOnTheDrop(sides: seq<Team>, before: Plan, out: Plan, present: set<nat>, calls: seq<Call>,
                           r: nat, s: nat, e: Entry)
    requires |sides| >= 2 && DistinctTeams(sides) && Sheltered(sides, r, s)
    requires IsStructuralPlan(sides, before) && RenamedPlan(before, out, present)
    requires Legal(out, Start(out), calls)
    requires MatchId(Winners, r, s) in out && out[MatchId(Winners, r, s)].lose == To(e)
    requires Ready(out, PlayAll(out, Start(out), calls), e.node)
    ensures NewOpponent(sides, PlayAll(out, Start(out), calls), r, s, e)
  {
    var source := StructuralSource(sides, before);
    DrawBefore(sides, before, out, present);
    RenamedHistory(sides, before, source, out, present, calls);
    DropKeepsApart(sides, before, out, present, r, s, e);
    MeetingOnTheDrop(sides, out, RenamedSource(before, source, out, present), PlayAll(out, Start(out), calls),
                     RenamedFrom(before, out, present, From(sides, before)),
                     RenamedVia(before, out, present, Via(sides, before)), r, s, e);
  }

  /** What every run of the renumbered plan keeps. */
  lemma RenamedHistory(sides: seq<Team>, before: Plan, source: map<Entry, Result>, out: Plan, present: set<nat>,
                       calls: seq<Call>)
    requires Rounds(sides) >= 2 && RenamedPlan(before, out, present) && FedBy(before, source)
    requires FedBy(out, RenamedSource(before, source, out, present)) && DistinctSeeds(out)
    requires Closed(before, From(sides, before), Via(sides, before)) && Legal(out, Start(out), calls)
    ensures var st := PlayAll(out, Start(out), calls);
            && Sound(out, RenamedSource(before, source, out, present), st)
            && SeatedWithin(out, st, RenamedFrom(before, out, present, From(sides, before)))
            && PlayedWithin(st, RenamedFrom(before, out, present, From(sides, before)),
                            RenamedVia(before, out, present, Via(sides, before)))
  {
    var from := RenamedFrom(before, out, present, From(sides, before));
    var via := RenamedVia(before, out, present, Via(sides, before));
    var renamed := RenamedSource(before, source, out, present);
    RenamedClosed(before, source, out, present, From(sides, before), Via(sides, before));
    StartSound(out, renamed);
    StartHistory(out, from, via);
    RunKeepsHistory(out, renamed, Start(out), calls, from, via);
  }

  /** Matches below (r, s) only ever seat teams that start there. */
  lemma BelowSeatsRegion(sides: seq<Team>, plan: Plan, r: nat, s: nat, m: MatchId)
    requires Rounds(sides) >= 2 && m in Below(plan, r, s) && m.round >= 1
    ensures WhoMaySit(sides, Entry(m, 1)) + WhoMaySit(sides, Entry(m, 2)) <= Region(sides, r, s)
  {
    RegionsNest(sides, m.round, m.slot, r - m.round);
  }

  /** Winners matches keep their names, and so do the bounds on who sits in them. */
  lemma RenamedWinners(sides: seq<Team>, before: Plan, out: Plan, present: set<nat>, m: MatchId, t: nat)
    requires Rounds(sides) >= 2 && RenamedPlan(before, out, present)
    requires m in before && m.group == Winners && (t == 1 || t == 2)
    ensures Entry(m, t) in RenamedFrom(before, out, present, From(sides, before))
    ensures RenamedFrom(before, out, present, From(sides, before))[Entry(m, t)] == WhoMaySit(sides, Entry(m, t))
  {
    RenamedBounds(before, out, present, From(sides, before), Via(sides, before), Entry(m, t));
  }

  /** The seats of the match the loser of winners match (r, s) drops into, renumbered. */
  lemma DropSeat(sides: seq<Team>, before: Plan, out: Plan, present: set<nat>, r: nat, s: nat, e: Entry) returns (x: Spot)
    requires DistinctTeams(sides) && Sheltered(sides, r, s)
    requires IsStructuralPlan(sides, before) && RenamedPlan(before, out, present)
    requires MatchId(Winners, r, s) in out && out[MatchId(Winners, r, s)].lose == To(e)
    ensures MatchId(Losers, x.round, x.slot) in before
    ensures e == RenameEntry(present, Entry(MatchId(Losers, x.round, x.slot), x.team)) && (x.team == 1 || x.team == 2)
    ensures ValidSpot(LoserShape(sides), x) && In(LoserShape(sides), x) == Loser(Source(r, s))
    ensures Emitted(LoserShape(sides), x.round, x.slot)
    ensures SpotTeams(sides, OtherSide(x)) !! Region(sides, r, s)
  {
    WinnersKeepNames(before, out, present, r, s);
    RightSlot(sides, before, r, s);
    x := DropSpot(sides, r, s);
    DropFeed(sides, before, r, s, x);
  }

  lemma RightSlot(sides: seq<Team>, before: Plan, r: nat, s: nat)
    requires Rounds(sides) >= 2 && IsStructuralPlan(sides, before) && MatchId(Winners, r, s) in before
    ensures r <= Rounds(sides) && s < Pow2(Rounds(sides) - r)
  {
    NodeInRange(before, sides, Winners, To(Entry(GRAND_FINAL, 1)), MatchId(Winners, r, s));
  }

  lemma DropSpot(sides: seq<Team>, r: nat, s: nat) returns (x: Spot)
    requires DistinctTeams(sides) && Sheltered(sides, r, s)
    requires r <= Rounds(sides) && s < Pow2(Rounds(sides) - r)
    ensures Producer(LoserShape(sides), Loser(Source(r, s)))
    ensures FeedFor(LoserShape(sides), Loser(Source(r, s))) == Lands(x)
    ensures ValidSpot(LoserShape(sides), x) && In(LoserShape(sides), x) == Loser(Source(r, s))
    ensures Emitted(LoserShape(sides), x.round, x.slot)
    ensures SpotTeams(sides, OtherSide(x)) !! Region(sides, r, s)
  {
    x := LandsApart(sides, r, s);
    FeedIsRight(LoserShape(sides), Loser(Source(r, s)));
  }

  lemma DropFeed(sides: seq<Team>, before: Plan, r: nat, s: nat, x: Spot)
    requires Rounds(sides) >= 2 && IsStructuralPlan(sides, before) && MatchId(Winners, r, s) in before
    requires Producer(LoserShape(sides), Loser(Source(r, s)))
    requires FeedFor(LoserShape(sides), Loser(Source(r, s))) == Lands(x) && Emitted(LoserShape(sides), x.round, x.slot)
    ensures before[MatchId(Winners, r, s)].lose == To(Entry(MatchId(Losers, x.round, x.slot), x.team))
    ensures MatchId(Losers, x.round, x.slot) in before
  {
  }

  lemma WinnersKeepNames(before: Plan, out: Plan, present: set<nat>, r: nat, s: nat)
    requires RenamedPlan(before, out, present) && MatchId(Winners, r, s) in out
    ensures MatchId(Winners, r, s) in before
    ensures out[MatchId(Winners, r, s)].lose == RenameFeed(present, before[MatchId(Winners, r, s)].lose)
  {
    var id := MatchId(Winners, r, s);
    assert Original(before, present, id) == id;
    assert RenameId(present, id) == id;
  }

  /** The bounds on seat `e` and on the one opposite keep the two teams apart. */
  ghost predicate KeepsApart(sides: seq<Team>, from: map<Entry, set<Team>>, via: map<Entry, set<MatchId>>,
                             r: nat, s: nat, e: Entry)
    requires r >= 1
  {
    && (e.team == 1 || e.team == 2) && e in from && OtherSeat(e) in from && e in via
    && from[e] <= Region(sides, r, s) && from[OtherSeat(e)] !! Region(sides, r, s)
    && (forall m | m in via[e] :: SeatsOnly(from, m, Region(sides, r, s)))
  }

  ghost predicate SeatsOnly(from: map<Entry, set<Team>>, m: MatchId, teams: set<Team>) {
    && Entry(m, 1) in from && Entry(m, 2) in from
    && from[Entry(m, 1)] <= teams && from[Entry(m, 2)] <= teams
  }

  /** The bounds on the seat a winners loser takes: its own part of the bracket, and the matches there. */
  lemma DropBounds(sides: seq<Team>, before: Plan, out: Plan, present: set<nat>, r: nat, s: nat, x: Spot, e: Entry)
    requires Rounds(sides) >= 2 && r >= 1 && RenamedPlan(before, out, present)
    requires MatchId(Losers, x.round, x.slot) in before && ValidSpot(LoserShape(sides), x)
    requires e == RenameEntry(present, Entry(MatchId(Losers, x.round, x.slot), x.team))
    requires In(LoserShape(sides), x) == Loser(Source(r, s))
    ensures e in RenamedFrom(before, out, present, From(sides, before))
    ensures RenamedFrom(before, out, present, From(sides, before))[e] == Region(sides, r, s)
    ensures e in RenamedVia(before, out, present, Via(sides, before))
    ensures RenamedVia(before, out, present, Via(sides, before))[e] == RenamedIds(present, Below(before, r, s))
  {
    var e0 := Entry(MatchId(Losers, x.round, x.slot), x.team);
    RenamedBounds(before, out, present, From(sides, before), Via(sides, before), e0);
    assert WhoMaySit(sides, e0) == Region(sides, r, s);
    assert MayHavePlayed(sides, before, e0) == Below(before, r, s);
  }

  lemma OppositeBounds(sides: seq<Team>, before: Plan, out: Plan, present: set<nat>, y: Spot, o: Entry)
    requires Rounds(sides) >= 2 && RenamedPlan(before, out, present)
    requires MatchId(Losers, y.round, y.slot) in before && ValidSpot(LoserShape(sides), y)
    requires Emitted(LoserShape(sides), y.round, y.slot)
    requires o == RenameEntry(present, Entry(MatchId(Losers, y.round, y.slot), y.team))
    ensures o in RenamedFrom(before, out, present, From(sides, before))
    ensures RenamedFrom(before, out, present, From(sides, before))[o] <= SpotTeams(sides, y)
  {
    var o0 := Entry(MatchId(Losers, y.round, y.slot), y.team);
    RenamedBounds(before, out, present, From(sides, before), Via(sides, before), o0);
    SeatTeamsCanCome(sides, y);
    assert WhoMaySit(sides, o0) == SeatTeams(sides, y);
  }

  lemma DropKeepsApart(sides: seq<Team>, before: Plan, out: Plan, present: set<nat>, r: nat, s: nat, e: Entry)
    requires |sides| >= 2 && DistinctTeams(sides) && Sheltered(sides, r, s)
    requires IsStructuralPlan(sides, before) && RenamedPlan(before, out, present)
    requires MatchId(Winners, r, s) in out && out[MatchId(Winners, r, s)].lose == To(e)
    ensures KeepsApart(sides, RenamedFrom(before, out, present, From(sides, before)),
                       RenamedVia(before, out, present, Via(sides, before)), r, s, e)
  {
    var x := DropSeat(sides, before, out, present, r, s, e);
    WholePastOfDrop(sides, before, out, present, r, s);
    SeatsKeptApart(sides, before, out, present, r, s, x, e);
  }

  lemma WholePastOfDrop(sides: seq<Team>, before: Plan, out: Plan, present: set<nat>, r: nat, s: nat)
    requires |sides| >= 2 && Rounds(sides) >= 2 && r >= 1
    requires IsStructuralPlan(sides, before) && RenamedPlan(before, out, present)
    ensures forall m | m in RenamedIds(present, Below(before, r, s)) ::
              SeatsOnly(RenamedFrom(before, out, present, From(sides, before)), m, Region(sides, r, s))
  {
    forall m | m in RenamedIds(present, Below(before, r, s))
      ensures SeatsOnly(RenamedFrom(before, out, present, From(sides, before)), m, Region(sides, r, s))
    {
      PastOfDrop(sides, before, out, present, r, s, m);
    }
  }

  lemma SeatsKeptApart(sides: seq<Team>, before: Plan, out: Plan, present: set<nat>, r: nat, s: nat, x: Spot, e: Entry)
    requires Rounds(sides) >= 2 && r >= 1 && RenamedPlan(before, out, present)
    requires ValidSpot(LoserShape(sides), x) && Emitted(LoserShape(sides), x.round, x.slot)
    requires MatchId(Losers, x.round, x.slot) in before
    requires e == RenameEntry(present, Entry(MatchId(Losers, x.round, x.slot), x.team))
    requires In(LoserShape(sides), x) == Loser(Source(r, s))
    requires SpotTeams(sides, OtherSide(x)) !! Region(sides, r, s)
    requires forall m | m in RenamedIds(present, Below(before, r, s)) ::
               SeatsOnly(RenamedFrom(before, out, present, From(sides, before)), m, Region(sides, r, s))
    ensures KeepsApart(sides, RenamedFrom(before, out, present, From(sides, before)),
                       RenamedVia(before, out, present, Via(sides, before)), r, s, e)
  {
    DropBounds(sides, before, out, present, r, s, x, e);
    OppositeBounds(sides, before, out, present, OtherSide(x), OtherSeat(e));
  }

  lemma MeetingOnTheDrop(sides: seq<Team>, plan: Plan, source: map<Entry, Result>, st: State,
                         from: map<Entry, set<Team>>, via: map<Entry, set<MatchId>>, r: nat, s: nat, e: Entry)
    requires r >= 1 && Sound(plan, source, st) && SeatedWithin(plan, st, from) && PlayedWithin(st, from, via)
    requires KeepsApart(sides, from, via, r, s, e) && Ready(plan, st, e.node)
    ensures NewOpponent(sides, st, r, s, e)
  {
    assert e == Entry(e.node, 1) || e == Entry(e.node, 2);
    assert st.seats[e] in from[e] && st.seats[OtherSeat(e)] in from[OtherSeat(e)];
    forall m | m in via[e] && Entry(m, 1) in from && Entry(m, 2) in from
      ensures st.seats[OtherSeat(e)] !in from[Entry(m, 1)] + from[Entry(m, 2)]
    {
      assert SeatsOnly(from, m, Region(sides, r, s));
    }
    NotMetBefore(plan, source, st, e, from, via);
  }

  /** A match below winners match (r, s) seats nobody from outside that part of the bracket. */
  lemma PastOfDrop(sides: seq<Team>, before: Plan, out: Plan, present: set<nat>, r: nat, s: nat, m: MatchId)
    requires |sides| >= 2 && Rounds(sides) >= 2 && r >= 1
    requires IsStructuralPlan(sides, before) && RenamedPlan(before, out, present)
    requires m in RenamedIds(present, Below(before, r, s))
    ensures SeatsOnly(RenamedFrom(before, out, present, From(sides, before)), m, Region(sides, r, s))
  {
    var m0 :| m0 in Below(before, r, s) && RenameId(present, m0) == m;
    RenamedWinners(sides, before, out, present, m, 1);
    RenamedWinners(sides, before, out, present, m, 2);
    BelowSeatsRegion(sides, before, r, s, m);
  }
}
