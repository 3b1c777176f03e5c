/** Who drops where, told from the finished double elimination alone: every match of the losers bracket, and the feed
    of every loser and every losers-bracket winner, for any number of entrants. */
module LosersTable {
  import opened Draws
  import opened Powers
  import opened Knockout
  import opened Collapse
  import opened DoubleElim
  import opened DoubleElimPlay
  import Bracket
  import ComeAroundDrops
  import Relabel
  import SeedOrder

  // --- the table ------------------------------------------------------------------------------

  predicate Played(draw: Plan, r: nat, s: nat) {
    MatchId(Winners, r, s) in draw
  }

  /** A losers match by its round before renumbering: round numbers are one lower when round 1 is empty, that is
      when no two neighbouring first-round matches are played. */
  function LosersMatch(gap: nat, l: nat, j: nat): MatchId
    requires l >= gap
  {
    MatchId(Losers, l - gap, j)
  }

  ghost predicate NeighboursPlay(draw: Plan, k: nat) {
    exists j: nat :: BothPlay(draw, k, j)
  }

  predicate BothPlay(draw: Plan, k: nat, j: nat) {
    k >= 2 && j < Pow2(k - 2) && Played(draw, 1, 2 * j) && Played(draw, 1, 2 * j + 1)
  }

  /** Losers round 1 has a match where two neighbouring first-round matches are played, round 2 where one of them is,
      and every later round has all its matches: as many as rounds 2 and before halved every other round. */
  predicate Exists(draw: Plan, k: nat, l: nat, j: nat) {
    && k >= 2 && 1 <= l <= 2 * (k - 1) && j < Pow2(k - 1 - (l + 1) / 2)
    && (l == 1 ==> Played(draw, 1, 2 * j) && Played(draw, 1, 2 * j + 1))
    && (l == 2 ==> Played(draw, 1, 2 * j) || Played(draw, 1, 2 * j + 1))
  }

  /** The place in losers round 2 (r - 1) where the loser of place `s` of winners round `r` drops in: the order is
      turned round after even rounds, and shifted by half after odd ones. */
  function DropPlace(k: nat, r: nat, s: nat): nat {
    var cnt := if r <= k then Pow2(k - r) else 1;
    if s >= cnt then 0
    else if r % 2 == 0 || cnt == 1 then cnt - 1 - s
    else if s < cnt / 2 then s + cnt / 2 else s - cnt / 2
  }

  /** Where the loser of winners match (r, s) goes. */
  function LoserLands(draw: Plan, k: nat, gap: nat, r: nat, s: nat): Feed
    requires gap <= 1
  {
    if r <= 1 then
      if Played(draw, 1, if s % 2 == 0 then s + 1 else s - 1) && gap == 0 then
        To(Entry(LosersMatch(gap, 1, s / 2), s % 2 + 1))
      else To(Entry(LosersMatch(gap, 2, s / 2), 1))
    else
      var j := DropPlace(k, r, s);
      if r > 2 || Played(draw, 1, 2 * j) || Played(draw, 1, 2 * j + 1) then
        To(Entry(LosersMatch(gap, 2 * (r - 1), j), 2))
      else if k == 2 then To(Entry(GRAND_FINAL, 2))
      else To(Entry(LosersMatch(gap, 3, j / 2), j % 2 + 1))
  }

  /** Where the winner of losers match (l, j) goes. */
  function LosersWinnerLands(k: nat, gap: nat, l: nat, j: nat): Feed
    requires gap <= 1 && l >= gap
  {
    if k >= 1 && l == 2 * (k - 1) then To(Entry(GRAND_FINAL, 2))
    else if l % 2 == 1 then To(Entry(LosersMatch(gap, l + 1, j), 1))
    else To(Entry(LosersMatch(gap, l + 1, j / 2), j % 2 + 1))
  }

  // --- before renumbering ---------------------------------------------------------------------

  lemma OpeningIsEmitted(sides: seq<Team>, j: nat)
    requires Rounds(sides) >= 2 && j < Pow2(Rounds(sides) - 2)
    ensures ValidMatch(LoserShape(sides), 1, j)
    ensures forall t | t == 1 || t == 2 ::
              In(LoserShape(sides), Spot(1, j, t)) != Bye <==> Alive(sides, 1, 2 * j + t - 1)
  {
    var sh, k := LoserShape(sides), Rounds(sides);
    assert Pow2(k - 1) == 2 * Pow2(k - 2);
    assert sh.Width(1) == Pow2(k - 2);
    DropsInto(sh, 1, j);
  }

  lemma FirstRound(sides: seq<Team>, j: nat)
    requires Rounds(sides) >= 2
    ensures Emitted(LoserShape(sides), 1, j)
            <==> j < Pow2(Rounds(sides) - 2) && Alive(sides, 1, 2 * j) && Alive(sides, 1, 2 * j + 1)
  {
    assert LoserShape(sides).Width(1) == Pow2(Rounds(sides) - 2);
    if j < Pow2(Rounds(sides) - 2) {
      OpeningIsEmitted(sides, j);
    }
  }

  lemma SecondRound(sides: seq<Team>, j: nat)
    requires Rounds(sides) >= 2 && j < Pow2(Rounds(sides) - 2)
    ensures ValidMatch(LoserShape(sides), 2, j) && In(LoserShape(sides), Spot(2, j, 2)) != Bye
    ensures In(LoserShape(sides), Spot(2, j, 1)) != Bye <==> Alive(sides, 1, 2 * j) || Alive(sides, 1, 2 * j + 1)
  {
    var sh := LoserShape(sides);
    DropWidth(sh, 2);
    DropsInto(sh, 2, j);
    FeederIsBelow(sh, Spot(2, j, 1));
    OpeningIsEmitted(sides, j);
  }

  /** Every match of round 3 or later is played. */
  lemma LaterRounds(sides: seq<Team>, l: nat, j: nat)
    requires Rounds(sides) >= 2 && l >= 3 && ValidMatch(LoserShape(sides), l, j)
    ensures Emitted(LoserShape(sides), l, j)
  {
    var sh := LoserShape(sides);
    if l % 2 == 1 {
      ComeAroundDrops.MinorIsPlayed(sides, l / 2, j);
    } else {
      DropsInto(sh, l, j);
      FeederIsBelow(sh, Spot(l, j, 1));
      LaterRounds(sides, l - 1, j);
    }
  }

  /** The sides a drop comes into are filled: nobody waits there. */
  lemma DropSideFilled(sides: seq<Team>, l: nat, j: nat)
    requires Rounds(sides) >= 2 && ValidMatch(LoserShape(sides), l, j) && l % 2 == 0
    ensures In(LoserShape(sides), Spot(l, j, 2)) != Bye
  {
    DropsInto(LoserShape(sides), l, j);
  }

  lemma WidthIs(sides: seq<Team>, l: nat, j: nat)
    requires Rounds(sides) >= 2
    ensures ValidMatch(LoserShape(sides), l, j)
            <==> 1 <= l <= 2 * (Rounds(sides) - 1) && j < Pow2(Rounds(sides) - 1 - (l + 1) / 2)
  {
  }

  /** The winner of a losers match goes to the next round. */
  lemma WinnerUp(sides: seq<Team>, l: nat, j: nat)
    requires Rounds(sides) >= 2 && Emitted(LoserShape(sides), l, j)
    ensures AsFeed(FeedFor(LoserShape(sides), Token.Winner(l, j))) == LosersWinnerLands(Rounds(sides), 0, l, j)
  {
    var sh := LoserShape(sides);
    if l < sh.Rounds() {
      UpIsFedByMatch(sh, l, j);
      var up := Up(sh, l, j);
      if l % 2 == 1 {
        DropSideFilled(sides, l + 1, j);
        assert OtherSide(up) == Spot(l + 1, j, 2);
      } else {
        LaterRounds(sides, l + 1, j / 2);
        assert up == Spot(up.round, up.slot, 1) || up == Spot(up.round, up.slot, 2);
      }
      assert Dest(sh, up) == Lands(up);
    }
  }

  lemma Neighbour(s: nat)
    ensures var n := if s % 2 == 0 then s + 1 else s - 1;
            n == 2 * (s / 2) + (if s % 2 == 0 then 1 else 0) && s == 2 * (s / 2) + s % 2
  {
  }

  /** The loser of a first-round match meets its neighbour's, or waits for whoever drops in next. */
  lemma OpeningLoser(sides: seq<Team>, s: nat)
    requires Rounds(sides) >= 2 && Alive(sides, 1, s)
    ensures Producer(LoserShape(sides), Loser(Source(1, s)))
    ensures AsFeed(FeedFor(LoserShape(sides), Loser(Source(1, s))))
         == if Alive(sides, 1, if s % 2 == 0 then s + 1 else s - 1) then To(Entry(MatchId(Losers, 1, s / 2), s % 2 + 1))
            else To(Entry(MatchId(Losers, 2, s / 2), 1))
  {
    var sh, j := LoserShape(sides), s / 2;
    assert Pow2(Rounds(sides) - 1) == 2 * Pow2(Rounds(sides) - 2);
    Neighbour(s);
    OpeningIsEmitted(sides, j);
    AliveIsProducer(sides, 1, s);
    HomeIsFedBySource(sh, Source(1, s));
    var h := Home(sh, Source(1, s));
    assert OtherSide(h) == Spot(1, j, if s % 2 == 0 then 2 else 1);
    if In(sh, OtherSide(h)) == Bye {
      UpIsFedByMatch(sh, 1, j);
      SecondRound(sides, j);
      assert Up(sh, 1, j) == Spot(2, j, 1) && OtherSide(Up(sh, 1, j)) == Spot(2, j, 2);
      assert Dest(sh, Up(sh, 1, j)) == Lands(Up(sh, 1, j));
    }
  }

  lemma DropPlaceComesAround(k: nat, r: nat, s: nat)
    requires 2 <= r <= k && s < Pow2(k - r)
    ensures DropPlace(k, r, s) == ComeAround(r, Pow2(k - r), s)
  {
    var cnt := Pow2(k - r);
    if r % 2 == 1 && cnt > 1 {
      assert cnt == 2 * Pow2(k - r - 1);
      WrapOnce(s + cnt / 2, cnt);
    }
  }

  lemma DropPlaceIsHome(sides: seq<Team>, r: nat, s: nat)
    requires Rounds(sides) >= 2 && 2 <= r <= Rounds(sides) && s < Pow2(Rounds(sides) - r)
    ensures ValidSource(LoserShape(sides), Source(r, s))
    ensures Home(LoserShape(sides), Source(r, s)) == Spot(2 * (r - 1), DropPlace(Rounds(sides), r, s), 2)
    ensures ValidSpot(LoserShape(sides), Home(LoserShape(sides), Source(r, s)))
  {
    DropPlaceComesAround(Rounds(sides), r, s);
    HomeIsFedBySource(LoserShape(sides), Source(r, s));
  }

  /** The loser of a later winners match drops into its round of the losers bracket, or skips one that is not played. */
  lemma LaterLoser(sides: seq<Team>, r: nat, s: nat)
    requires Rounds(sides) >= 2 && r >= 2 && Alive(sides, r, s)
    ensures Producer(LoserShape(sides), Loser(Source(r, s))) && r <= Rounds(sides) && s < Pow2(Rounds(sides) - r)
    ensures var j := DropPlace(Rounds(sides), r, s);
            AsFeed(FeedFor(LoserShape(sides), Loser(Source(r, s)))) ==
            if r > 2 || Alive(sides, 1, 2 * j) || Alive(sides, 1, 2 * j + 1) then
              To(Entry(MatchId(Losers, 2 * (r - 1), j), 2))
            else if Rounds(sides) == 2 then To(Entry(GRAND_FINAL, 2))
            else To(Entry(MatchId(Losers, 3, j / 2), j % 2 + 1))
  {
    AliveIsProducer(sides, r, s);
    DropPlaceIsHome(sides, r, s);
    if r == 2 {
      SecondRoundLoser(sides, s);
    } else {
      ThirdRoundLoser(sides, r, s);
    }
  }

  lemma ThirdRoundLoser(sides: seq<Team>, r: nat, s: nat)
    requires Rounds(sides) >= 2 && 3 <= r <= Rounds(sides) && s < Pow2(Rounds(sides) - r)
    requires Producer(LoserShape(sides), Loser(Source(r, s)))
    ensures FeedFor(LoserShape(sides), Loser(Source(r, s))) == Lands(Spot(2 * (r - 1), DropPlace(Rounds(sides), r, s), 2))
  {
    DropPlaceIsHome(sides, r, s);
    var h := Home(LoserShape(sides), Source(r, s));
    LaterRounds(sides, h.round, h.slot);
    assert OtherSide(h) == Spot(h.round, h.slot, 1);
  }

  lemma SecondRoundLoser(sides: seq<Team>, s: nat)
    requires Rounds(sides) >= 2 && s < Pow2(Rounds(sides) - 2)
    requires Producer(LoserShape(sides), Loser(Source(2, s)))
    ensures var j := DropPlace(Rounds(sides), 2, s);
            FeedFor(LoserShape(sides), Loser(Source(2, s))) ==
            if Alive(sides, 1, 2 * j) || Alive(sides, 1, 2 * j + 1) then Lands(Spot(2, j, 2))
            else if Rounds(sides) == 2 then Top else Lands(Spot(3, j / 2, j % 2 + 1))
  {
    var sh := LoserShape(sides);
    DropPlaceIsHome(sides, 2, s);
    var h := Home(sh, Source(2, s));
    DropWidth(sh, 2);
    SecondRound(sides, h.slot);
    assert OtherSide(h) == Spot(2, h.slot, 1);
    if In(sh, OtherSide(h)) == Bye && Rounds(sides) > 2 {
      UpIsFedByMatch(sh, 2, h.slot);
      var up := Up(sh, 2, h.slot);
      LaterRounds(sides, 3, up.slot);
      assert up == Spot(3, up.slot, 1) || up == Spot(3, up.slot, 2);
      assert Dest(sh, up) == Lands(up);
    }
  }

  // --- the finished plan ------------------------------------------------------------------------

  /** Which losers matches are played, from the first-round matches that are. */
  predicate Meets(sides: seq<Team>, l: nat, j: nat) {
    && 1 <= l <= 2 * (Rounds(sides) - 1) && j < Pow2(Rounds(sides) - 1 - (l + 1) / 2)
    && (l == 1 ==> Alive(sides, 1, 2 * j) && Alive(sides, 1, 2 * j + 1))
    && (l == 2 ==> Alive(sides, 1, 2 * j) || Alive(sides, 1, 2 * j + 1))
  }

  lemma EmittedIs(sides: seq<Team>, l: nat, j: nat)
    requires Rounds(sides) >= 2
    ensures Emitted(LoserShape(sides), l, j) <==> Meets(sides, l, j)
  {
    WidthIs(sides, l, j);
    if ValidMatch(LoserShape(sides), l, j) {
      if l == 1 {
        FirstRound(sides, j);
      } else if l == 2 {
        SecondRound(sides, j);
      } else {
        LaterRounds(sides, l, j);
      }
    }
  }

  lemma StructuralLosers(sides: seq<Team>, before: Plan, l: nat, j: nat)
    requires Rounds(sides) >= 2 && IsStructuralPlan(sides, before)
    ensures MatchId(Losers, l, j) in before <==> Emitted(LoserShape(sides), l, j)
    ensures MatchId(Losers, l, j) in before ==>
              before[MatchId(Losers, l, j)]
              == Node(None, None, AsFeed(FeedFor(LoserShape(sides), Token.Winner(l, j))), NoFeed)
  {
  }

  /** A losers match of the plan before renumbering. */
  lemma MatchBefore(sides: seq<Team>, before: Plan, l: nat, j: nat)
    requires Rounds(sides) >= 2 && IsStructuralPlan(sides, before)
    ensures MatchId(Losers, l, j) in before <==> Meets(sides, l, j)
    ensures MatchId(Losers, l, j) in before ==>
              before[MatchId(Losers, l, j)] == Node(None, None, LosersWinnerLands(Rounds(sides), 0, l, j), NoFeed)
  {
    StructuralLosers(sides, before, l, j);
    EmittedIs(sides, l, j);
    if Emitted(LoserShape(sides), l, j) {
      WinnerUp(sides, l, j);
    }
  }

  lemma MeetsIsExists(sides: seq<Team>, plan: Plan, l: nat, j: nat)
    requires Rounds(sides) >= 2 && HasBracket(plan, sides, Winners, To(Entry(GRAND_FINAL, 1)))
    ensures Meets(sides, l, j) <==> Exists(plan, Rounds(sides), l, j)
  {
    PlayedIsAlive(sides, plan, 1, 2 * j);
    PlayedIsAlive(sides, plan, 1, 2 * j + 1);
  }

  lemma PlayedIsAlive(sides: seq<Team>, plan: Plan, r: nat, s: nat)
    requires HasBracket(plan, sides, Winners, To(Entry(GRAND_FINAL, 1)))
    ensures Played(plan, r, s) <==> Alive(sides, r, s)
  {
    assert BracketMatch(plan, sides, To(Entry(GRAND_FINAL, 1)), MatchId(Winners, r, s));
  }

  /** The losers rounds there are before renumbering: all of them, or all but the first. */
  ghost predicate RoundsFrom(present: set<nat>, gap: nat, n: nat) {
    gap <= 1 && forall l :: l in present <==> gap < l <= n
  }

  lemma {:induction false} RankFrom(present: set<nat>, gap: nat, n: nat, l: nat)
    requires RoundsFrom(present, gap, n) && gap <= l <= n
    ensures Relabel.Rank(present, l) == l - gap
    decreases l
  {
    if l == gap {
      assert Relabel.UpTo(present, l) == {};
    } else {
      RankFrom(present, gap, n, l - 1);
      assert Relabel.UpTo(present, l) == Relabel.UpTo(present, l - 1) + {l};
    }
  }

  /** The draw before renumbering, with the rounds it has. */
  lemma Before(sides: seq<Team>, plan: DoubleElimPlan) returns (before: Plan, present: set<nat>)
    requires Rounds(sides) >= 2 && IsDoubleElim(sides, plan)
    ensures IsStructuralPlan(sides, before) && RenamedPlan(before, DrawOf(plan), present)
    ensures forall l :: l in present <==> HasRound(before, l)
  {
    var ms :| IsStructural(sides, ms) && Renumbered(ms, plan.matches, LosersRounds(ms));
    PlanOfStructural(sides, ms);
    PlayableIsRenamed(ms, plan.matches);
    before, present := Playable(ms), LosersRounds(ms);
    forall l ensures l in present <==> HasRound(before, l) {
      if l in present {
        var id: MatchId :| id in ms && id.group == Losers && id.round == l;
        StructuralSpecs(sides, ms, id);
        assert MatchId(Losers, l, id.slot) in before;
      }
    }
  }

  ghost predicate HasRound(before: Plan, l: nat) {
    exists j: nat :: MatchId(Losers, l, j) in before
  }

  ghost function Gap(draw: Plan, k: nat): nat {
    if NeighboursPlay(draw, k) then 0 else 1
  }

  /** The last seed has nobody below it to be spared: its first-round match is played. */
  lemma SomebodyOpens(sides: seq<Team>) returns (s: nat)
    requires |sides| >= 2 && Rounds(sides) >= 2
    ensures Alive(sides, 1, s) && s < Pow2(Rounds(sides) - 1)
  {
    var k := Rounds(sides);
    Bracket.ByesGoToTopSeeds(sides, |sides|);
    s := SeedOrder.LineOf(k, |sides|) / 2;
    assert Pow2(k) == 2 * Pow2(k - 1);
  }

  ghost predicate RoundMeets(sides: seq<Team>, l: nat) {
    exists j: nat :: Meets(sides, l, j)
  }

  /** Every losers round from the second on is played. */
  lemma RoundIsPlayed(sides: seq<Team>, l: nat)
    requires |sides| >= 2 && Rounds(sides) >= 2
    ensures l != 1 ==> (RoundMeets(sides, l) <==> 2 <= l <= 2 * (Rounds(sides) - 1))
  {
    var k := Rounds(sides);
    if l == 2 {
      var s := SomebodyOpens(sides);
      assert s == 2 * (s / 2) || s == 2 * (s / 2) + 1;
      assert Pow2(k - 1) == 2 * Pow2(k - 2);
      assert Meets(sides, 2, s / 2);
    } else if 3 <= l <= 2 * (k - 1) {
      assert Meets(sides, l, 0);
    }
  }

  lemma FirstRoundPlayed(sides: seq<Team>, plan: Plan)
    requires Rounds(sides) >= 2 && HasBracket(plan, sides, Winners, To(Entry(GRAND_FINAL, 1)))
    ensures RoundMeets(sides, 1) <==> NeighboursPlay(plan, Rounds(sides))
  {
    var k := Rounds(sides);
    forall j: nat ensures Meets(sides, 1, j) <==> BothPlay(plan, k, j) {
      MeetsIsExists(sides, plan, 1, j);
    }
  }

  lemma RoundThere(sides: seq<Team>, before: Plan, l: nat)
    requires Rounds(sides) >= 2 && IsStructuralPlan(sides, before)
    ensures HasRound(before, l) <==> RoundMeets(sides, l)
  {
    forall j: nat ensures MatchId(Losers, l, j) in before <==> Meets(sides, l, j) {
      MatchBefore(sides, before, l, j);
    }
  }

  lemma RoundsPresent(sides: seq<Team>, before: Plan, present: set<nat>)
    requires |sides| >= 2 && Rounds(sides) >= 2 && IsStructuralPlan(sides, before)
    requires forall l :: l in present <==> HasRound(before, l)
    ensures RoundsFrom(present, Gap(before, Rounds(sides)), 2 * (Rounds(sides) - 1))
  {
    FirstRoundPlayed(sides, before);
    forall l: nat ensures l in present <==> Gap(before, Rounds(sides)) < l <= 2 * (Rounds(sides) - 1) {
      RoundThere(sides, before, l);
      RoundIsPlayed(sides, l);
    }
  }

  /** First-round matches keep their names. */
  lemma SamePlayed(before: Plan, out: Plan, present: set<nat>, r: nat, s: nat)
    requires RenamedPlan(before, out, present)
    ensures Played(out, r, s) <==> Played(before, r, s)
    ensures Played(out, r, s) ==> out[MatchId(Winners, r, s)] == RenameNode(present, before[MatchId(Winners, r, s)])
  {
    var id := MatchId(Winners, r, s);
    assert RenameId(present, id) == id;
    if id in out {
      assert Original(before, present, id) == id;
    }
  }

  lemma SameGap(before: Plan, out: Plan, present: set<nat>, k: nat)
    requires RenamedPlan(before, out, present)
    ensures Gap(out, k) == Gap(before, k)
  {
    forall j: nat ensures BothPlay(out, k, j) <==> BothPlay(before, k, j) {
      SamePlayed(before, out, present, 1, 2 * j);
      SamePlayed(before, out, present, 1, 2 * j + 1);
    }
  }

  /** A feed of the losers bracket, renumbered. */
  lemma RenamedLanding(present: set<nat>, gap: nat, n: nat, l: nat, j: nat, t: nat)
    requires RoundsFrom(present, gap, n) && gap <= l <= n
    ensures RenameFeed(present, To(Entry(MatchId(Losers, l, j), t))) == To(Entry(LosersMatch(gap, l, j), t))
  {
    RankFrom(present, gap, n, l);
  }

  /** The draw, what it was before renumbering, and what the renumbering did. */
  ghost predicate Unnumbered(sides: seq<Team>, before: Plan, draw: Plan, present: set<nat>, gap: nat) {
    && Rounds(sides) >= 2 && IsStructuralPlan(sides, before) && RenamedPlan(before, draw, present)
    && gap == Gap(draw, Rounds(sides)) && RoundsFrom(present, gap, 2 * (Rounds(sides) - 1))
  }

  lemma Unnumber(sides: seq<Team>, plan: DoubleElimPlan) returns (before: Plan, present: set<nat>)
    requires |sides| >= 2 && Rounds(sides) >= 2 && IsDoubleElim(sides, plan)
    ensures Unnumbered(sides, before, DrawOf(plan), present, Gap(DrawOf(plan), Rounds(sides)))
  {
    before, present := Before(sides, plan);
    SameGap(before, DrawOf(plan), present, Rounds(sides));
    RoundsPresent(sides, before, present);
  }

  /** The first-round matches that are played, in the draw as in the bracket. */
  ghost predicate OpenersPlay(sides: seq<Team>, draw: Plan, gap: nat) {
    && gap == Gap(draw, Rounds(sides))
    && forall s: nat {:trigger Played(draw, 1, s)} :: Played(draw, 1, s) <==> Alive(sides, 1, s)
  }

  lemma StillPlayed(sides: seq<Team>, before: Plan, draw: Plan, present: set<nat>, gap: nat, r: nat, s: nat)
    requires Unnumbered(sides, before, draw, present, gap)
    ensures Played(draw, r, s) <==> Alive(sides, r, s)
    ensures Played(draw, r, s) ==> DropRenamed(sides, draw, present, r, s)
  {
    SamePlayed(before, draw, present, r, s);
    PlayedIsAlive(sides, before, r, s);
    if Played(draw, r, s) {
      DropBefore(sides, before, r, s);
    }
  }

  ghost predicate DropRenamed(sides: seq<Team>, draw: Plan, present: set<nat>, r: nat, s: nat)
    requires Rounds(sides) >= 2
  {
    && Producer(LoserShape(sides), Loser(Source(r, s))) && MatchId(Winners, r, s) in draw
    && draw[MatchId(Winners, r, s)].lose == RenameFeed(present, AsFeed(FeedFor(LoserShape(sides), Loser(Source(r, s)))))
  }

  lemma OpenersStay(sides: seq<Team>, before: Plan, draw: Plan, present: set<nat>, gap: nat)
    requires Unnumbered(sides, before, draw, present, gap)
    ensures OpenersPlay(sides, draw, gap) && RoundsFrom(present, gap, 2 * (Rounds(sides) - 1))
  {
    forall s: nat {:trigger Played(draw, 1, s)} ensures Played(draw, 1, s) <==> Alive(sides, 1, s) {
      StillPlayed(sides, before, draw, present, gap, 1, s);
    }
  }

  lemma StillMeets(sides: seq<Team>, draw: Plan, gap: nat, l: nat, j: nat)
    requires Rounds(sides) >= 2 && OpenersPlay(sides, draw, gap)
    ensures Exists(draw, Rounds(sides), l, j) <==> Meets(sides, l, j)
    ensures Meets(sides, l, j) ==> l > gap
  {
    assert Played(draw, 1, 2 * j) <==> Alive(sides, 1, 2 * j);
    assert Played(draw, 1, 2 * j + 1) <==> Alive(sides, 1, 2 * j + 1);
    if l == 1 && Meets(sides, l, j) {
      assert BothPlay(draw, Rounds(sides), j);
    }
  }

  /** The losers bracket: its matches, by their rounds before renumbering, and where each winner goes. */
  lemma LosersBracket(sides: seq<Team>, plan: DoubleElimPlan, l: nat, j: nat)
    requires |sides| >= 2 && Rounds(sides) >= 2 && IsDoubleElim(sides, plan)
    ensures var draw, k := DrawOf(plan), Rounds(sides);
            var gap := Gap(draw, k);
            && (Exists(draw, k, l, j) ==> l > gap)
            && (l >= gap ==> (LosersMatch(gap, l, j) in draw <==> Exists(draw, k, l, j)))
            && (Exists(draw, k, l, j) ==>
                  draw[LosersMatch(gap, l, j)] == Node(None, None, LosersWinnerLands(k, gap, l, j), NoFeed))
  {
    var before, present := Unnumber(sides, plan);
    var gap := Gap(DrawOf(plan), Rounds(sides));
    OpenersStay(sides, before, DrawOf(plan), present, gap);
    StillMeets(sides, DrawOf(plan), gap, l, j);
    if l >= gap {
      LosersRenamed(sides, before, DrawOf(plan), present, gap, l, j);
    }
  }

  lemma LosersRenamed(sides: seq<Team>, before: Plan, draw: Plan, present: set<nat>, gap: nat, l: nat, j: nat)
    requires Unnumbered(sides, before, draw, present, gap) && l >= gap
    ensures LosersMatch(gap, l, j) in draw <==> Meets(sides, l, j)
    ensures Meets(sides, l, j) ==>
              draw[LosersMatch(gap, l, j)] == Node(None, None, LosersWinnerLands(Rounds(sides), gap, l, j), NoFeed)
  {
    var id, o := MatchId(Losers, l, j), LosersMatch(gap, l, j);
    MatchBefore(sides, before, l, j);
    if id in before {
      NewName(before, draw, present, gap, 2 * (Rounds(sides) - 1), l, j);
      WinnerRenamed(present, gap, Rounds(sides), l, j);
    }
    if o in draw {
      OldName(before, draw, present, gap, 2 * (Rounds(sides) - 1), l, j);
    }
  }

  lemma NewName(before: Plan, draw: Plan, present: set<nat>, gap: nat, n: nat, l: nat, j: nat)
    requires RenamedPlan(before, draw, present) && RoundsFrom(present, gap, n) && MatchId(Losers, l, j) in before
    ensures gap < l <= n && LosersMatch(gap, l, j) in draw
    ensures draw[LosersMatch(gap, l, j)] == RenameNode(present, before[MatchId(Losers, l, j)])
  {
    RankFrom(present, gap, n, l);
    assert RenameId(present, MatchId(Losers, l, j)) == LosersMatch(gap, l, j);
  }

  lemma OldName(before: Plan, draw: Plan, present: set<nat>, gap: nat, n: nat, l: nat, j: nat)
    requires RenamedPlan(before, draw, present) && RoundsFrom(present, gap, n) && l >= gap
    requires LosersMatch(gap, l, j) in draw
    ensures MatchId(Losers, l, j) in before
  {
    var x := Original(before, present, LosersMatch(gap, l, j));
    RankFrom(present, gap, n, x.round);
  }

  lemma WinnerRenamed(present: set<nat>, gap: nat, k: nat, l: nat, j: nat)
    requires k >= 2 && RoundsFrom(present, gap, 2 * (k - 1)) && gap <= l <= 2 * (k - 1)
    ensures RenameFeed(present, LosersWinnerLands(k, 0, l, j)) == LosersWinnerLands(k, gap, l, j)
  {
    if l < 2 * (k - 1) {
      RankFrom(present, gap, 2 * (k - 1), l + 1);
    }
  }

  lemma DropBefore(sides: seq<Team>, before: Plan, r: nat, s: nat)
    requires Rounds(sides) >= 2 && IsStructuralPlan(sides, before) && MatchId(Winners, r, s) in before
    ensures Producer(LoserShape(sides), Loser(Source(r, s)))
    ensures before[MatchId(Winners, r, s)].lose == AsFeed(FeedFor(LoserShape(sides), Loser(Source(r, s))))
  {
  }

  /** The winners bracket: where the loser of each of its matches goes. */
  lemma LosersDrop(sides: seq<Team>, plan: DoubleElimPlan, r: nat, s: nat)
    requires |sides| >= 2 && Rounds(sides) >= 2 && IsDoubleElim(sides, plan) && Played(DrawOf(plan), r, s)
    ensures 1 <= r <= Rounds(sides) && s < Pow2(Rounds(sides) - r)
    ensures var draw, k := DrawOf(plan), Rounds(sides);
            draw[MatchId(Winners, r, s)].lose == LoserLands(draw, k, Gap(draw, k), r, s)
  {
    var before, present := Unnumber(sides, plan);
    var gap := Gap(DrawOf(plan), Rounds(sides));
    OpenersStay(sides, before, DrawOf(plan), present, gap);
    StillPlayed(sides, before, DrawOf(plan), present, gap, r, s);
    DropLands(sides, DrawOf(plan), present, gap, r, s);
  }

  lemma DropLands(sides: seq<Team>, draw: Plan, present: set<nat>, gap: nat, r: nat, s: nat)
    requires Rounds(sides) >= 2 && OpenersPlay(sides, draw, gap) && RoundsFrom(present, gap, 2 * (Rounds(sides) - 1))
    requires Alive(sides, r, s)
    ensures 1 <= r <= Rounds(sides) && s < Pow2(Rounds(sides) - r)
    ensures Producer(LoserShape(sides), Loser(Source(r, s)))
    ensures RenameFeed(present, AsFeed(FeedFor(LoserShape(sides), Loser(Source(r, s)))))
         == LoserLands(draw, Rounds(sides), gap, r, s)
  {
    if r == 1 {
      OpeningDrops(sides, draw, present, gap, s);
    } else {
      LaterDrops(sides, draw, present, gap, r, s);
    }
  }

  lemma OpeningDrops(sides: seq<Team>, draw: Plan, present: set<nat>, gap: nat, s: nat)
    requires Rounds(sides) >= 2 && OpenersPlay(sides, draw, gap) && RoundsFrom(present, gap, 2 * (Rounds(sides) - 1))
    requires Alive(sides, 1, s)
    ensures Producer(LoserShape(sides), Loser(Source(1, s))) && s < Pow2(Rounds(sides) - 1)
    ensures RenameFeed(present, AsFeed(FeedFor(LoserShape(sides), Loser(Source(1, s)))))
         == LoserLands(draw, Rounds(sides), gap, 1, s)
  {
    var k, n := Rounds(sides), if s % 2 == 0 then s + 1 else s - 1;
    assert Played(draw, 1, s) && (Played(draw, 1, n) <==> Alive(sides, 1, n));
    OpeningLoser(sides, s);
    if Played(draw, 1, n) {
      NeighboursMeet(draw, k, s, n);
      RenamedLanding(present, gap, 2 * (k - 1), 1, s / 2, s % 2 + 1);
    } else {
      RenamedLanding(present, gap, 2 * (k - 1), 2, s / 2, 1);
    }
  }

  lemma NeighboursMeet(draw: Plan, k: nat, s: nat, n: nat)
    requires k >= 2 && s < Pow2(k - 1) && n == (if s % 2 == 0 then s + 1 else s - 1)
    requires Played(draw, 1, s) && Played(draw, 1, n)
    ensures Gap(draw, k) == 0
  {
    Neighbour(s);
    assert Pow2(k - 1) == 2 * Pow2(k - 2);
    assert BothPlay(draw, k, s / 2);
  }

  lemma LaterDrops(sides: seq<Team>, draw: Plan, present: set<nat>, gap: nat, r: nat, s: nat)
    requires Rounds(sides) >= 2 && OpenersPlay(sides, draw, gap) && RoundsFrom(present, gap, 2 * (Rounds(sides) - 1))
    requires Alive(sides, r, s) && r >= 2
    ensures Producer(LoserShape(sides), Loser(Source(r, s))) && r <= Rounds(sides) && s < Pow2(Rounds(sides) - r)
    ensures RenameFeed(present, AsFeed(FeedFor(LoserShape(sides), Loser(Source(r, s)))))
         == LoserLands(draw, Rounds(sides), gap, r, s)
  {
    var k := Rounds(sides);
    LaterLoser(sides, r, s);
    var j := DropPlace(k, r, s);
    assert Played(draw, 1, 2 * j) <==> Alive(sides, 1, 2 * j);
    assert Played(draw, 1, 2 * j + 1) <==> Alive(sides, 1, 2 * j + 1);
    RenamedLanding(present, gap, 2 * (k - 1), 2 * (r - 1), j, 2);
    if k > 2 {
      RenamedLanding(present, gap, 2 * (k - 1), 3, j / 2, j % 2 + 1);
    }
  }

  /** With two teams, winner and loser of the one match meet again in the grand final. */
  lemma TwoTeams(sides: seq<Team>, plan: DoubleElimPlan)
    requires |sides| == 2 && IsDoubleElim(sides, plan)
    ensures var draw := DrawOf(plan);
            && draw.Keys == {MatchId(Winners, 1, 0), GRAND_FINAL}
            && draw[MatchId(Winners, 1, 0)]
               == Node(Some(sides[0]), Some(sides[1]), To(Entry(GRAND_FINAL, 1)), To(Entry(GRAND_FINAL, 2)))
            && draw[GRAND_FINAL] == Node(None, None, NoFeed, NoFeed)
  {
  }
}
