/** compass.go, consolation.go: which matches a tree of droppers has and who plays whom in it, told from the droppers'
    places alone. Two droppers meet where the halves they stand in do, and nobody waits for a bye. */
module DropTree {
  import opened Coordinates
  import opened Draws
  import opened Powers
  import opened Collapse
  import opened ConsolationTree
  import Relabel

  /** Somebody drops in under place `q` of level `r`: the droppers stand at level 0, and each level halves the places. */
  ghost predicate SomebodyUnder(alive: seq<bool>, r: nat, q: nat) {
    exists s :: 0 <= s < |alive| && Stands(alive, s, r, q)
  }

  ghost predicate Stands(alive: seq<bool>, s: nat, r: nat, q: nat)
    requires s < |alive|
  {
    alive[s] && Shr(s, r) == q
  }

  lemma UnderHalves(alive: seq<bool>, r: nat, q: nat)
    requires r >= 1
    ensures SomebodyUnder(alive, r, q) <==> SomebodyUnder(alive, r - 1, 2 * q) || SomebodyUnder(alive, r - 1, 2 * q + 1)
  {
    if SomebodyUnder(alive, r, q) {
      var s :| 0 <= s < |alive| && Stands(alive, s, r, q);
      assert Stands(alive, s, r - 1, 2 * q) || Stands(alive, s, r - 1, 2 * q + 1);
    }
    if SomebodyUnder(alive, r - 1, 2 * q) {
      var s :| 0 <= s < |alive| && Stands(alive, s, r - 1, 2 * q);
      assert Stands(alive, s, r, q);
    }
    if SomebodyUnder(alive, r - 1, 2 * q + 1) {
      var s :| 0 <= s < |alive| && Stands(alive, s, r - 1, 2 * q + 1);
      assert Stands(alive, s, r, q);
    }
  }

  lemma UnderAtZero(alive: seq<bool>, q: nat)
    ensures SomebodyUnder(alive, 0, q) <==> q < |alive| && alive[q]
  {
    if q < |alive| && alive[q] {
      assert Stands(alive, q, 0, q);
    }
  }

  /** A seat has somebody in it exactly when somebody drops in under it. */
  lemma {:induction false} SeatIsFilled(sh: Shape, r: nat, j: nat, t: nat)
    requires sh.Valid() && sh.Lane? && ValidSpot(sh, Spot(r, j, t))
    ensures In(sh, Spot(r, j, t)) != Bye <==> SomebodyUnder(sh.alive, r - 1, 2 * j + t - 1)
    decreases r
  {
    var e, q := Spot(r, j, t), 2 * j + t - 1;
    if r == 1 {
      FeederIsHome(sh, e);
      UnderAtZero(sh.alive, q);
    } else {
      FeederIsBelow(sh, e);
      SeatIsFilled(sh, r - 1, q, 1);
      SeatIsFilled(sh, r - 1, q, 2);
      UnderHalves(sh.alive, r - 1, q);
    }
  }

  lemma {:induction false} ShrIsSmall(s: nat, r: nat, d: nat)
    requires s < Pow2(d)
    ensures r <= d ==> Shr(s, r) < Pow2(d - r)
    ensures r >= d ==> Shr(s, r) == 0
    decreases r
  {
    if r > 0 {
      ShrIsSmall(s, r - 1, d);
      if r <= d {
        assert Pow2(d - (r - 1)) == 2 * Pow2(d - r);
      }
    }
  }

  lemma UnderInRange(sh: Shape, r: nat, q: nat)
    requires sh.Valid() && sh.Lane? && SomebodyUnder(sh.alive, r, q)
    ensures r <= sh.depth ==> q < Pow2(sh.depth - r)
    ensures r >= sh.depth ==> q == 0
  {
    var s :| 0 <= s < |sh.alive| && Stands(sh.alive, s, r, q);
    ShrIsSmall(s, r, sh.depth);
  }

  /** Both halves under match (r, j) have somebody. */
  ghost predicate BothHalves(alive: seq<bool>, r: nat, j: nat) {
    r >= 1 && SomebodyUnder(alive, r - 1, 2 * j) && SomebodyUnder(alive, r - 1, 2 * j + 1)
  }

  lemma MeetsWhereHalvesMeet(sh: Shape, r: nat, j: nat)
    requires sh.Valid() && sh.Lane?
    ensures Emitted(sh, r, j) <==> BothHalves(sh.alive, r, j)
  {
    if BothHalves(sh.alive, r, j) {
      UnderInRange(sh, r - 1, 2 * j);
      UnderInRange(sh, r - 1, 2 * j + 1);
      assert r <= sh.depth;
      assert Pow2(sh.depth - (r - 1)) == 2 * Pow2(sh.depth - r);
    }
    if ValidMatch(sh, r, j) {
      SeatIsFilled(sh, r, j, 1);
      SeatIsFilled(sh, r, j, 2);
    }
  }

  /** The tree has a match exactly where two halves with droppers meet. */
  lemma MatchesOfTree(sh: Shape, tree: ConsTree, c: Coord)
    requires sh.Valid() && sh.Lane? && IsTree(sh, tree)
    ensures c in tree.matches <==> BothHalves(sh.alive, c.round, c.slot)
  {
    MeetsWhereHalvesMeet(sh, c.round, c.slot);
  }

  // --- the way up ---------------------------------------------------------------------------

  /** A match is played on the way up from place `q` of level `r`, at level `y`. */
  predicate PlayedAbove(sh: Shape, r: nat, q: nat, y: nat)
    requires sh.Valid()
  {
    y > r && Emitted(sh, y, Shr(q, y - r))
  }

  ghost predicate NonePlayedBelow(sh: Shape, r: nat, q: nat, x: nat)
    requires sh.Valid()
  {
    forall y: nat {:trigger PlayedAbove(sh, r, q, y)} :: y < x ==> !PlayedAbove(sh, r, q, y)
  }

  /** A landing is in the first match played on the way up, on the side of the half it comes from; or at the top, when
      none is. */
  ghost predicate IsFirstPlayed(sh: Shape, r: nat, q: nat, l: Landing)
    requires sh.Valid()
  {
    match l
    case Lands(x) =>
      && PlayedAbove(sh, r, q, x.round) && NonePlayedBelow(sh, r, q, x.round)
      && x.slot == Shr(q, x.round - r) && x.team == Shr(q, x.round - r - 1) % 2 + 1
    case Top => NonePlayedBelow(sh, r, q, sh.Rounds() + 1)
  }

  /** A team in a seat lands in the first match played on its way up. */
  lemma {:induction false} LandsInFirstPlayed(sh: Shape, r: nat, q: nat, e: Spot)
    requires sh.Valid() && sh.Lane? && e == Spot(r + 1, q / 2, q % 2 + 1) && ValidSpot(sh, e) && In(sh, e) != Bye
    ensures IsFirstPlayed(sh, r, q, Dest(sh, e))
    decreases sh.depth - r
  {
    ShrOnce(q);
    assert Shr(q, 0) == q;
    assert e == Spot(e.round, e.slot, 1) || e == Spot(e.round, e.slot, 2);
    if In(sh, OtherSide(e)) == Bye {
      assert !PlayedAbove(sh, r, q, r + 1);
      if e.round < sh.depth {
        UpIsFedByMatch(sh, e.round, e.slot);
        var up := Up(sh, e.round, e.slot);
        LandsInFirstPlayed(sh, r + 1, q / 2, up);
        StepUp(sh, r, q, Dest(sh, up));
      }
    }
  }

  lemma ShrStep(q: nat, n: nat)
    requires n >= 1
    ensures Shr(q, n) == Shr(q / 2, n - 1)
  {
    ShrOnce(q);
    ShrTwice(q, 1, n - 1);
  }

  lemma StepUp(sh: Shape, r: nat, q: nat, l: Landing)
    requires sh.Valid() && !PlayedAbove(sh, r, q, r + 1) && IsFirstPlayed(sh, r + 1, q / 2, l)
    ensures IsFirstPlayed(sh, r, q, l)
  {
    forall y: nat ensures y > r + 1 ==> (PlayedAbove(sh, r, q, y) <==> PlayedAbove(sh, r + 1, q / 2, y)) {
      if y > r + 1 {
        ShrStep(q, y - r);
      }
    }
    if l.Lands? {
      ShrStep(q, l.spot.round - r);
      ShrStep(q, l.spot.round - r - 1);
    }
  }

  // --- the finished tree --------------------------------------------------------------------

  /** The match of the tree on the way up from place `q` of level `r`, at level `y`. */
  function AboveAt(r: nat, q: nat, y: nat): Coord
    requires y > r
  {
    Coord(y, Shr(q, y - r))
  }

  predicate OnTheWay(tree: ConsTree, r: nat, q: nat, y: nat) {
    y > r && AboveAt(r, q, y) in tree.matches
  }

  /** The first match of the tree on the way up is at level `x`. */
  ghost predicate FirstOnTheWay(tree: ConsTree, r: nat, q: nat, x: nat) {
    OnTheWay(tree, r, q, x) && forall y: nat {:trigger OnTheWay(tree, r, q, y)} :: y < x ==> !OnTheWay(tree, r, q, y)
  }

  ghost predicate NoneOnTheWay(tree: ConsTree, r: nat, q: nat) {
    forall y: nat {:trigger OnTheWay(tree, r, q, y)} :: !OnTheWay(tree, r, q, y)
  }

  lemma WayIsPlayed(sh: Shape, tree: ConsTree, r: nat, q: nat, y: nat)
    requires sh.Valid() && sh.Lane? && IsTree(sh, tree)
    ensures OnTheWay(tree, r, q, y) <==> PlayedAbove(sh, r, q, y)
    ensures OnTheWay(tree, r, q, y) ==> y <= sh.depth
  {
    if PlayedAbove(sh, r, q, y) {
      EmittedInRange(sh, y, Shr(q, y - r));
    }
  }

  lemma FirstPlayedIsFirst(sh: Shape, tree: ConsTree, r: nat, q: nat, l: Landing)
    requires sh.Valid() && sh.Lane? && IsTree(sh, tree) && IsFirstPlayed(sh, r, q, l)
    ensures l.Lands? ==> FirstOnTheWay(tree, r, q, l.spot.round)
    ensures l.Top? ==> NoneOnTheWay(tree, r, q)
  {
    forall y: nat ensures OnTheWay(tree, r, q, y) <==> PlayedAbove(sh, r, q, y)
      ensures OnTheWay(tree, r, q, y) ==> y <= sh.depth
    {
      WayIsPlayed(sh, tree, r, q, y);
    }
  }

  /** A match named by (round, slot, team) is the first on the way up, entered on the side of the half one comes from. */
  ghost predicate EntersFirst(tree: ConsTree, r: nat, q: nat, round: nat, slot: nat, team: nat) {
    exists x: nat :: FirstOnTheWay(tree, r, q, x)
      && round == tree.matches[AboveAt(r, q, x)].round && slot == Shr(q, x - r) && team == Shr(q, x - r - 1) % 2 + 1
  }

  lemma LandingEnters(sh: Shape, tree: ConsTree, r: nat, q: nat, t: Token)
    requires sh.Valid() && sh.Lane? && IsTree(sh, tree) && Producer(sh, t) && FeedFor(sh, t).Lands?
    requires IsFirstPlayed(sh, r, q, FeedFor(sh, t))
    ensures var x := FeedFor(sh, t).spot;
            && Coord(x.round, x.slot) in tree.matches
            && Fills(tree, FillerOf(t), tree.matches[Coord(x.round, x.slot)].round, x.slot, x.team)
            && EntersFirst(tree, r, q, tree.matches[Coord(x.round, x.slot)].round, x.slot, x.team)
  {
    LandingFills(sh, tree, t);
    FirstPlayedIsFirst(sh, tree, r, q, FeedFor(sh, t));
  }

  /** A dropper enters the tree at the first match on its way up; it is left out only when there is none. */
  lemma DropperEntersFirst(sh: Shape, tree: ConsTree, s: nat)
    requires sh.Valid() && sh.Lane? && IsTree(sh, tree) && s < |sh.alive| && sh.alive[s]
    ensures s !in tree.drops ==> NoneOnTheWay(tree, 0, s)
    ensures s in tree.drops ==> var d := tree.drops[s]; EntersFirst(tree, 0, s, d.round, d.slot, d.team)
  {
    var t := Loser(Source(1, s));
    DropperLands(sh, s);
    FirstPlayedIsFirst(sh, tree, 0, s, FeedFor(sh, t));
    if s in tree.drops {
      LandingEnters(sh, tree, 0, s, t);
    }
  }

  lemma DropperLands(sh: Shape, s: nat)
    requires sh.Valid() && sh.Lane? && s < |sh.alive| && sh.alive[s]
    ensures Producer(sh, Loser(Source(1, s))) && IsFirstPlayed(sh, 0, s, FeedFor(sh, Loser(Source(1, s))))
  {
    HomeIsFedBySource(sh, Source(1, s));
    LandsInFirstPlayed(sh, 0, s, Home(sh, Source(1, s)));
  }

  lemma WinnerLands(sh: Shape, r: nat, j: nat)
    requires sh.Valid() && sh.Lane? && Emitted(sh, r, j)
    ensures IsFirstPlayed(sh, r, j, FeedFor(sh, Winner(r, j)))
  {
    EmittedInRange(sh, r, j);
    if r < sh.depth {
      UpIsFedByMatch(sh, r, j);
      LandsInFirstPlayed(sh, r, j, Up(sh, r, j));
    }
  }

  /** The winner of a match goes to the first match on the way up; the final is the match with none. */
  lemma WinnerGoesToFirst(sh: Shape, tree: ConsTree, c: Coord)
    requires sh.Valid() && sh.Lane? && IsTree(sh, tree) && c in tree.matches
    ensures var n := tree.matches[c];
            && n.slot == c.slot
            && (n.feedsRound == 0 ==> NoneOnTheWay(tree, c.round, c.slot))
            && (n.feedsRound != 0 ==> EntersFirst(tree, c.round, c.slot, n.feedsRound, n.feedsSlot, n.feedsTeam))
  {
    var t := Winner(c.round, c.slot);
    WinnerLands(sh, c.round, c.slot);
    FinalIsChampion(sh, tree, c);
    ChampionFedOut(sh, t);
    FirstPlayedIsFirst(sh, tree, c.round, c.slot, FeedFor(sh, t));
    if FeedFor(sh, t).Lands? {
      LandingEnters(sh, tree, c.round, c.slot, t);
    }
  }

  /** Renumbering keeps the order of the levels. */
  lemma LevelsInOrder(sh: Shape, tree: ConsTree, c: Coord, d: Coord)
    requires sh.Valid() && sh.Lane? && IsTree(sh, tree) && c in tree.matches && d in tree.matches
    ensures c.round < d.round <==> tree.matches[c].round < tree.matches[d].round
  {
    Relabel.RankKeepsOrder(RoundsOf(tree.matches), c.round, d.round);
    Relabel.RankKeepsOrder(RoundsOf(tree.matches), d.round, c.round);
  }

  // --- the tree in a draw -------------------------------------------------------------------

  /** Some two halves meet at this level. */
  ghost predicate HasLevel(alive: seq<bool>, y: nat) {
    exists j: nat :: BothHalves(alive, y, j)
  }

  /** A level's round number: how many levels up to it have a match. */
  ghost function RoundNo(alive: seq<bool>, x: nat): nat {
    |set y: nat | y <= x && HasLevel(alive, y)|
  }

  /** Two halves meet on the way up from place `q` of level `r`, at level `y`. */
  ghost predicate MeetsAbove(alive: seq<bool>, r: nat, q: nat, y: nat) {
    y > r && BothHalves(alive, y, Shr(q, y - r))
  }

  /** Where a team goes from place `q` of level `r`: into the first match on its way up, on the side of the half it comes
      from, in the bracket tagged `g`; nowhere, when there is none. */
  ghost predicate GoesToFirst(alive: seq<bool>, r: nat, q: nat, g: Group, feed: Feed) {
    if feed.To? then exists x: nat :: FirstMeeting(alive, r, q, x) && feed.entry == EntryAt(alive, r, q, x, g)
    else forall y: nat {:trigger MeetsAbove(alive, r, q, y)} :: !MeetsAbove(alive, r, q, y)
  }

  ghost predicate FirstMeeting(alive: seq<bool>, r: nat, q: nat, x: nat) {
    && MeetsAbove(alive, r, q, x)
    && forall y: nat {:trigger MeetsAbove(alive, r, q, y)} :: y < x ==> !MeetsAbove(alive, r, q, y)
  }

  ghost function EntryAt(alive: seq<bool>, r: nat, q: nat, x: nat, g: Group): Entry
    requires x > r
  {
    Entry(MatchId(g, RoundNo(alive, x), Shr(q, x - r)), Shr(q, x - r - 1) % 2 + 1)
  }

  lemma RoundIsNo(sh: Shape, x: nat)
    requires sh.Valid() && sh.Lane?
    ensures Relabel.Rank(EmittedRounds(sh), x) == RoundNo(sh.alive, x)
  {
    forall y: nat ensures y in EmittedRounds(sh) <==> HasLevel(sh.alive, y) {
      LevelIsEmitted(sh, y);
    }
    assert Relabel.UpTo(EmittedRounds(sh), x) == set y: nat | y <= x && HasLevel(sh.alive, y);
  }

  lemma LevelIsEmitted(sh: Shape, y: nat)
    requires sh.Valid() && sh.Lane?
    ensures y in EmittedRounds(sh) <==> HasLevel(sh.alive, y)
  {
    if HasLevel(sh.alive, y) {
      var j: nat :| BothHalves(sh.alive, y, j);
      MeetsWhereHalvesMeet(sh, y, j);
      EmittedRoundPresent(sh, y, j);
    }
    if y in EmittedRounds(sh) {
      var j: nat :| j < Pow2(sh.depth) && Emitted(sh, y, j);
      MeetsWhereHalvesMeet(sh, y, j);
    }
  }

  lemma PlayedIsMeeting(sh: Shape, r: nat, q: nat, y: nat)
    requires sh.Valid() && sh.Lane?
    ensures PlayedAbove(sh, r, q, y) <==> MeetsAbove(sh.alive, r, q, y)
    ensures PlayedAbove(sh, r, q, y) ==> y <= sh.depth
  {
    if y > r {
      MeetsWhereHalvesMeet(sh, y, Shr(q, y - r));
    }
    if PlayedAbove(sh, r, q, y) {
      EmittedInRange(sh, y, Shr(q, y - r));
    }
  }

  /** A landing, as a feed of a draw. */
  lemma LandingGoesToFirst(sh: Shape, g: Group, r: nat, q: nat, l: Landing)
    requires sh.Valid() && sh.Lane? && IsFirstPlayed(sh, r, q, l)
    ensures GoesToFirst(sh.alive, r, q, g, LandingIn(g, sh, l))
  {
    forall y: nat ensures PlayedAbove(sh, r, q, y) <==> MeetsAbove(sh.alive, r, q, y)
      ensures PlayedAbove(sh, r, q, y) ==> y <= sh.depth
    {
      PlayedIsMeeting(sh, r, q, y);
    }
    if l.Lands? {
      RoundIsNo(sh, l.spot.round);
      assert FirstMeeting(sh.alive, r, q, l.spot.round);
    }
  }

  lemma DropGoesToFirst(sh: Shape, g: Group, s: nat)
    requires sh.Valid() && sh.Lane? && s < |sh.alive| && sh.alive[s]
    ensures Producer(sh, Loser(Source(1, s)))
    ensures GoesToFirst(sh.alive, 0, s, g, LandingIn(g, sh, FeedFor(sh, Loser(Source(1, s)))))
  {
    DropperLands(sh, s);
    LandingGoesToFirst(sh, g, 0, s, FeedFor(sh, Loser(Source(1, s))));
  }

  lemma WinGoesToFirst(sh: Shape, g: Group, r: nat, j: nat)
    requires sh.Valid() && sh.Lane? && Emitted(sh, r, j)
    ensures BothHalves(sh.alive, r, j) && NameIn(g, sh, r, j) == MatchId(g, RoundNo(sh.alive, r), j)
    ensures GoesToFirst(sh.alive, r, j, g, LandingIn(g, sh, FeedFor(sh, Winner(r, j))))
  {
    MeetsWhereHalvesMeet(sh, r, j);
    RoundIsNo(sh, r);
    WinnerLands(sh, r, j);
    LandingGoesToFirst(sh, g, r, j, FeedFor(sh, Winner(r, j)));
  }
}
