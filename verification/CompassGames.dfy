/** What a compass draw promises its entrants: play never stalls, every direction crowns one
    champion, and in a full field of 2^m everyone plays at least min(m, 4) matches. */
module CompassGames {
  import opened Draws
  import opened Powers
  import opened Play
  import opened Knockout
  import opened Collapse
  import opened CompassDraw
  import opened CompassPlay
  import ConsolationTree
  import Bracket
  import Compass
  import Relabel

  lemma DrawHasDistinctSeeds(sides: seq<Team>, plan: Plan)
    requires |sides| >= 2 && DistinctTeams(sides) && IsDraw(sides, plan)
    ensures DistinctSeeds(plan)
    ensures forall e | IsSeeded(plan, e) :: e.node.group == East
  {
    forall e | IsSeeded(plan, e) ensures e.node.group == East {
      SeededInEast(sides, plan, e);
    }
    forall e, f | IsSeeded(plan, e) && IsSeeded(plan, f) && plan[e.node].Seed(e.team) == plan[f.node].Seed(f.team)
      ensures e == f
    {
      SameSeedSameSeat(plan, sides, East, NoFeed, e, f);
    }
  }

  lemma SeededInEast(sides: seq<Team>, plan: Plan, e: Entry)
    requires |sides| >= 2 && IsDraw(sides, plan) && IsSeeded(plan, e)
    ensures e.node.group == East
  {
    var r := StructRound(sides, e.node);
    assert NodeRight(sides, plan, e.node.group, r, e.node.slot);
  }

  lemma FinalIffChampion(sides: seq<Team>, plan: Plan, g: Group, r: nat, j: nat)
    requires IsDraw(sides, plan) && IsDirection(g) && TreeOf(sides, g).Some? && MatchIn(sides, g, r, j)
    ensures IdOf(sides, g, r, j) in plan
    ensures plan[IdOf(sides, g, r, j)].win == NoFeed <==> Champion(TreeOf(sides, g).value) == Winner(r, j)
  {
    assert NodeRight(sides, plan, g, r, j);
    ChampionFedOut(TreeOf(sides, g).value, Winner(r, j));
  }

  /** Exactly one match of each direction that formed is its final. */
  lemma OneFinalEach(sides: seq<Team>, plan: Plan, g: Group) returns (final: MatchId)
    requires |sides| >= 2 && IsDraw(sides, plan) && IsDirection(g) && TreeOf(sides, g).Some?
    ensures final in plan && final.group == g
    ensures forall id | id in plan && id.group == g :: plan[id].win == NoFeed <==> id == final
  {
    var sh := TreeOf(sides, g).value;
    ParentFormed(sides, g);
    var a, b := ConsolationTree.TwoDroppers(sh.alive);
    EveryDropperPlays(sh, Source(1, a), Source(1, b));
    ConsolationTree.ChampionIsProducer(sh);
    var top := Champion(sh);
    final := IdOf(sides, g, top.round, top.slot);
    FinalIffChampion(sides, plan, g, top.round, top.slot);
    forall id | id in plan && id.group == g ensures plan[id].win == NoFeed <==> id == final {
      var r := StructRound(sides, id);
      FinalIffChampion(sides, plan, g, r, id.slot);
      if id == final {
        IdOfInjective(sides, g, r, id.slot, top.round, top.slot);
      }
    }
  }

  // --- a full field ---------------------------------------------------------------------------

  ghost predicate Full(sides: seq<Team>, m: nat) {
    m >= 1 && |sides| == Pow2(m)
  }

  lemma FullRounds(sides: seq<Team>, m: nat)
    requires Full(sides, m)
    ensures Rounds(sides) == m && |sides| >= 2
    ensures forall s | 0 <= s < Pow2(m - 1) :: Bracket.ByeWinner(sides, s).None?
    ensures forall r: nat, s: nat :: Alive(sides, r, s) <==> Bracket.ValidCoord(m, r, s)
  {
    assert Pow2(m) == 2 * Pow2(m - 1);
    CeilLog2Unique(Pow2(m), m);
    forall s | 0 <= s < Pow2(m - 1) ensures Bracket.ByeWinner(sides, s).None? {
      Bracket.OpeningSides(sides, s);
    }
  }

  ghost predicate AllAlive(sh: Shape)
    requires sh.Valid() && sh.Lane?
  {
    forall i | 0 <= i < |sh.alive| :: sh.alive[i]
  }

  /** Without byes nothing collapses: every match is emitted, and every team plays at once. */
  lemma {:induction false} NothingCollapses(sh: Shape, e: Spot)
    requires sh.Valid() && sh.Lane? && AllAlive(sh) && ValidSpot(sh, e)
    ensures In(sh, e) != Bye && Dest(sh, e) == Lands(e)
    decreases e.round
  {
    var o := OtherSide(e);
    forall x | x == e || x == o ensures In(sh, x) != Bye {
      match FeederOf(sh, x)
      case FromSource(s) => FeederIsHome(sh, x);
      case FromMatch(r, j) =>
        FeederIsBelow(sh, x);
        NothingCollapses(sh, Spot(r, j, 1));
        NothingCollapses(sh, Spot(r, j, 2));
    }
  }

  lemma FullLane(sh: Shape, r: nat, j: nat)
    requires sh.Valid() && sh.Lane? && AllAlive(sh)
    ensures Emitted(sh, r, j) <==> ValidMatch(sh, r, j)
    ensures ValidMatch(sh, r, j) ==>
              FeedFor(sh, Winner(r, j)) == if r == sh.depth then Top else Lands(Up(sh, r, j))
    ensures r < |sh.alive| ==> Producer(sh, Loser(Source(1, r))) && FeedFor(sh, Loser(Source(1, r))) == Lands(Home(sh, Source(1, r)))
  {
    if ValidMatch(sh, r, j) {
      NothingCollapses(sh, Spot(r, j, 1));
      NothingCollapses(sh, Spot(r, j, 2));
      if r < sh.depth {
        UpIsFedByMatch(sh, r, j);
        NothingCollapses(sh, Up(sh, r, j));
      }
    }
    if r < |sh.alive| {
      HomeIsFedBySource(sh, Source(1, r));
      NothingCollapses(sh, Home(sh, Source(1, r)));
    }
  }

  lemma {:induction false} RankInFull(present: set<nat>, n: nat, r: nat)
    requires forall x :: x in present <==> 1 <= x <= n
    requires r <= n
    ensures Relabel.Rank(present, r) == r
    decreases r
  {
    if r == 0 {
      assert Relabel.UpTo(present, 0) == {};
    } else {
      RankInFull(present, n, r - 1);
      assert Relabel.UpTo(present, r) == Relabel.UpTo(present, r - 1) + {r};
    }
  }

  /** With nothing collapsed, renumbering is the identity. */
  lemma FullNames(sides: seq<Team>, g: Group, r: nat, j: nat)
    requires IsDirection(g) && TreeOf(sides, g).Some? && AllAlive(TreeOf(sides, g).value) && MatchIn(sides, g, r, j)
    ensures IdOf(sides, g, r, j) == MatchId(g, r, j)
  {
    var sh := TreeOf(sides, g).value;
    forall x ensures x in EmittedRounds(sh) <==> 1 <= x <= sh.depth {
      if 1 <= x <= sh.depth {
        FullLane(sh, x, 0);
        EmittedRoundPresent(sh, x, 0);
      }
    }
    RankInFull(EmittedRounds(sh), sh.depth, r);
  }

  /** Games played on the way to a bracket's first round. */
  function GamesBefore(g: Group): nat
    decreases Stage(g)
  {
    if IsDirection(g) then GamesBefore(ParentOf(g).0) + ParentOf(g).1 else 0
  }

  /** Every place in the bracket is a match really played. */
  ghost predicate NothingMissing(sides: seq<Team>, g: Group)
    requires Formed(sides, g)
  {
    forall r: nat, j: nat :: MatchIn(sides, g, r, j) <==> 1 <= r <= Depth(sides, g) && j < Pow2(Depth(sides, g) - r)
  }

  lemma FullTreeMisses(sides: seq<Team>, g: Group)
    requires IsDirection(g) && TreeOf(sides, g).Some? && AllAlive(TreeOf(sides, g).value)
    ensures NothingMissing(sides, g)
  {
    forall r: nat, j: nat
      ensures MatchIn(sides, g, r, j) <==> 1 <= r <= Depth(sides, g) && j < Pow2(Depth(sides, g) - r)
    {
      FullTreeAt(sides, g, r, j);
    }
  }

  lemma FullTreeAt(sides: seq<Team>, g: Group, r: nat, j: nat)
    requires IsDirection(g) && TreeOf(sides, g).Some? && AllAlive(TreeOf(sides, g).value)
    ensures MatchIn(sides, g, r, j) <==> 1 <= r <= Depth(sides, g) && j < Pow2(Depth(sides, g) - r)
  {
    DirectionTree(sides, g, r, j);
    FullLaneAt(TreeOf(sides, g).value, r, j);
  }

  lemma FullLaneAt(sh: Shape, r: nat, j: nat)
    requires sh.Valid() && sh.Lane? && AllAlive(sh)
    ensures Emitted(sh, r, j) <==> 1 <= r <= sh.depth && j < Pow2(sh.depth - r)
  {
    FullLane(sh, r, j);
  }

  lemma EveryoneDrops(sides: seq<Team>, d: Group, j: nat)
    requires IsDirection(d) && Formed(sides, ParentOf(d).0) && NothingMissing(sides, ParentOf(d).0)
    requires ParentOf(d).1 < Depth(sides, ParentOf(d).0) && j < |Dropping(sides, d)|
    ensures Dropping(sides, d)[j]
  {
    assert MatchIn(sides, ParentOf(d).0, ParentOf(d).1, j);
    DroppingAt(sides, d, j);
  }

  lemma FullParentFullTree(sides: seq<Team>, g: Group)
    requires IsDirection(g) && TreeOf(sides, g).Some?
    requires Formed(sides, ParentOf(g).0) && NothingMissing(sides, ParentOf(g).0)
    ensures AllAlive(TreeOf(sides, g).value)
  {
    ParentFormed(sides, g);
    forall j | 0 <= j < |Dropping(sides, g)| ensures Dropping(sides, g)[j] {
      EveryoneDrops(sides, g, j);
    }
  }

  lemma {:induction false} FullDirection(sides: seq<Team>, m: nat, g: Group)
    requires Full(sides, m) && Formed(sides, g)
    ensures Depth(sides, g) + GamesBefore(g) == m
    ensures g != East ==> AllAlive(TreeOf(sides, g).value)
    ensures NothingMissing(sides, g)
    decreases Stage(g)
  {
    FullRounds(sides, m);
    if g != East {
      ParentFormed(sides, g);
      FullDirection(sides, m, ParentOf(g).0);
      FullParentFullTree(sides, g);
      FullTreeMisses(sides, g);
    }
  }

  lemma ManyDrop(sides: seq<Team>, d: Group)
    requires IsDirection(d) && Formed(sides, ParentOf(d).0) && NothingMissing(sides, ParentOf(d).0)
    requires ParentOf(d).1 < Depth(sides, ParentOf(d).0)
    ensures ConsolationTree.Droppers(Dropping(sides, d)) >= 2
  {
    var alive := Dropping(sides, d);
    var n := Depth(sides, ParentOf(d).0) - ParentOf(d).1;
    assert Pow2(n) == 2 * Pow2(n - 1);
    forall j | 0 <= j < |alive| ensures alive[j] {
      EveryoneDrops(sides, d, j);
    }
    AllDrop(alive);
  }

  /** In a full field, a round before a bracket's final always forms its direction. */
  lemma DirectionForms(sides: seq<Team>, m: nat, g: Group, r: nat)
    requires Full(sides, m) && Formed(sides, g) && 1 <= r < Depth(sides, g) && ChildOf(g, r).Some?
    ensures IsDirection(ChildOf(g, r).value) && TreeOf(sides, ChildOf(g, r).value).Some?
    ensures ParentOf(ChildOf(g, r).value) == (g, r)
  {
    ChildHasParent(g, r);
    FullDirection(sides, m, g);
    ManyDrop(sides, ChildOf(g, r).value);
  }

  lemma {:induction false} AllDrop(alive: seq<bool>)
    requires forall i | 0 <= i < |alive| :: alive[i]
    ensures ConsolationTree.Droppers(alive) == |alive|
  {
    if alive != [] {
      AllDrop(alive[..|alive| - 1]);
    }
  }

  // --- games are prices -----------------------------------------------------------------------

  function SeatGames(e: Entry): nat {
    GamesBefore(e.node.group) + if e.node.round >= 1 then e.node.round - 1 else 0
  }

  function Price(plan: Plan): map<Entry, nat> {
    map e | e in Seats(plan) :: SeatGames(e)
  }

  /** In a full field the name of a match is its coordinates. */
  lemma FullName(sides: seq<Team>, m: nat, plan: Plan, id: MatchId)
    requires Full(sides, m) && IsDraw(sides, plan) && id in plan
    ensures Formed(sides, id.group) && MatchIn(sides, id.group, id.round, id.slot)
    ensures IdOf(sides, id.group, id.round, id.slot) == id && 1 <= id.round <= Depth(sides, id.group)
  {
    var r := StructRound(sides, id);
    FullDirection(sides, m, id.group);
    if id.group != East {
      FullNames(sides, id.group, r, id.slot);
    }
    Compass.SlotInRange(sides, id.group, r, id.slot);
  }

  /** The loser of a match before its bracket's final, of a round that feeds a direction, plays on
      in round 1 of that direction. */
  lemma FullLoserFeed(sides: seq<Team>, m: nat, g: Group, r: nat, j: nat)
    requires Full(sides, m) && Formed(sides, g) && MatchIn(sides, g, r, j) && r >= 1
    ensures if ChildOf(g, r).Some? && r < Depth(sides, g)
            then LoserGoes(sides, g, r, j) == To(Entry(MatchId(ChildOf(g, r).value, 1, j / 2), j % 2 + 1))
                 && GamesBefore(ChildOf(g, r).value) == GamesBefore(g) + r
            else LoserGoes(sides, g, r, j) == NoFeed
  {
    FullDirection(sides, m, g);
    ChildHasParent(g, r);
    if ChildOf(g, r).Some? && r < Depth(sides, g) {
      DirectionForms(sides, m, g, r);
      FullDropFeed(sides, m, ChildOf(g, r).value, j);
    } else if ChildOf(g, r).Some? {
      assert TreeOf(sides, ChildOf(g, r).value).None?;
    }
  }

  lemma FullDropFeed(sides: seq<Team>, m: nat, d: Group, j: nat)
    requires Full(sides, m) && IsDirection(d) && TreeOf(sides, d).Some?
    requires Formed(sides, ParentOf(d).0) && MatchIn(sides, ParentOf(d).0, ParentOf(d).1, j)
    ensures DropFeed(sides, d, j, Compass.AllDirections(Rounds(sides))) == To(Entry(MatchId(d, 1, j / 2), j % 2 + 1))
  {
    FormedIsBuilt(sides, d);
    DropperIsParent(sides, d, j);
    FullDirection(sides, m, d);
    DropLandsAtHome(sides, d, j);
  }

  lemma LaneHome(sh: Shape, j: nat)
    requires sh.Valid() && sh.Lane? && AllAlive(sh) && Producer(sh, Loser(Source(1, j)))
    ensures FeedFor(sh, Loser(Source(1, j))) == Lands(Spot(1, j / 2, j % 2 + 1)) && Emitted(sh, 1, j / 2)
  {
    FullLane(sh, j, 0);
    FeedIsRight(sh, Loser(Source(1, j)));
  }

  lemma DropLandsAtHome(sides: seq<Team>, d: Group, j: nat)
    requires IsDirection(d) && TreeOf(sides, d).Some? && AllAlive(TreeOf(sides, d).value)
    requires Producer(TreeOf(sides, d).value, Loser(Source(1, j)))
    ensures LandingFeed(sides, d, FeedFor(TreeOf(sides, d).value, Loser(Source(1, j))))
         == To(Entry(MatchId(d, 1, j / 2), j % 2 + 1))
  {
    LaneHome(TreeOf(sides, d).value, j);
    FullNames(sides, d, 1, j / 2);
  }

  lemma FullWinnerFeed(sides: seq<Team>, m: nat, plan: Plan, id: MatchId)
    requires Full(sides, m) && IsDraw(sides, plan) && id in plan
    ensures Formed(sides, id.group)
    ensures if id.round == Depth(sides, id.group) then plan[id].win == NoFeed
            else plan[id].win.To? && plan[id].win.entry.node.group == id.group && plan[id].win.entry.node.round == id.round + 1
  {
    FullName(sides, m, plan, id);
    FullRounds(sides, m);
    var g, r, j := id.group, id.round, id.slot;
    assert NodeRight(sides, plan, g, r, j);
    if g == East {
      assert BracketMatch(plan, sides, NoFeed, id);
    } else {
      FullDirection(sides, m, g);
      var sh := TreeOf(sides, g).value;
      FullLane(sh, r, j);
      if r < sh.depth {
        UpIsFedByMatch(sh, r, j);
        var x := Up(sh, r, j);
        FullLane(sh, x.round, x.slot);
        FullNames(sides, g, x.round, x.slot);
      }
    }
  }

  lemma FeedIsPriced(sides: seq<Team>, m: nat, plan: Plan, r: Result)
    requires Full(sides, m) && IsDraw(sides, plan) && r.node in plan && FeedOf(plan, r).To?
    ensures SeatGames(FeedOf(plan, r).entry) == GamesBefore(r.node.group) + r.node.round && r.node.round >= 1
  {
    var id := r.node;
    FullName(sides, m, plan, id);
    if r.won {
      FullWinnerFeed(sides, m, plan, id);
    } else {
      assert NodeRight(sides, plan, id.group, id.round, id.slot);
      FullLoserFeed(sides, m, id.group, id.round, id.slot);
    }
  }

  lemma SeedIsFree(sides: seq<Team>, m: nat, plan: Plan, e: Entry)
    requires Full(sides, m) && IsDraw(sides, plan) && IsSeeded(plan, e)
    ensures SeatGames(e) == 0
  {
    SeededInEast(sides, plan, e);
    SeedOfNode(plan, sides, East, NoFeed, e.node, e.team);
    SeedInRoundOne(sides, m, e);
  }

  lemma SeedInRoundOne(sides: seq<Team>, m: nat, e: Entry)
    requires Full(sides, m) && Alive(sides, e.node.round, e.node.slot) && (e.team == 1 || e.team == 2)
    requires SeedFrom(Bracket.InitialSide(sides, e.node.round, e.node.slot, e.team)).Some?
    ensures e.node.round == 1
  {
    FullRounds(sides, m);
    SeededSeat(sides, e);
    HalfOfLine(m, SeedLine(e));
  }

  lemma HalfOfLine(m: nat, line: nat)
    requires m >= 1 && line < Pow2(m)
    ensures line / 2 < Pow2(m - 1)
  {
  }

  lemma PriceRight(sides: seq<Team>, m: nat, plan: Plan, source: map<Entry, Result>, r: Result)
    requires Full(sides, m) && IsDraw(sides, plan) && FedBy(plan, source) && r.node in plan && FeedOf(plan, r).To?
    ensures FeedOf(plan, r).entry in Price(plan)
    ensures PriceAfter(Price(plan), r, 1, 1, 1) == Price(plan)[FeedOf(plan, r).entry]
    ensures PriceAfter(Price(plan), r, 2, 1, 1) == Price(plan)[FeedOf(plan, r).entry]
  {
    assert source[FeedOf(plan, r).entry] == r;
    FeedIsPriced(sides, m, plan, r);
  }

  lemma DrawIsPriced(sides: seq<Team>, m: nat, plan: Plan, source: map<Entry, Result>)
    requires Full(sides, m) && IsDraw(sides, plan) && FedBy(plan, source)
    ensures Priced(plan, Price(plan), 1, 1)
  {
    var price := Price(plan);
    forall e | IsSeeded(plan, e) ensures price[e] == 0 {
      SeedIsFree(sides, m, plan, e);
    }
    forall r: Result | r.node in plan && FeedOf(plan, r).To?
      ensures FeedOf(plan, r).entry in price
      ensures PriceAfter(price, r, 1, 1, 1) == price[FeedOf(plan, r).entry]
      ensures PriceAfter(price, r, 2, 1, 1) == price[FeedOf(plan, r).entry]
    {
      PriceRight(sides, m, plan, source, r);
    }
  }

  /** Directions without a further drop are only reached after enough games. */
  lemma EnoughGames(g: Group, r: nat)
    requires (g == East || IsDirection(g)) && r >= 1 && ChildOf(g, r).None?
    ensures GamesBefore(g) + r >= 4
  {
    if g != East {
      assert GamesBefore(West) == 1 && GamesBefore(North) == 2;
      assert GamesBefore(South) == 2 && GamesBefore(Northeast) == 3;
      assert GamesBefore(Southwest) == 3 && GamesBefore(Northwest) == 3 && GamesBefore(Southeast) == 3;
    }
  }

  /** A result that leads nowhere comes after min(m, 4) games. */
  lemma LastGame(sides: seq<Team>, m: nat, plan: Plan, r: Result)
    requires Full(sides, m) && IsDraw(sides, plan) && r.node in plan && FeedOf(plan, r) == NoFeed
    ensures r.node.round >= 1
    ensures GamesBefore(r.node.group) + r.node.round >= if m < 4 then m else 4
  {
    var id := r.node;
    FullName(sides, m, plan, id);
    FullDirection(sides, m, id.group);
    if r.won {
      FullWinnerFeed(sides, m, plan, id);
    } else {
      assert NodeRight(sides, plan, id.group, id.round, id.slot);
      FullLoserFeed(sides, m, id.group, id.round, id.slot);
      if ChildOf(id.group, id.round).None? {
        EnoughGames(id.group, id.round);
      }
    }
  }

  /** Whatever the field size and the outcomes, play of a compass never stalls, and once every
      match is played everyone is out. */
  lemma CompassNeverStalls(sides: seq<Team>, plan: Compass.CompassPlan, calls: seq<Call>)
    requires |sides| >= 2 && DistinctTeams(sides) && Compass.IsCompass(sides, plan)
    requires Legal(DrawOf(plan), Start(DrawOf(plan)), calls)
    ensures var draw := DrawOf(plan);
            var st := PlayAll(draw, Start(draw), calls);
            if draw.Keys <= st.played
            then forall i | 0 <= i < |sides| :: sides[i] in st.place && st.place[sides[i]].Gone?
            else exists id :: Ready(draw, st, id)
  {
    var draw := DrawOf(plan);
    PlanIsDraw(sides, plan);
    CompassIsWired(sides, draw);
    DrawHasDistinctSeeds(sides, draw);
    var source := SourceMap(sides, draw);
    StartSound(draw, source);
    RunIsSound(draw, source, Start(draw), calls);
    StallOrOver(sides, draw, source, PlayAll(draw, Start(draw), calls));
  }

  lemma StallOrOver(sides: seq<Team>, draw: Plan, source: map<Entry, Result>, st: State)
    requires |sides| >= 2 && IsDraw(sides, draw) && FedBy(draw, source) && Sound(draw, source, st)
    requires forall e | IsSeeded(draw, e) :: e.node.group == East
    ensures if draw.Keys <= st.played
            then forall i | 0 <= i < |sides| :: sides[i] in st.place && st.place[sides[i]].Gone?
            else exists id :: Ready(draw, st, id)
  {
    if draw.Keys <= st.played {
      EntrantsAreSides(draw, sides, East, NoFeed);
    } else {
      StillReady(draw, source, st, {});
    }
  }

  /** The compass guarantee: in a full field of 2^m, whatever the outcomes, nobody is out of the
      draw before having played min(m, 4) matches. */
  lemma EveryonePlaysEnough(sides: seq<Team>, m: nat, plan: Compass.CompassPlan, calls: seq<Call>, i: nat)
    requires Full(sides, m) && DistinctTeams(sides) && Compass.IsCompass(sides, plan) && i < |sides|
    requires Legal(DrawOf(plan), Start(DrawOf(plan)), calls)
    ensures var draw := DrawOf(plan);
            var st := PlayAll(draw, Start(draw), calls);
            && sides[i] in st.place
            && (st.place[sides[i]].Gone? ==> Games(st.log, sides[i]) >= if m < 4 then m else 4)
  {
    FullRounds(sides, m);
    var draw := DrawOf(plan);
    PlanIsDraw(sides, plan);
    CompassIsWired(sides, draw);
    var source := SourceMap(sides, draw);
    DrawHasDistinctSeeds(sides, draw);
    DrawIsPriced(sides, m, draw, source);
    RunFromStart(draw, source, calls, Price(draw), 1, 1);
    EntrantsAreSides(draw, sides, East, NoFeed);
    GamesWhenGone(sides, m, draw, PlayAll(draw, Start(draw), calls), sides[i]);
  }

  lemma GamesWhenGone(sides: seq<Team>, m: nat, draw: Plan, st: State, p: Team)
    requires Full(sides, m) && IsDraw(sides, draw) && NobodyLost(draw, st) && Paid(draw, st, Price(draw), 1, 1)
    requires p in st.place
    ensures st.place[p].Gone? ==> Games(st.log, p) >= if m < 4 then m else 4
  {
    if st.place[p].Gone? {
      var r := st.place[p].last;
      LastGame(sides, m, draw, r);
      assert PaidUp(st.place[p], Games(st.log, p), Price(draw), 1, 1);
    }
  }
}
