/** Which direction a loser goes to, told from the finished compass alone. */
module CompassTable {
  import opened Draws
  import opened Powers
  import opened Knockout
  import opened Collapse
  import opened CompassDraw
  import opened CompassPlay
  import opened CompassGames
  import opened DropTree
  import ConsolationTree
  import Compass

  // --- any field ------------------------------------------------------------------------------

  /** `id` is a match of a round in which another match is played too. */
  ghost predicate HasCompany(draw: Plan, id: MatchId) {
    exists other :: other in draw && other != id && other.group == id.group && other.round == id.round
  }

  /** Another loser of the same round, at another place. */
  lemma CompanyDrops(sides: seq<Team>, g: Group, j: nat, j': nat)
    requires IsDirection(g) && ParentOf(g).1 < Depth(sides, ParentOf(g).0)
    requires MatchIn(sides, ParentOf(g).0, ParentOf(g).1, j) && MatchIn(sides, ParentOf(g).0, ParentOf(g).1, j')
    requires j != j'
    ensures TreeOf(sides, g).Some?
  {
    Compass.SlotDrops(sides, g, j);
    Compass.SlotDrops(sides, g, j');
    ConsolationTree.TwoAreCounted(Dropping(sides, g), if j < j' then j else j', if j < j' then j' else j);
  }

  /** Two played matches of one round leave the bracket a later round. */
  lemma CompanyIsEarly(sides: seq<Team>, p: Group, r: nat, j: nat, j': nat)
    requires (p == East || IsDirection(p)) && MatchIn(sides, p, r, j) && MatchIn(sides, p, r, j') && j != j'
    ensures 1 <= r < Depth(sides, p)
  {
    Compass.SlotInRange(sides, p, r, j);
    Compass.SlotInRange(sides, p, r, j');
    assert Pow2(0) == 1;
  }

  /** A direction that formed takes in two losers or more. */
  lemma FormedHasCompany(sides: seq<Team>, g: Group, j: nat) returns (j': nat)
    requires IsDirection(g) && TreeOf(sides, g).Some? && Formed(sides, ParentOf(g).0)
    ensures j' != j && MatchIn(sides, ParentOf(g).0, ParentOf(g).1, j')
  {
    ParentFormed(sides, g);
    var a, b := ConsolationTree.TwoDroppers(Dropping(sides, g));
    j' := if a == j then b else a;
    DroppingAt(sides, g, j');
  }

  ghost predicate OthersDrop(sides: seq<Team>, p: Group, r: nat, j: nat)
    requires p == East || IsDirection(p)
  {
    exists j': nat :: j' != j && MatchIn(sides, p, r, j')
  }

  /** The loser of a match of a round that feeds direction `d` goes there if and only if it is not the
      only loser of its round; otherwise it is out. */
  lemma LoserOf(sides: seq<Team>, d: Group, p: Group, r: nat, j: nat)
    requires IsDirection(d) && ParentOf(d) == (p, r) && Formed(sides, p) && MatchIn(sides, p, r, j)
    ensures LoserGoes(sides, p, r, j).To? <==> OthersDrop(sides, p, r, j)
    ensures LoserGoes(sides, p, r, j).To? ==> LoserGoes(sides, p, r, j).entry.node.group == d
  {
    ChildHasParent(p, r);
    assert ChildOf(p, r) == Some(d);
    if OthersDrop(sides, p, r, j) {
      var j': nat :| j' != j && MatchIn(sides, p, r, j');
      CompanyIsEarly(sides, p, r, j, j');
      CompanyDrops(sides, d, j, j');
    }
    if TreeOf(sides, d).Some? {
      var j' := FormedHasCompany(sides, d, j);
      PlaysOn(sides, d, j);
      ParentsLoserGoes(sides, d, j);
    }
  }

  /** With company, a loser plays on. */
  lemma PlaysOn(sides: seq<Team>, d: Group, j: nat)
    requires IsDirection(d) && TreeOf(sides, d).Some? && Formed(sides, ParentOf(d).0)
    requires MatchIn(sides, ParentOf(d).0, ParentOf(d).1, j)
    ensures Producer(TreeOf(sides, d).value, Loser(Source(1, j)))
    ensures var feed := LandingFeed(sides, d, FeedFor(TreeOf(sides, d).value, Loser(Source(1, j))));
            feed.To? && feed.entry.node.group == d
  {
    var sh := TreeOf(sides, d).value;
    DropperIsParent(sides, d, j);
    var j' := FormedHasCompany(sides, d, j);
    DropperIsParent(sides, d, j');
    EveryDropperPlays(sh, Source(1, j), Source(1, j'));
  }

  lemma EastCompany(sides: seq<Team>, plan: Compass.CompassPlan, id: MatchId)
    requires Compass.IsCompass(sides, plan) && id in DrawOf(plan) && id.group == East
    ensures OthersDrop(sides, East, id.round, id.slot) <==> HasCompany(DrawOf(plan), id)
  {
    var draw, r := DrawOf(plan), id.round;
    if HasCompany(draw, id) {
      var other :| other in draw && other != id && other.group == East && other.round == r;
      EastNode(sides, plan, other);
      assert MatchIn(sides, East, r, other.slot);
    }
    if OthersDrop(sides, East, r, id.slot) {
      var j': nat :| j' != id.slot && MatchIn(sides, East, r, j');
      var other := MatchId(East, r, j');
      EastNode(sides, plan, other);
      assert other in draw && other != id;
    }
  }

  /** East: the losers of round 1 go West, of round 2 North, of round 3 Northeast, and of a later
      round to the direction of that round; unless they are the only loser of their round. */
  lemma EastLosersGo(sides: seq<Team>, plan: Compass.CompassPlan, id: MatchId)
    requires Compass.IsCompass(sides, plan) && id in DrawOf(plan) && id.group == East
    ensures var lose := DrawOf(plan)[id].lose;
            && (lose.To? <==> HasCompany(DrawOf(plan), id))
            && (lose.To? ==> lose.entry.node.group == (if id.round == 1 then West else if id.round == 2 then North
                                                       else if id.round == 3 then Northeast else EastRound(id.round)))
  {
    PlanIsDraw(sides, plan);
    EastNode(sides, plan, id);
    assert NodeRight(sides, DrawOf(plan), East, id.round, id.slot);
    EastCompany(sides, plan, id);
    LoserOf(sides, CompassGroup(id.round), East, id.round, id.slot);
  }

  /** The directions feed sideways: the losers of West round 1 go South, of West round 2 Southwest, of
      North round 1 Northwest and of South round 1 Southeast, unless they are the only loser of their
      round; every other loser of a direction is out. Rounds are those before renumbering. */
  lemma DirectionLosersGo(sides: seq<Team>, plan: Compass.CompassPlan, id: MatchId) returns (r: nat)
    requires Compass.IsCompass(sides, plan) && id in DrawOf(plan) && id.group != East
    ensures Names(sides, id, r)
    ensures var lose, g := DrawOf(plan)[id].lose, id.group;
            if g == West && r == 1 then GoesTo(sides, lose, South, g, r, id.slot)
            else if g == West && r == 2 then GoesTo(sides, lose, Southwest, g, r, id.slot)
            else if g == North && r == 1 then GoesTo(sides, lose, Northwest, g, r, id.slot)
            else if g == South && r == 1 then GoesTo(sides, lose, Southeast, g, r, id.slot)
            else lose == NoFeed
  {
    PlanIsDraw(sides, plan);
    r := NameOf(sides, plan, id);
    var g := id.group;
    assert NodeRight(sides, DrawOf(plan), g, r, id.slot);
    Compass.SlotInRange(sides, g, r, id.slot);
    ChildHasParent(g, r);
    if ChildOf(g, r).Some? {
      LoserOf(sides, ChildOf(g, r).value, g, r, id.slot);
    }
  }

  /** The loser plays on in `d`, or is the only one of its round. */
  ghost predicate GoesTo(sides: seq<Team>, lose: Feed, d: Group, g: Group, r: nat, j: nat)
    requires Formed(sides, g)
  {
    (lose.To? <==> OthersDrop(sides, g, r, j)) && (lose.To? ==> lose.entry.node.group == d)
  }

  // --- inside a direction ---------------------------------------------------------------------

  /** A loser enters its direction where its half of the feeding round meets the next that has a loser. */
  lemma EntersDirection(sides: seq<Team>, plan: Compass.CompassPlan, d: Group, j: nat)
    requires Compass.IsCompass(sides, plan) && IsDirection(d) && TreeOf(sides, d).Some?
    requires Formed(sides, ParentOf(d).0) && MatchIn(sides, ParentOf(d).0, ParentOf(d).1, j)
    ensures ParentOf(d).1 < Depth(sides, ParentOf(d).0)
    ensures var id := IdOf(sides, ParentOf(d).0, ParentOf(d).1, j);
            id in DrawOf(plan) && GoesToFirst(Dropping(sides, d), 0, j, d, DrawOf(plan)[id].lose)
  {
    PlanIsDraw(sides, plan);
    assert NodeRight(sides, DrawOf(plan), ParentOf(d).0, ParentOf(d).1, j);
    ParentFormed(sides, d);
    DropperIsParent(sides, d, j);
    LoserIsDropper(TreeOf(sides, d).value, j);
    ParentsLoserGoes(sides, d, j);
    DropGoesToFirst(TreeOf(sides, d).value, d, j);
  }

  /** A direction has a match where two halves with losers meet, in the round of its level, and its winner goes to the
      next such place. */
  lemma DirectionMatches(sides: seq<Team>, plan: Compass.CompassPlan, d: Group, x: nat, j: nat)
    requires Compass.IsCompass(sides, plan) && IsDirection(d) && TreeOf(sides, d).Some?
    ensures ParentOf(d).1 < Depth(sides, ParentOf(d).0)
    ensures MatchIn(sides, d, x, j) <==> BothHalves(Dropping(sides, d), x, j)
    ensures MatchIn(sides, d, x, j) ==>
              var id := MatchId(d, RoundNo(Dropping(sides, d), x), j);
              id in DrawOf(plan) && GoesToFirst(Dropping(sides, d), x, j, d, DrawOf(plan)[id].win)
  {
    PlanIsDraw(sides, plan);
    ParentFormed(sides, d);
    MeetsWhereHalvesMeet(TreeOf(sides, d).value, x, j);
    if MatchIn(sides, d, x, j) {
      assert NodeRight(sides, DrawOf(plan), d, x, j);
      WinGoesToFirst(TreeOf(sides, d).value, d, x, j);
    }
  }

  // --- a full field ---------------------------------------------------------------------------

  /** How many rounds each bracket of a full field of 2^m has; none when it does not form. */
  function RoundsIn(g: Group, m: nat): int {
    match g
    case East => m
    case West => m - 1
    case North => m - 2
    case South => m - 2
    case Northeast => m - 3
    case Southwest => m - 3
    case Northwest => m - 3
    case Southeast => m - 3
    case EastRound(n) => if n >= 4 then m - n else 0
    case _ => 0
  }

  /** Where the losers of round `r` of each bracket go, with `m` rounds in the East. */
  function Sideways(g: Group, r: nat, m: nat): Option<Group> {
    if r >= RoundsIn(g, m) then None
    else if g == East then
      Some(if r == 1 then West else if r == 2 then North else if r == 3 then Northeast else EastRound(r))
    else if g == West && r == 1 then Some(South)
    else if g == West && r == 2 then Some(Southwest)
    else if g == North && r == 1 then Some(Northwest)
    else if g == South && r == 1 then Some(Southeast)
    else None
  }

  lemma BeforeEach(g: Group)
    requires g == East || IsDirection(g)
    ensures GamesBefore(East) == 0 && GamesBefore(West) == 1 && GamesBefore(South) == 2
    ensures forall m: nat :: RoundsIn(g, m) == m - GamesBefore(g)
  {
    assert GamesBefore(East) == 0;
    assert GamesBefore(West) == 1 && GamesBefore(North) == 2;
    assert GamesBefore(South) == 2;
  }

  /** A bracket of a full field forms if and only if the table gives it a round. */
  lemma {:induction false} FormsAsTabled(sides: seq<Team>, m: nat, g: Group)
    requires Full(sides, m)
    ensures Formed(sides, g) <==> RoundsIn(g, m) >= 1
    ensures Formed(sides, g) ==> Depth(sides, g) == RoundsIn(g, m)
    decreases Stage(g)
  {
    FullRounds(sides, m);
    if g == East {
    } else if IsDirection(g) {
      FormsAsTabled(sides, m, ParentOf(g).0);
      FormsLikeParent(sides, m, g, ParentOf(g).0, ParentOf(g).1);
    }
  }

  lemma FormsLikeParent(sides: seq<Team>, m: nat, g: Group, p: Group, r: nat)
    requires Full(sides, m) && IsDirection(g) && ParentOf(g) == (p, r)
    requires Formed(sides, p) <==> RoundsIn(p, m) >= 1
    requires Formed(sides, p) ==> Depth(sides, p) == RoundsIn(p, m)
    ensures Formed(sides, g) <==> RoundsIn(g, m) >= 1
    ensures Formed(sides, g) ==> Depth(sides, g) == RoundsIn(g, m)
  {
    BeforeEach(g);
    BeforeEach(p);
    assert RoundsIn(g, m) == RoundsIn(p, m) - r;
    if Formed(sides, g) {
      ParentFormed(sides, g);
      FullDirection(sides, m, g);
    } else if RoundsIn(g, m) >= 1 {
      ChildHasParent(p, r);
      DirectionForms(sides, m, p, r);
    }
  }

  /** The whole compass of a full field: which matches it has, and where winner and loser of each go. */
  lemma FullTable(sides: seq<Team>, m: nat, plan: Compass.CompassPlan, id: MatchId)
    requires Full(sides, m) && Compass.IsCompass(sides, plan)
    ensures id in DrawOf(plan) <==> Tabled(id, m)
    ensures id in DrawOf(plan) ==>
              && DrawOf(plan)[id].win == WinnerGoes(id.group, id.round, id.slot, m)
              && DrawOf(plan)[id].lose == LoserIsSent(id.group, id.round, id.slot, m)
  {
    PlanIsDraw(sides, plan);
    KeyIsTabled(sides, m, DrawOf(plan), id);
    if id in DrawOf(plan) {
      FeedsAreTabled(sides, m, DrawOf(plan), id);
    }
  }

  /** The winner goes up its bracket, to the match its slot is one half of. */
  function WinnerGoes(g: Group, r: nat, j: nat, m: nat): Feed {
    if r < RoundsIn(g, m) then To(Entry(MatchId(g, r + 1, j / 2), j % 2 + 1)) else NoFeed
  }

  /** The loser goes to round 1 of the direction the table names, next to its neighbour's. */
  function LoserIsSent(g: Group, r: nat, j: nat, m: nat): Feed {
    match Sideways(g, r, m)
    case Some(d) => To(Entry(MatchId(d, 1, j / 2), j % 2 + 1))
    case None => NoFeed
  }

  lemma KeyIsTabled(sides: seq<Team>, m: nat, draw: Plan, id: MatchId)
    requires Full(sides, m) && IsDraw(sides, draw)
    ensures id in draw <==> Tabled(id, m)
  {
    FormsAsTabled(sides, m, id.group);
    if Tabled(id, m) {
      TabledAreKeys(sides, m, draw, id.group, id.round, id.slot, RoundsIn(id.group, m));
    }
    if id in draw {
      FullName(sides, m, draw, id);
      Compass.SlotInRange(sides, id.group, id.round, id.slot);
    }
  }

  lemma FeedsAreTabled(sides: seq<Team>, m: nat, draw: Plan, id: MatchId)
    requires Full(sides, m) && IsDraw(sides, draw) && id in draw
    ensures draw[id].win == WinnerGoes(id.group, id.round, id.slot, m)
    ensures draw[id].lose == LoserIsSent(id.group, id.round, id.slot, m)
  {
    FullName(sides, m, draw, id);
    FormsAsTabled(sides, m, id.group);
    TabledLoser(sides, m, draw, id);
    TabledWinner(sides, m, draw, id);
  }

  /** A bracket's rounds are halved from one to the next, down to its final. */
  predicate Tabled(id: MatchId, m: nat) {
    1 <= id.round <= RoundsIn(id.group, m) && id.slot < Pow2(RoundsIn(id.group, m) - id.round)
  }

  lemma TabledAreKeys(sides: seq<Team>, m: nat, draw: Plan, g: Group, r: nat, j: nat, n: nat)
    requires Full(sides, m) && IsDraw(sides, draw) && Formed(sides, g) && Depth(sides, g) == n
    requires 1 <= r <= n && j < Pow2(n - r)
    ensures MatchId(g, r, j) in draw
  {
    FullDirection(sides, m, g);
    assert MatchIn(sides, g, r, j);
    assert NodeRight(sides, draw, g, r, j);
    if g != East {
      FullNames(sides, g, r, j);
    }
  }

  lemma TabledLoser(sides: seq<Team>, m: nat, draw: Plan, id: MatchId)
    requires Full(sides, m) && IsDraw(sides, draw) && id in draw
    requires Formed(sides, id.group) && Depth(sides, id.group) == RoundsIn(id.group, m)
    requires MatchIn(sides, id.group, id.round, id.slot)
    ensures draw[id].lose == LoserIsSent(id.group, id.round, id.slot, m)
  {
    var g, r, j := id.group, id.round, id.slot;
    FullName(sides, m, draw, id);
    assert NodeRight(sides, draw, g, r, j);
    FullLoserFeed(sides, m, g, r, j);
  }

  lemma TabledWinner(sides: seq<Team>, m: nat, draw: Plan, id: MatchId)
    requires Full(sides, m) && IsDraw(sides, draw) && id in draw
    requires Formed(sides, id.group) && Depth(sides, id.group) == RoundsIn(id.group, m)
    requires MatchIn(sides, id.group, id.round, id.slot)
    ensures draw[id].win == WinnerGoes(id.group, id.round, id.slot, m)
  {
    var g, r, j := id.group, id.round, id.slot;
    if g == East {
      EastWinner(sides, m, draw, id);
    } else {
      FullName(sides, m, draw, id);
      FullDirection(sides, m, g);
      DirectionWin(sides, draw, g, r, j);
      DirectionTree(sides, g, r, j);
      EmittedInRange(TreeOf(sides, g).value, r, j);
      TreeWinner(sides, g, TreeOf(sides, g).value, r, j);
    }
  }

  lemma EastWinner(sides: seq<Team>, m: nat, draw: Plan, id: MatchId)
    requires Full(sides, m) && IsDraw(sides, draw) && id in draw && id.group == East
    ensures draw[id].win == WinnerGoes(East, id.round, id.slot, m)
  {
    FullRounds(sides, m);
    assert BracketMatch(draw, sides, NoFeed, id);
  }

  lemma DirectionWin(sides: seq<Team>, draw: Plan, g: Group, r: nat, j: nat)
    requires IsDraw(sides, draw) && IsDirection(g) && TreeOf(sides, g).Some? && MatchIn(sides, g, r, j)
    ensures IdOf(sides, g, r, j) in draw
    ensures draw[IdOf(sides, g, r, j)].win == LandingFeed(sides, g, FeedFor(TreeOf(sides, g).value, Winner(r, j)))
  {
    assert NodeRight(sides, draw, g, r, j);
  }

  lemma TreeWinner(sides: seq<Team>, g: Group, sh: Shape, r: nat, j: nat)
    requires IsDirection(g) && TreeOf(sides, g) == Some(sh) && AllAlive(sh) && Emitted(sh, r, j)
    ensures LandingFeed(sides, g, FeedFor(sh, Winner(r, j)))
         == if r == sh.depth then NoFeed else To(Entry(MatchId(g, r + 1, j / 2), j % 2 + 1))
  {
    WinnerUp(sh, r, j);
    if r < sh.depth {
      DirectionTree(sides, g, r + 1, j / 2);
      FullNames(sides, g, r + 1, j / 2);
    }
  }

  lemma WinnerUp(sh: Shape, r: nat, j: nat)
    requires sh.Valid() && sh.Lane? && AllAlive(sh) && Emitted(sh, r, j)
    ensures FeedFor(sh, Winner(r, j)) == if r == sh.depth then Top else Lands(Spot(r + 1, j / 2, j % 2 + 1))
    ensures r < sh.depth ==> Emitted(sh, r + 1, j / 2)
  {
    FullLane(sh, r, j);
    if r < sh.depth {
      UpIsFedByMatch(sh, r, j);
      FullLane(sh, r + 1, j / 2);
    }
  }

  /** Does a bracket of this name have a match? */
  ghost predicate Holds(draw: Plan, g: Group) {
    exists id :: id in draw && id.group == g
  }

  /** With 8 teams the compass is East, West, North and South. */
  lemma EightTeams(sides: seq<Team>, plan: Compass.CompassPlan, g: Group)
    requires |sides| == 8 && Compass.IsCompass(sides, plan)
    ensures Holds(DrawOf(plan), g) <==> g in {East, West, North, South}
  {
    assert Pow2(1) == 2 && Pow2(2) == 4 && Pow2(3) == 8;
    BracketHolds(sides, 3, plan, g);
  }

  /** With 16 it has eight brackets. */
  lemma SixteenTeams(sides: seq<Team>, plan: Compass.CompassPlan, g: Group)
    requires |sides| == 16 && Compass.IsCompass(sides, plan)
    ensures Holds(DrawOf(plan), g) <==> g in {East, West, North, South, Northeast, Southwest, Northwest, Southeast}
  {
    assert Pow2(1) == 2 && Pow2(2) == 4 && Pow2(3) == 8 && Pow2(4) == 16;
    BracketHolds(sides, 4, plan, g);
  }

  lemma BracketHolds(sides: seq<Team>, m: nat, plan: Compass.CompassPlan, g: Group)
    requires Full(sides, m) && Compass.IsCompass(sides, plan)
    ensures Holds(DrawOf(plan), g) <==> RoundsIn(g, m) >= 1
  {
    if RoundsIn(g, m) >= 1 {
      FullTable(sides, m, plan, MatchId(g, 1, 0));
    }
    if Holds(DrawOf(plan), g) {
      var id :| id in DrawOf(plan) && id.group == g;
      FullTable(sides, m, plan, id);
    }
  }
}
