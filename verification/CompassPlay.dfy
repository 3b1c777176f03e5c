/** Playing a compass draw: for every field size each seat of every direction has exactly one
    producing feed, and a full field gives everyone its promised games. */
module CompassPlay {
  import opened Draws
  import opened Play
  import opened Knockout
  import opened Collapse
  import opened CompassDraw
  import ConsolationTree
  import Compass
  import Relabel
  import SingleElimination

  function DrawOf(plan: Compass.CompassPlan): Plan {
    Playable(plan.matches)
  }

  /** The feed of the loser of match (r, j) of `g` in the finished plan. */
  ghost function LoserGoes(sides: seq<Team>, g: Group, r: nat, j: nat): Feed
    requires g == East || IsDirection(g)
  {
    LoseFeed(sides, g, r, j, Compass.AllDirections(Rounds(sides)))
  }

  /** A bracket that is part of the draw: East, or a direction that formed. */
  predicate Formed(sides: seq<Team>, g: Group) {
    g == East || (IsDirection(g) && TreeOf(sides, g).Some?)
  }

  /** `id` names match (r, id.slot) of its bracket. */
  predicate Names(sides: seq<Team>, id: MatchId, r: nat) {
    Formed(sides, id.group) && MatchIn(sides, id.group, r, id.slot) && IdOf(sides, id.group, r, id.slot) == id
  }

  ghost predicate Named(sides: seq<Team>, id: MatchId) {
    exists r: nat :: Names(sides, id, r)
  }

  /** Match (r, j) of bracket `g` is in the plan, with the feeds of the closed form. */
  ghost predicate NodeRight(sides: seq<Team>, plan: Plan, g: Group, r: nat, j: nat)
    requires Formed(sides, g) && MatchIn(sides, g, r, j)
  {
    var id := IdOf(sides, g, r, j);
    && id in plan && plan[id].lose == LoserGoes(sides, g, r, j)
    && (g != East ==>
          plan[id] == Node(None, None, LandingFeed(sides, g, FeedFor(TreeOf(sides, g).value, Winner(r, j))), plan[id].lose))
  }

  /** The matches to be played, in closed form. */
  ghost predicate IsDraw(sides: seq<Team>, plan: Plan) {
    && HasBracket(plan, sides, East, NoFeed)
    && (forall id {:trigger Named(sides, id)} | id in plan :: Named(sides, id))
    && (forall g, r: nat, j: nat {:trigger NodeRight(sides, plan, g, r, j)} | Formed(sides, g) && MatchIn(sides, g, r, j) ::
          NodeRight(sides, plan, g, r, j))
  }

  lemma FormedIsBuilt(sides: seq<Team>, g: Group)
    requires IsDirection(g) && TreeOf(sides, g).Some?
    ensures g in Compass.AllDirections(Rounds(sides))
  {
    if g.EastRound? {
      assert CompassGroup(g.n) == g;
    } else if g == West {
      assert CompassGroup(1) == g;
    } else if g == North {
      assert CompassGroup(2) == g;
    } else if g == Northeast {
      assert CompassGroup(3) == g;
    }
  }

  lemma SpecAt(sides: seq<Team>, plan: Compass.CompassPlan, g: Group, r: nat, j: nat)
    requires Compass.IsCompass(sides, plan) && Formed(sides, g) && MatchIn(sides, g, r, j)
    ensures IdOf(sides, g, r, j) in plan.matches
    ensures plan.matches[IdOf(sides, g, r, j)].resolvedWinner.None?
    ensures g == East ==>
              plan.matches[IdOf(sides, g, r, j)] == EastSpec(sides, r, j, Compass.AllDirections(Rounds(sides)))
    ensures g != East ==>
              plan.matches[IdOf(sides, g, r, j)] == DirectionSpec(sides, g, r, j, Compass.AllDirections(Rounds(sides)))
  {
    if g == East {
      assert EastIn(sides, plan.matches, r, j, Compass.AllDirections(Rounds(sides)));
      SingleElimination.TaggedNode(sides, East, NoFeed, r, j);
    } else {
      FormedIsBuilt(sides, g);
      assert DirectionIn(sides, plan.matches, g, r, j, Compass.AllDirections(Rounds(sides)));
    }
  }

  lemma NameOf(sides: seq<Team>, plan: Compass.CompassPlan, id: MatchId) returns (r: nat)
    requires Compass.IsCompass(sides, plan) && id in DrawOf(plan)
    ensures Names(sides, id, r)
  {
    assert HasPlace(sides, id, Compass.AllDirections(Rounds(sides)));
    if id.group == East {
      r := id.round;
      assert EastIn(sides, plan.matches, r, id.slot, Compass.AllDirections(Rounds(sides)));
      assert id == MatchId(East, r, id.slot);
      SingleElimination.TaggedNode(sides, East, NoFeed, id.round, id.slot);
    } else {
      r :| MatchIn(sides, id.group, r, id.slot) && IdOf(sides, id.group, r, id.slot) == id;
    }
  }

  lemma EastNode(sides: seq<Team>, plan: Compass.CompassPlan, id: MatchId)
    requires Compass.IsCompass(sides, plan) && id.group == East
    ensures id in DrawOf(plan) <==> Alive(sides, id.round, id.slot)
    ensures id in DrawOf(plan) ==>
              DrawOf(plan)[id] == KnockoutNode(sides, East, id.round, id.slot, NoFeed, DrawOf(plan)[id].lose)
  {
    if id in DrawOf(plan) {
      var r := NameOf(sides, plan, id);
      SpecAt(sides, plan, East, r, id.slot);
      SingleElimination.TaggedNode(sides, East, NoFeed, id.round, id.slot);
    }
    if Alive(sides, id.round, id.slot) {
      SpecAt(sides, plan, East, id.round, id.slot);
    }
  }

  lemma NodeIsRight(sides: seq<Team>, plan: Compass.CompassPlan, g: Group, r: nat, j: nat)
    requires Compass.IsCompass(sides, plan) && Formed(sides, g) && MatchIn(sides, g, r, j)
    ensures NodeRight(sides, DrawOf(plan), g, r, j)
  {
    SpecAt(sides, plan, g, r, j);
  }

  /** Every generated compass is such a draw. */
  lemma PlanIsDraw(sides: seq<Team>, plan: Compass.CompassPlan)
    requires Compass.IsCompass(sides, plan)
    ensures IsDraw(sides, DrawOf(plan))
  {
    var draw := DrawOf(plan);
    assert HasBracket(draw, sides, East, NoFeed) by {
      forall id: MatchId | id.group == East
        ensures id in draw <==> Alive(sides, id.round, id.slot)
        ensures id in draw ==> draw[id] == KnockoutNode(sides, East, id.round, id.slot, NoFeed, draw[id].lose)
      {
        EastNode(sides, plan, id);
      }
    }
    forall id {:trigger Named(sides, id)} | id in draw ensures Named(sides, id) {
      var r := NameOf(sides, plan, id);
    }
    forall g, r: nat, j: nat {:trigger NodeRight(sides, draw, g, r, j)} | Formed(sides, g) && MatchIn(sides, g, r, j)
      ensures NodeRight(sides, draw, g, r, j)
    {
      NodeIsRight(sides, plan, g, r, j);
    }
  }

  // --- the wiring -----------------------------------------------------------------------------

  /** The round before renumbering of a match of the plan. */
  ghost function StructRound(sides: seq<Team>, id: MatchId): nat
    requires Named(sides, id)
  {
    var r: nat :| Names(sides, id, r);
    r
  }

  lemma StructRoundOf(sides: seq<Team>, g: Group, r: nat, j: nat)
    requires Formed(sides, g) && MatchIn(sides, g, r, j)
    ensures Names(sides, IdOf(sides, g, r, j), r) && StructRound(sides, IdOf(sides, g, r, j)) == r
  {
    var id := IdOf(sides, g, r, j);
    assert Names(sides, id, r);
    var r' := StructRound(sides, id);
    IdOfInjective(sides, g, r, j, r', j);
  }

  /** Who produces the team in a seat of a direction: a parent's loser, or an earlier winner. */
  function ResultOf(sides: seq<Team>, g: Group, t: Token): Result
    requires IsDirection(g) && TreeOf(sides, g).Some? && t != Bye
    requires Formed(sides, ParentOf(g).0)
  {
    match t
    case Loser(s) => Result(IdOf(sides, ParentOf(g).0, ParentOf(g).1, s.slot), false)
    case Winner(r, j) => Result(IdOf(sides, g, r, j), true)
  }

  lemma ParentFormed(sides: seq<Team>, g: Group)
    requires IsDirection(g) && TreeOf(sides, g).Some?
    ensures Formed(sides, ParentOf(g).0) && ParentOf(g).1 < Depth(sides, ParentOf(g).0)
    ensures TreeOf(sides, g).value.alive == Dropping(sides, g)
    ensures ConsolationTree.Droppers(Dropping(sides, g)) >= 2
    ensures TreeOf(sides, g).value.depth == Depth(sides, ParentOf(g).0) - ParentOf(g).1
  {
  }

  /** A source of a direction's tree is the loser of a match really played. */
  lemma DropperIsParent(sides: seq<Team>, g: Group, s: nat)
    requires IsDirection(g) && TreeOf(sides, g).Some?
    ensures Producer(TreeOf(sides, g).value, Loser(Source(1, s))) <==> MatchIn(sides, ParentOf(g).0, ParentOf(g).1, s)
  {
    ParentFormed(sides, g);
    LoserIsDropper(TreeOf(sides, g).value, s);
    DroppingIsPlayed(sides, g, s);
  }

  lemma DroppingIsPlayed(sides: seq<Team>, g: Group, s: nat)
    requires IsDirection(g) && ParentOf(g).1 < Depth(sides, ParentOf(g).0) && Formed(sides, ParentOf(g).0)
    ensures s < |Dropping(sides, g)| && Dropping(sides, g)[s] <==> MatchIn(sides, ParentOf(g).0, ParentOf(g).1, s)
  {
    if MatchIn(sides, ParentOf(g).0, ParentOf(g).1, s) {
      Compass.SlotInRange(sides, ParentOf(g).0, ParentOf(g).1, s);
    }
    if s < |Dropping(sides, g)| {
      DroppingAt(sides, g, s);
    }
  }

  /** The loser of a parent match goes where the direction's tree has it land. */
  lemma ParentsLoserGoes(sides: seq<Team>, g: Group, s: nat)
    requires IsDirection(g) && TreeOf(sides, g).Some? && Producer(TreeOf(sides, g).value, Loser(Source(1, s)))
    ensures Formed(sides, ParentOf(g).0) && MatchIn(sides, ParentOf(g).0, ParentOf(g).1, s)
    ensures LoserGoes(sides, ParentOf(g).0, ParentOf(g).1, s)
         == LandingFeed(sides, g, FeedFor(TreeOf(sides, g).value, Loser(Source(1, s))))
  {
    ParentFormed(sides, g);
    DropperIsParent(sides, g, s);
    FormedIsBuilt(sides, g);
    ChildHasParent(ParentOf(g).0, ParentOf(g).1);
  }

  lemma LoserTokenFeed(sides: seq<Team>, plan: Plan, g: Group, slot: nat)
    requires IsDraw(sides, plan) && IsDirection(g) && TreeOf(sides, g).Some?
    requires Producer(TreeOf(sides, g).value, Loser(Source(1, slot)))
    ensures Formed(sides, ParentOf(g).0)
    ensures
      var t := Loser(Source(1, slot));
      && ResultOf(sides, g, t).node in plan
      && FeedOf(plan, ResultOf(sides, g, t)) == LandingFeed(sides, g, FeedFor(TreeOf(sides, g).value, t))
  {
    ParentsLoserGoes(sides, g, slot);
    assert NodeRight(sides, plan, ParentOf(g).0, ParentOf(g).1, slot);
  }

  lemma WinnerTokenFeed(sides: seq<Team>, plan: Plan, g: Group, r: nat, j: nat)
    requires IsDraw(sides, plan) && IsDirection(g) && TreeOf(sides, g).Some? && Emitted(TreeOf(sides, g).value, r, j)
    ensures Formed(sides, ParentOf(g).0)
    ensures
      var t := Winner(r, j);
      && ResultOf(sides, g, t).node in plan
      && FeedOf(plan, ResultOf(sides, g, t)) == LandingFeed(sides, g, FeedFor(TreeOf(sides, g).value, t))
  {
    ParentFormed(sides, g);
    DirectionNode(sides, plan, g, r, j);
  }

  lemma DirectionNode(sides: seq<Team>, plan: Plan, g: Group, r: nat, j: nat)
    requires IsDraw(sides, plan) && IsDirection(g) && TreeOf(sides, g).Some? && Emitted(TreeOf(sides, g).value, r, j)
    ensures IdOf(sides, g, r, j) in plan
    ensures plan[IdOf(sides, g, r, j)].win == LandingFeed(sides, g, FeedFor(TreeOf(sides, g).value, Winner(r, j)))
  {
    assert MatchIn(sides, g, r, j);
    assert NodeRight(sides, plan, g, r, j);
  }

  /** A producer of a direction is a match of the plan, with the feed the flow gave it. */
  lemma TokenFeed(sides: seq<Team>, plan: Plan, g: Group, t: Token)
    requires IsDraw(sides, plan) && IsDirection(g) && TreeOf(sides, g).Some? && Producer(TreeOf(sides, g).value, t)
    requires t.Loser? ==> t.source.round == 1
    ensures Formed(sides, ParentOf(g).0)
    ensures ResultOf(sides, g, t).node in plan
    ensures FeedOf(plan, ResultOf(sides, g, t)) == LandingFeed(sides, g, FeedFor(TreeOf(sides, g).value, t))
  {
    match t
    case Loser(source) => LoserTokenFeed(sides, plan, g, source.slot);
    case Winner(r, j) => WinnerTokenFeed(sides, plan, g, r, j);
  }

  ghost function ProducerOf(sides: seq<Team>, plan: Plan, e: Entry): Result
    requires IsDraw(sides, plan) && e.node in plan
  {
    var id := e.node;
    if id.group == East then
      if id.round >= 1 && (e.team == 1 || e.team == 2) then WinnerInto(e) else Result(id, true)
    else
      var x := Spot(StructRound(sides, id), id.slot, e.team);
      if ValidSpot(TreeOf(sides, id.group).value, x) && In(TreeOf(sides, id.group).value, x) != Bye then
        ParentFormed(sides, id.group);
        ResultOf(sides, id.group, In(TreeOf(sides, id.group).value, x))
      else Result(id, true)
  }

  /** Losers move to a later stage, winners to a later round of the same bracket. */
  lemma TokenEarlier(sides: seq<Team>, g: Group, x: Spot)
    requires IsDirection(g) && TreeOf(sides, g).Some? && ValidSpot(TreeOf(sides, g).value, x)
    requires MatchIn(sides, g, x.round, x.slot)
    ensures Formed(sides, ParentOf(g).0)
    ensures In(TreeOf(sides, g).value, x) != Bye
    ensures Earlier(ResultOf(sides, g, In(TreeOf(sides, g).value, x)).node, IdOf(sides, g, x.round, x.slot))
  {
    var sh := TreeOf(sides, g).value;
    ParentFormed(sides, g);
    OccupantIsEarlier(sh, x);
    assert x == Spot(x.round, x.slot, 1) || x == Spot(x.round, x.slot, 2);
    var t := In(sh, x);
    if t.Winner? {
      InIsProducer(sh, x);
      EmittedRoundPresent(sh, t.round, t.slot);
      EmittedRoundPresent(sh, x.round, x.slot);
      Relabel.RankKeepsOrder(EmittedRounds(sh), t.round, x.round);
    }
  }

  lemma SeatIsProduced(sides: seq<Team>, plan: Plan, e: Entry)
    requires |sides| >= 2 && IsDraw(sides, plan) && IsEntry(plan, e) && !IsSeeded(plan, e)
    ensures var r := ProducerOf(sides, plan, e);
            r.node in plan && FeedOf(plan, r) == To(e) && Earlier(r.node, e.node)
  {
    var id := e.node;
    var g := id.group;
    if g == East {
      SeatHasProducer(plan, sides, East, NoFeed, e);
    } else {
      assert Named(sides, id);
      var sh := TreeOf(sides, g).value;
      var x := Spot(StructRound(sides, id), id.slot, e.team);
      EachSideFedOnce(sh, x);
      LaneSourcesOpen(sh, x);
      TokenFeed(sides, plan, g, In(sh, x));
      TokenEarlier(sides, g, x);
    }
  }

  /** A feed into a direction names the seat its own team is produced for. */
  lemma LandingIsProduced(sides: seq<Team>, plan: Plan, g: Group, t: Token)
    requires IsDraw(sides, plan) && IsDirection(g) && TreeOf(sides, g).Some? && Producer(TreeOf(sides, g).value, t)
    requires FeedFor(TreeOf(sides, g).value, t).Lands?
    ensures Formed(sides, ParentOf(g).0)
    ensures var e := LandingFeed(sides, g, FeedFor(TreeOf(sides, g).value, t)).entry;
            IsEntry(plan, e) && !IsSeeded(plan, e) && ProducerOf(sides, plan, e) == ResultOf(sides, g, t)
  {
    var sh := TreeOf(sides, g).value;
    ParentFormed(sides, g);
    FeedIsRight(sh, t);
    var x := FeedFor(sh, t).spot;
    StructRoundOf(sides, g, x.round, x.slot);
    assert NodeRight(sides, plan, g, x.round, x.slot);
  }

  lemma ResultFillsItsSeat(sides: seq<Team>, plan: Plan, r: Result)
    requires |sides| >= 2 && IsDraw(sides, plan) && r.node in plan && FeedOf(plan, r).To?
    ensures var e := FeedOf(plan, r).entry;
            IsEntry(plan, e) && !IsSeeded(plan, e) && ProducerOf(sides, plan, e) == r
  {
    var id := r.node;
    var g := id.group;
    var sr := StructRound(sides, id);
    assert NodeRight(sides, plan, g, sr, id.slot);
    if r.won && g == East {
      assert BracketMatch(plan, sides, NoFeed, id);
      WinFillsItsSeat(plan, sides, East, NoFeed, id);
    } else if r.won {
      LandingIsProduced(sides, plan, g, Winner(sr, id.slot));
    } else {
      LoserFillsItsSeat(sides, plan, g, sr, id.slot);
    }
  }

  lemma LoserFillsItsSeat(sides: seq<Team>, plan: Plan, g: Group, r: nat, j: nat)
    requires IsDraw(sides, plan) && Formed(sides, g) && MatchIn(sides, g, r, j) && LoserGoes(sides, g, r, j).To?
    ensures var e := LoserGoes(sides, g, r, j).entry;
            IsEntry(plan, e) && !IsSeeded(plan, e) && ProducerOf(sides, plan, e) == Result(IdOf(sides, g, r, j), false)
  {
    Compass.SlotInRange(sides, g, r, j);
    ChildHasParent(g, r);
    var d := ChildOf(g, r).value;
    LandingIsProduced(sides, plan, d, Loser(Source(1, j)));
  }

  ghost function SourceMap(sides: seq<Team>, plan: Plan): map<Entry, Result>
    requires IsDraw(sides, plan)
  {
    map e | e in Seats(plan) && !IsSeeded(plan, e) :: ProducerOf(sides, plan, e)
  }

  /** Compass wiring, for every field size: each seat of each direction is filled by exactly one
      loser drop or winner feed, every feed targets a match of the plan, and nothing feeds back. */
  lemma CompassIsWired(sides: seq<Team>, plan: Plan)
    requires |sides| >= 2 && IsDraw(sides, plan)
    ensures FedBy(plan, SourceMap(sides, plan))
  {
    var source := SourceMap(sides, plan);
    forall e | IsEntry(plan, e) && !IsSeeded(plan, e)
      ensures e in source && source[e].node in plan && FeedOf(plan, source[e]) == To(e) && Earlier(source[e].node, e.node)
    {
      SeatIsProduced(sides, plan, e);
    }
    forall r: Result | r.node in plan && FeedOf(plan, r).To?
      ensures FeedOf(plan, r).entry in source && source[FeedOf(plan, r).entry] == r
    {
      ResultFillsItsSeat(sides, plan, r);
    }
  }
}
