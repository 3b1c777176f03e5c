/** Playing a single-elimination bracket out. */
module SingleElimination {
  import opened Coordinates
  import opened Draws
  import opened Play
  import opened Knockout
  import Bracket

  /** The matches of a generated bracket, tagged with `g`. */
  function Specs(plan: Bracket.BracketPlan, g: Group, top: Feed): map<MatchId, Spec> {
    map c | c in plan.matches :: MatchId(g, c.round, c.slot) := Tagged(plan.matches[c], g, top)
  }

  /** Tag the matches of a bracket, one by one. */
  method Tag(plan: Bracket.BracketPlan, g: Group, top: Feed) returns (ms: map<MatchId, Spec>)
    ensures ms == Specs(plan, g, top)
  {
    ms := map[];
    var rest := plan.matches.Keys;
    while rest != {}
      invariant rest <= plan.matches.Keys
      invariant forall c | c in plan.matches && c !in rest ::
        MatchId(g, c.round, c.slot) in ms && ms[MatchId(g, c.round, c.slot)] == Tagged(plan.matches[c], g, top)
      invariant forall id | id in ms ::
        id.group == g && Coord(id.round, id.slot) in plan.matches && Coord(id.round, id.slot) !in rest
      decreases |rest|
    {
      var c :| c in rest;
      ms := ms[MatchId(g, c.round, c.slot) := Tagged(plan.matches[c], g, top)];
      rest := rest - {c};
    }
  }

  /** The specs are exactly the tagged closed form. */
  ghost predicate AreSpecs(sides: seq<Team>, g: Group, top: Feed, specs: map<MatchId, Spec>) {
    && (forall id :: id in specs <==> id.group == g && Bracket.ValidCoord(Rounds(sides), id.round, id.slot))
    && (forall id | id in specs :: specs[id] == Tagged(Bracket.MatchAt(sides, id.round, id.slot), g, top))
  }

  lemma SpecsAreSpecs(sides: seq<Team>, plan: Bracket.BracketPlan, g: Group, top: Feed)
    requires Bracket.IsBracket(sides, plan)
    ensures AreSpecs(sides, g, top, Specs(plan, g, top))
  {
    var specs := Specs(plan, g, top);
    forall id ensures id in specs <==> id.group == g && Bracket.ValidCoord(Rounds(sides), id.round, id.slot) {
      assert Coord(id.round, id.slot) in plan.matches <==> Bracket.ValidCoord(Rounds(sides), id.round, id.slot);
      if id.group == g && Coord(id.round, id.slot) in plan.matches {
        assert id == MatchId(g, Coord(id.round, id.slot).round, Coord(id.round, id.slot).slot);
      }
    }
    forall id | id in specs
      ensures specs[id] == Tagged(Bracket.MatchAt(sides, id.round, id.slot), g, top)
    {
      assert Coord(id.round, id.slot) in plan.matches;
    }
  }

  lemma TaggedNode(sides: seq<Team>, g: Group, top: Feed, r: nat, s: nat)
    requires Bracket.ValidCoord(Rounds(sides), r, s)
    ensures var spec := Tagged(Bracket.MatchAt(sides, r, s), g, top);
            && (spec.resolvedWinner.None? <==> Alive(sides, r, s))
            && Node(SeedFrom(spec.side1), SeedFrom(spec.side2), spec.win, spec.lose)
               == KnockoutNode(sides, g, r, s, top, NoFeed)
  {
  }

  /** A plan that is nothing but the bracket of `sides`. */
  ghost predicate IsDraw(plan: Plan, sides: seq<Team>) {
    && HasBracket(plan, sides, Winners, NoFeed)
    && (forall id | id in plan :: id.group == Winners && plan[id].lose == NoFeed)
  }

  /** The draw of a single-elimination event. */
  function DrawOf(plan: Bracket.BracketPlan): Plan {
    Playable(Specs(plan, Winners, NoFeed))
  }

  lemma DrawOfIsDraw(sides: seq<Team>, bracket: Bracket.BracketPlan)
    requires Bracket.IsBracket(sides, bracket)
    ensures IsDraw(DrawOf(bracket), sides)
  {
    var specs := Specs(bracket, Winners, NoFeed);
    SpecsAreSpecs(sides, bracket, Winners, NoFeed);
    var plan := Playable(specs);
    forall id: MatchId | id.group == Winners
      ensures id in plan <==> Alive(sides, id.round, id.slot)
      ensures id in plan ==> plan[id] == KnockoutNode(sides, Winners, id.round, id.slot, NoFeed, NoFeed)
    {
      if id in specs {
        TaggedNode(sides, Winners, NoFeed, id.round, id.slot);
      }
    }
  }

  function SourceMap(plan: Plan): map<Entry, Result> {
    map e | e in Seats(plan) && !IsSeeded(plan, e) && e.node.round >= 1 :: WinnerInto(e)
  }

  /** Every seat is reached unbeaten. */
  function Unbeaten(plan: Plan): map<Entry, nat> {
    map e | e in Seats(plan) :: 0
  }

  lemma DrawIsWired(sides: seq<Team>, plan: Plan)
    requires |sides| >= 2 && IsDraw(plan, sides)
    ensures FedBy(plan, SourceMap(plan))
    ensures Priced(plan, Unbeaten(plan), 0, 1)
    ensures LeadsNowhere(plan, {})
  {
    var source := SourceMap(plan);
    forall e | IsEntry(plan, e) && !IsSeeded(plan, e)
      ensures e in source && source[e].node in plan && FeedOf(plan, source[e]) == To(e) && Earlier(source[e].node, e.node)
    {
      SeatHasProducer(plan, sides, Winners, NoFeed, e);
    }
    forall r: Result | r.node in plan && FeedOf(plan, r).To?
      ensures FeedOf(plan, r).entry in source && source[FeedOf(plan, r).entry] == r
    {
      assert BracketMatch(plan, sides, NoFeed, r.node);
      WinFillsItsSeat(plan, sides, Winners, NoFeed, r.node);
    }
  }

  lemma DrawHasDistinctSeeds(sides: seq<Team>, plan: Plan)
    requires |sides| >= 2 && DistinctTeams(sides) && IsDraw(plan, sides)
    ensures DistinctSeeds(plan)
  {
    forall e, f | IsSeeded(plan, e) && IsSeeded(plan, f) && plan[e.node].Seed(e.team) == plan[f.node].Seed(f.team)
      ensures e == f
    {
      SameSeedSameSeat(plan, sides, Winners, NoFeed, e, f);
    }
  }

  /** Who has won a bracket with every match played: the one team out of it unbeaten. */
  ghost predicate Decided(sides: seq<Team>, st: State, champion: nat) {
    && champion < |sides|
    && Losses(st.log, sides[champion]) == 0
    && (forall i | 0 <= i < |sides| && i != champion :: Losses(st.log, sides[i]) == 1)
  }

  /** The final is a match to be played, and the only one whose winner goes nowhere. */
  lemma FinalIsPlayed(sides: seq<Team>, plan: Plan)
    requires |sides| >= 2 && IsDraw(plan, sides)
    ensures var final := MatchId(Winners, Rounds(sides), 0);
            final in plan && plan[final].win == NoFeed && forall id | id in plan && plan[id].win == NoFeed :: id == final
  {
    if Rounds(sides) == 1 {
      Bracket.OpeningSides(sides, 0);
    }
    assert BracketMatch(plan, sides, NoFeed, MatchId(Winners, Rounds(sides), 0));
    forall id | id in plan && plan[id].win == NoFeed ensures id == MatchId(Winners, Rounds(sides), 0) {
      assert BracketMatch(plan, sides, NoFeed, id);
    }
  }

  lemma ChampionOf(sides: seq<Team>, plan: Plan, source: map<Entry, Result>, st: State) returns (champion: nat)
    requires |sides| >= 2 && DistinctTeams(sides) && IsDraw(plan, sides)
    requires Sound(plan, source, st) && Paid(plan, st, Unbeaten(plan), 0, 1) && st.played == plan.Keys
    ensures Decided(sides, st, champion)
  {
    EntrantsAreSides(plan, sides, Winners, NoFeed);
    FinalIsPlayed(sides, plan);
    var last := Result(MatchId(Winners, Rounds(sides), 0), true);
    assert SomeoneAt(st, Gone(last));
    var p :| p in st.place && st.place[p] == Gone(last);
    assert p in sides;
    champion :| 0 <= champion < |sides| && sides[champion] == p;
    forall i | 0 <= i < |sides| ensures Losses(st.log, sides[i]) == if i == champion then 0 else 1 {
      assert sides[i] in st.place && (i != champion ==> sides[i] != p);
      LossesWhenGone(sides, plan, source, st, sides[i]);
    }
  }

  /** With every match played, whoever won the final has lost nothing, and everybody else once. */
  lemma LossesWhenGone(sides: seq<Team>, plan: Plan, source: map<Entry, Result>, st: State, p: Team)
    requires |sides| >= 2 && DistinctTeams(sides) && IsDraw(plan, sides)
    requires Sound(plan, source, st) && Paid(plan, st, Unbeaten(plan), 0, 1) && st.played == plan.Keys
    requires p in st.place
    ensures Losses(st.log, p) == if st.place[p] == Gone(Result(MatchId(Winners, Rounds(sides), 0), true)) then 0 else 1
  {
    FinalIsPlayed(sides, plan);
    assert PaidUp(st.place[p], Losses(st.log, p), Unbeaten(plan), 0, 1);
  }

  /** A generated bracket, played however the matches are called and whoever wins them: while
      one is unplayed one can be called, and once all are, exactly p - 1 were played and
      every entrant but the champion has lost exactly once. */
  lemma EveryoneButTheChampionLosesOnce(sides: seq<Team>, bracket: Bracket.BracketPlan, calls: seq<Call>)
    requires |sides| >= 2 && DistinctTeams(sides) && Bracket.IsBracket(sides, bracket)
    requires Legal(DrawOf(bracket), Start(DrawOf(bracket)), calls)
    ensures var draw := DrawOf(bracket);
            var st := PlayAll(draw, Start(draw), calls);
            if st.played == draw.Keys
            then |st.log| == |sides| - 1 && exists champion :: Decided(sides, st, champion)
            else exists id :: Ready(draw, st, id)
  {
    DrawOfIsDraw(sides, bracket);
    OutcomeOf(sides, DrawOf(bracket), calls);
  }

  lemma OutcomeOf(sides: seq<Team>, plan: Plan, calls: seq<Call>)
    requires |sides| >= 2 && DistinctTeams(sides) && IsDraw(plan, sides)
    requires Legal(plan, Start(plan), calls)
    ensures var st := PlayAll(plan, Start(plan), calls);
            if st.played == plan.Keys
            then |st.log| == |sides| - 1 && exists champion :: Decided(sides, st, champion)
            else exists id :: Ready(plan, st, id)
  {
    var source := SourceMap(plan);
    DrawIsWired(sides, plan);
    DrawHasDistinctSeeds(sides, plan);
    RunFromStart(plan, source, calls, Unbeaten(plan), 0, 1);
    var st := PlayAll(plan, Start(plan), calls);
    if st.played == plan.Keys {
      Finished(sides, plan, source, st);
    } else {
      StillReady(plan, source, st, {});
    }
  }

  lemma Finished(sides: seq<Team>, plan: Plan, source: map<Entry, Result>, st: State)
    requires |sides| >= 2 && DistinctTeams(sides) && IsDraw(plan, sides)
    requires Running(plan, source, st, Unbeaten(plan), 0, 1) && st.played == plan.Keys
    ensures |st.log| == |sides| - 1 && exists champion :: Decided(sides, st, champion)
  {
    var champion := ChampionOf(sides, plan, source, st);
    LosersAreSides(sides, plan, st);
    GamesOfDecided(sides, st, champion);
  }

  lemma LosersAreSides(sides: seq<Team>, plan: Plan, st: State)
    requires |sides| >= 2 && IsDraw(plan, sides) && Logged(plan, st)
    ensures forall i | 0 <= i < |st.log| :: st.log[i].loser in sides
  {
    EntrantsAreSides(plan, sides, Winners, NoFeed);
  }

  lemma GamesOfDecided(sides: seq<Team>, st: State, champion: nat)
    requires DistinctTeams(sides) && Decided(sides, st, champion)
    requires forall i | 0 <= i < |st.log| :: st.log[i].loser in sides
    ensures |st.log| == |sides| - 1
  {
    var others := sides[..champion] + sides[champion + 1..];
    TotalWithout(sides, st.log, champion);
    forall i | 0 <= i < |others| ensures Losses(st.log, others[i]) == 1 {
      assert others[i] == sides[if i < champion then i else i + 1];
    }
    EvenTotal(others, st.log, 1);
    TotalLossesIsGames(sides, st.log);
  }
}
