/** Playing an event with a back-draw: play never stalls, and exactly when everybody who plays
    the first round gets a second match. */
module BackDrawPlay {
  import opened Draws
  import opened Powers
  import opened Play
  import opened Knockout
  import opened Collapse
  import opened BackDraw
  import Bracket
  import CompassGames
  import ConsolationTree
  import Relabel
  import SeedOrder
  import SingleElimination

  function DrawOf(ms: map<MatchId, Spec>): Plan {
    Playable(ms)
  }

  /** Match (r, j) of the back-draw is in the plan, with the winner feed of the closed form. */
  ghost predicate TreeNodeIn(sh: Shape, plan: Plan, r: nat, j: nat)
    requires sh.Valid() && sh.Lane?
  {
    Emitted(sh, r, j) ==>
      ConsolationTree.NameIn(Consolation, sh, r, j) in plan
      && plan[ConsolationTree.NameIn(Consolation, sh, r, j)] == Node(None, None, TreeWin(sh, r, j), NoFeed)
  }

  /** The matches to be played, in closed form. */
  ghost predicate IsDraw(sides: seq<Team>, plan: Plan) {
    && HasBracket(plan, sides, Winners, NoFeed)
    && (forall id | id in plan && id.group == Winners :: plan[id].lose == LoserGoes(sides, id.round, id.slot))
    && (forall id | id in plan && id.group != Winners ::
          id.group == Consolation && Rounds(sides) >= 2 && Named(LoserLane(sides), id))
    && (Rounds(sides) >= 2 ==> forall r: nat, j: nat {:trigger TreeNodeIn(LoserLane(sides), plan, r, j)} ::
          TreeNodeIn(LoserLane(sides), plan, r, j))
  }

  lemma MainNode(sides: seq<Team>, ms: map<MatchId, Spec>, id: MatchId)
    requires IsBackDraw(sides, ms) && id.group == Winners
    ensures id in DrawOf(ms) <==> Alive(sides, id.round, id.slot)
    ensures id in DrawOf(ms) ==>
              DrawOf(ms)[id] == KnockoutNode(sides, Winners, id.round, id.slot, NoFeed, LoserGoes(sides, id.round, id.slot))
  {
    assert id == MatchId(Winners, id.round, id.slot);
    if id in ms {
      assert HasPlace(sides, id);
      assert ms[id] == MainSpec(sides, id.round, id.slot);
      SingleElimination.TaggedNode(sides, Winners, NoFeed, id.round, id.slot);
    }
  }

  lemma MainIsBracket(sides: seq<Team>, ms: map<MatchId, Spec>)
    requires IsBackDraw(sides, ms)
    ensures HasBracket(DrawOf(ms), sides, Winners, NoFeed)
    ensures forall id | id in DrawOf(ms) && id.group == Winners ::
              DrawOf(ms)[id].lose == LoserGoes(sides, id.round, id.slot)
  {
    var plan := DrawOf(ms);
    forall id: MatchId | id.group == Winners
      ensures id in plan <==> Alive(sides, id.round, id.slot)
      ensures id in plan ==>
        plan[id] == KnockoutNode(sides, Winners, id.round, id.slot, NoFeed, LoserGoes(sides, id.round, id.slot))
    {
      MainNode(sides, ms, id);
    }
  }

  /** Every persisted event is such a draw. */
  lemma PlanIsDraw(sides: seq<Team>, ms: map<MatchId, Spec>)
    requires IsBackDraw(sides, ms)
    ensures IsDraw(sides, DrawOf(ms))
  {
    var plan := DrawOf(ms);
    MainIsBracket(sides, ms);
    forall id | id in plan && id.group != Winners
      ensures id.group == Consolation && Rounds(sides) >= 2 && Named(LoserLane(sides), id)
    {
      assert HasPlace(sides, id);
    }
    if Rounds(sides) >= 2 {
      var sh := LoserLane(sides);
      forall r: nat, j: nat ensures TreeNodeIn(sh, plan, r, j) {
        TreeNode(sh, ms, r, j);
      }
    }
  }

  lemma TreeNode(sh: Shape, ms: map<MatchId, Spec>, r: nat, j: nat)
    requires sh.Valid() && sh.Lane? && TreeMatchIn(sh, ms, r, j)
    ensures TreeNodeIn(sh, DrawOf(ms), r, j)
  {
  }

  // --- the wiring -------------------------------------------------------------------------------

  /** The round before renumbering of a match of the back-draw. */
  ghost function TreeRound(sh: Shape, id: MatchId): (r: nat)
    requires sh.Valid() && sh.Lane? && Named(sh, id)
    ensures Emitted(sh, r, id.slot) && ConsolationTree.NameIn(Consolation, sh, r, id.slot) == id
  {
    var r: nat :| Emitted(sh, r, id.slot) && ConsolationTree.NameIn(Consolation, sh, r, id.slot) == id;
    r
  }

  lemma TreeRoundOf(sh: Shape, r: nat, j: nat)
    requires sh.Valid() && sh.Lane? && Emitted(sh, r, j)
    ensures ConsolationTree.NameIn(Consolation, sh, r, j).slot == j
    ensures Named(sh, ConsolationTree.NameIn(Consolation, sh, r, j))
    ensures TreeRound(sh, ConsolationTree.NameIn(Consolation, sh, r, j)) == r
  {
    var id := ConsolationTree.NameIn(Consolation, sh, r, j);
    assert Emitted(sh, r, id.slot) && ConsolationTree.NameIn(Consolation, sh, r, id.slot) == id;
    ConsolationTree.NameInjective(Consolation, sh, r, j, TreeRound(sh, id), j);
  }

  /** Who produces the team in a seat of the back-draw: a first-round loser, or an earlier winner. */
  function ResultOf(sh: Shape, t: Token): Result
    requires sh.Valid() && sh.Lane? && t != Bye
  {
    match t
    case Loser(s) => Result(MatchId(Winners, 1, s.slot), false)
    case Winner(r, j) => Result(ConsolationTree.NameIn(Consolation, sh, r, j), true)
  }

  /** A producer of the back-draw is a match of the plan, with the feed the flow gave it. */
  lemma TokenFeed(sides: seq<Team>, plan: Plan, t: Token)
    requires Rounds(sides) >= 2 && IsDraw(sides, plan) && Producer(LoserLane(sides), t)
    requires t.Loser? ==> t.source.round == 1
    ensures ResultOf(LoserLane(sides), t).node in plan
    ensures FeedOf(plan, ResultOf(LoserLane(sides), t))
         == ConsolationTree.LandingIn(Consolation, LoserLane(sides), FeedFor(LoserLane(sides), t))
  {
    var sh := LoserLane(sides);
    match t
    case Loser(source) =>
      LoserDrops(sides, source.slot);
      assert t == Loser(Source(1, source.slot));
      assert BracketMatch(plan, sides, NoFeed, MatchId(Winners, 1, source.slot));
    case Winner(r, j) =>
      assert TreeNodeIn(sh, plan, r, j);
  }

  ghost function ProducerOf(sides: seq<Team>, plan: Plan, e: Entry): Result
    requires IsDraw(sides, plan) && e.node in plan
  {
    var id := e.node;
    if id.group == Winners then
      if id.round >= 1 && (e.team == 1 || e.team == 2) then WinnerInto(e) else Result(id, true)
    else
      var sh := LoserLane(sides);
      var x := Spot(TreeRound(sh, id), id.slot, e.team);
      if ValidSpot(sh, x) && In(sh, x) != Bye then ResultOf(sh, In(sh, x)) else Result(id, true)
  }

  /** Losers move to the back-draw, winners to a later round of it. */
  lemma TokenEarlier(sh: Shape, x: Spot)
    requires sh.Valid() && sh.Lane? && ValidSpot(sh, x) && Emitted(sh, x.round, x.slot)
    ensures In(sh, x) != Bye
    ensures Earlier(ResultOf(sh, In(sh, x)).node, ConsolationTree.NameIn(Consolation, sh, x.round, x.slot))
  {
    OccupantIsEarlier(sh, x);
    assert x == Spot(x.round, x.slot, 1) || x == Spot(x.round, x.slot, 2);
    var t := In(sh, x);
    if t.Winner? {
      InIsProducer(sh, x);
      EmittedRoundPresent(sh, t.round, t.slot);
      EmittedRoundPresent(sh, x.round, x.slot);
      Relabel.RankKeepsOrder(EmittedRounds(sh), t.round, x.round);
    }
  }

  lemma SeatIsProduced(sides: seq<Team>, plan: Plan, e: Entry)
    requires |sides| >= 2 && IsDraw(sides, plan) && IsEntry(plan, e) && !IsSeeded(plan, e)
    ensures var r := ProducerOf(sides, plan, e);
            r.node in plan && FeedOf(plan, r) == To(e) && Earlier(r.node, e.node)
  {
    if e.node.group == Winners {
      SeatHasProducer(plan, sides, Winners, NoFeed, e);
    } else {
      var sh := LoserLane(sides);
      var x := Spot(TreeRound(sh, e.node), e.node.slot, e.team);
      EachSideFedOnce(sh, x);
      LaneSourcesOpen(sh, x);
      TokenFeed(sides, plan, In(sh, x));
      TokenEarlier(sh, x);
    }
  }

  /** A feed into the back-draw names the seat its own team is produced for. */
  lemma LandingIsProduced(sides: seq<Team>, plan: Plan, t: Token)
    requires Rounds(sides) >= 2 && IsDraw(sides, plan) && Producer(LoserLane(sides), t)
    requires FeedFor(LoserLane(sides), t).Lands?
    ensures var e := ConsolationTree.LandingIn(Consolation, LoserLane(sides), FeedFor(LoserLane(sides), t)).entry;
            IsEntry(plan, e) && !IsSeeded(plan, e) && ProducerOf(sides, plan, e) == ResultOf(LoserLane(sides), t)
  {
    var sh := LoserLane(sides);
    FeedIsRight(sh, t);
    var x := FeedFor(sh, t).spot;
    TreeRoundOf(sh, x.round, x.slot);
    assert TreeNodeIn(sh, plan, x.round, x.slot);
  }

  lemma ResultFillsItsSeat(sides: seq<Team>, plan: Plan, r: Result)
    requires |sides| >= 2 && IsDraw(sides, plan) && r.node in plan && FeedOf(plan, r).To?
    ensures var e := FeedOf(plan, r).entry;
            IsEntry(plan, e) && !IsSeeded(plan, e) && ProducerOf(sides, plan, e) == r
  {
    var id := r.node;
    assert BracketMatch(plan, sides, NoFeed, id) || id.group != Winners;
    if id.group == Winners && r.won {
      WinFillsItsSeat(plan, sides, Winners, NoFeed, id);
    } else if id.group == Winners {
      LoserDrops(sides, id.slot);
      LandingIsProduced(sides, plan, Loser(Source(1, id.slot)));
    } else {
      var sh := LoserLane(sides);
      var sr := TreeRound(sh, id);
      assert TreeNodeIn(sh, plan, sr, id.slot);
      LandingIsProduced(sides, plan, Winner(sr, id.slot));
    }
  }

  ghost function SourceMap(sides: seq<Team>, plan: Plan): map<Entry, Result>
    requires IsDraw(sides, plan)
  {
    map e | e in Seats(plan) && !IsSeeded(plan, e) :: ProducerOf(sides, plan, e)
  }

  /** Main bracket and back-draw together: every seat has exactly one producing result, every feed
      targets a match of the plan, and nothing feeds back. */
  lemma BackDrawIsWired(sides: seq<Team>, plan: Plan)
    requires |sides| >= 2 && IsDraw(sides, plan)
    ensures FedBy(plan, SourceMap(sides, plan))
  {
    var source := SourceMap(sides, plan);
    forall e | IsEntry(plan, e) && !IsSeeded(plan, e)
      ensures e in source && source[e].node in plan && FeedOf(plan, source[e]) == To(e) && Earlier(source[e].node, e.node)
    {
      SeatIsProduced(sides, plan, e);
    }
    forall r: Result | r.node in plan && FeedOf(plan, r).To?
      ensures FeedOf(plan, r).entry in source && source[FeedOf(plan, r).entry] == r
    {
      ResultFillsItsSeat(sides, plan, r);
    }
  }

  lemma DrawHasDistinctSeeds(sides: seq<Team>, plan: Plan)
    requires |sides| >= 2 && DistinctTeams(sides) && IsDraw(sides, plan)
    ensures DistinctSeeds(plan)
    ensures forall e | IsSeeded(plan, e) :: e.node.group == Winners
  {
    forall e | IsSeeded(plan, e) ensures e.node.group == Winners {
      SeededInMain(sides, plan, e);
    }
    forall e, f | IsSeeded(plan, e) && IsSeeded(plan, f) && plan[e.node].Seed(e.team) == plan[f.node].Seed(f.team)
      ensures e == f
    {
      SameSeedSameSeat(plan, sides, Winners, NoFeed, e, f);
    }
  }

  lemma SeededInMain(sides: seq<Team>, plan: Plan, e: Entry)
    requires |sides| >= 2 && IsDraw(sides, plan) && IsSeeded(plan, e)
    ensures e.node.group == Winners
  {
    if e.node.group != Winners {
      TreeIsUnseeded(sides, plan, e.node);
    }
  }

  lemma TreeIsUnseeded(sides: seq<Team>, plan: Plan, id: MatchId)
    requires IsDraw(sides, plan) && id in plan && id.group != Winners
    ensures plan[id].seed1 == None && plan[id].seed2 == None
  {
    var sh := LoserLane(sides);
    assert TreeNodeIn(sh, plan, TreeRound(sh, id), id.slot);
  }

  // --- who drops ----------------------------------------------------------------------------------

  /** The lines whose seed is not among the best `b`. */
  function Beyond(m: nat, b: nat): (flags: seq<bool>)
    ensures |flags| == Pow2(m)
  {
    seq(Pow2(m), s requires 0 <= s => SeedOrder.SeedOn(m, s) > b)
  }

  lemma {:induction false} DropOne(alive: seq<bool>, i: nat)
    requires i < |alive| && alive[i]
    ensures ConsolationTree.Droppers(alive[i := false]) == ConsolationTree.Droppers(alive) - 1
    decreases alive
  {
    var n := |alive| - 1;
    if i < n {
      DropOne(alive[..n], i);
      assert alive[i := false][..n] == alive[..n][i := false];
    } else {
      assert alive[i := false][..n] == alive[..n];
    }
  }

  lemma {:induction false} BeyondCount(m: nat, b: nat)
    requires b <= Pow2(m)
    ensures ConsolationTree.Droppers(Beyond(m, b)) == Pow2(m) - b
    decreases b
  {
    if b == 0 {
      forall s | 0 <= s < Pow2(m) ensures Beyond(m, 0)[s] {
        SeedOrder.SeedInRange(m, s);
      }
      CompassGames.AllDrop(Beyond(m, 0));
    } else {
      BeyondCount(m, b - 1);
      BeyondStep(m, b);
      DropOne(Beyond(m, b - 1), SeedOrder.LineOf(m, b));
    }
  }

  lemma BeyondStep(m: nat, b: nat)
    requires 1 <= b <= Pow2(m)
    ensures SeedOrder.LineOf(m, b) < Pow2(m) && Beyond(m, b - 1)[SeedOrder.LineOf(m, b)]
    ensures Beyond(m, b) == Beyond(m, b - 1)[SeedOrder.LineOf(m, b) := false]
  {
    SeedOrder.OrderIsPermutation(m, b);
    var line := SeedOrder.LineOf(m, b);
    forall s | 0 <= s < Pow2(m) ensures Beyond(m, b)[s] == Beyond(m, b - 1)[line := false][s] {
      assert SeedOrder.SeedOn(m, s) == b <==> s == line;
    }
  }

  /** A first-round match is played exactly when its better seed has no bye. */
  lemma PlayedBeyond(sides: seq<Team>, s: nat)
    requires |sides| >= 2 && s < Pow2(Rounds(sides) - 1)
    ensures Alive(sides, 1, s) <==> SeedOrder.SeedOn(Rounds(sides) - 1, s) > Pow2(Rounds(sides)) - |sides|
  {
    Bracket.OpeningSides(sides, s);
    SeedOrder.Pairing(Rounds(sides), s);
  }

  /** Of the 2^(k-1) first-round matches of p teams exactly p - 2^(k-1) are played. */
  lemma LosersInOpening(sides: seq<Team>)
    requires Rounds(sides) >= 2 && |sides| >= 2
    ensures ConsolationTree.Droppers(LoserLane(sides).alive) == |sides| - Pow2(Rounds(sides) - 1)
  {
    var k := Rounds(sides);
    assert Pow2(k) == 2 * Pow2(k - 1);
    BeyondCount(k - 1, Pow2(k) - |sides|);
    forall s | 0 <= s < Pow2(k - 1) ensures LoserLane(sides).alive[s] == Beyond(k - 1, Pow2(k) - |sides|)[s] {
      PlayedBeyond(sides, s);
    }
    assert LoserLane(sides).alive == Beyond(k - 1, Pow2(k) - |sides|);
  }

  /** Every first-round loser has an entry in the back-draw, if and only if two first-round matches
      or more are played. */
  lemma EveryLoserEntersUnless(sides: seq<Team>, tree: ConsolationTree.ConsTree)
    requires |sides| >= 2 && Rounds(sides) >= 2 && ConsolationTree.IsTree(LoserLane(sides), tree)
    ensures (forall s: nat | Alive(sides, 1, s) :: s in tree.drops) <==> |sides| - Pow2(Rounds(sides) - 1) >= 2
  {
    LosersInOpening(sides);
    OneMoreThanAPower(sides);
    ConsolationTree.AllEnterUnlessAlone(LoserLane(sides), tree);
    forall s: nat ensures Alive(sides, 1, s) <==> s < |LoserLane(sides).alive| && LoserLane(sides).alive[s] {
      LanePosition(sides, s);
    }
  }

  lemma LanePosition(sides: seq<Team>, s: nat)
    requires Rounds(sides) >= 2
    ensures Alive(sides, 1, s) <==> s < |LoserLane(sides).alive| && LoserLane(sides).alive[s]
  {
  }

  /** That fails exactly for fields of one more than a power of two. */
  lemma OneMoreThanAPower(sides: seq<Team>)
    requires |sides| >= 2
    ensures |sides| - Pow2(Rounds(sides) - 1) >= 1
    ensures |sides| - Pow2(Rounds(sides) - 1) == 1 <==> exists m: nat :: |sides| == Pow2(m) + 1
  {
    if exists m: nat :: |sides| == Pow2(m) + 1 {
      var m: nat :| |sides| == Pow2(m) + 1;
      assert Pow2(m + 1) == 2 * Pow2(m);
      CeilLog2Unique(|sides|, m + 1);
    }
    if |sides| - Pow2(Rounds(sides) - 1) == 1 {
      assert |sides| == Pow2(Rounds(sides) - 1) + 1;
    }
  }

  // --- two matches for everybody who plays the first round ------------------------------------------

  /** The first-round matches that are played. */
  function Opening(plan: Plan): set<MatchId> {
    set id | id in plan.Keys && id.group == Winners && id.round == 1
  }

  /** In every run, whoever played the first round and is out has played two matches. */
  ghost predicate OpenersPlayTwice(plan: Plan) {
    forall calls | Legal(plan, Start(plan), calls) :: TwiceWhenOut(PlayAll(plan, Start(plan), calls), Opening(plan))
  }

  lemma OpenersGoOn(sides: seq<Team>, plan: Plan)
    requires |sides| >= 2 && IsDraw(sides, plan) && |sides| - Pow2(Rounds(sides) - 1) >= 2
    ensures Rounds(sides) >= 2 && BothGoOn(plan, Opening(plan))
  {
    ManyRounds(sides);
    forall r: Result | r.node in Opening(plan) ensures FeedOf(plan, r).To? {
      assert BracketMatch(plan, sides, NoFeed, r.node);
      if !r.won {
        LoserPlaysOn(sides, r.node.slot);
      }
    }
  }

  /** With two first-round matches or more, every loser has a second match. */
  lemma LoserPlaysOn(sides: seq<Team>, s: nat)
    requires Rounds(sides) >= 2 && |sides| - Pow2(Rounds(sides) - 1) >= 2 && Alive(sides, 1, s)
    ensures LoserGoes(sides, 1, s).To?
  {
    LosersInOpening(sides);
    var sh := LoserLane(sides);
    var a, b := ConsolationTree.TwoDroppers(sh.alive);
    LoserDrops(sides, s);
    LoserIsDropper(sh, a);
    LoserIsDropper(sh, b);
    EveryDropperPlays(sh, Source(1, s), Source(1, if s == a then b else a));
  }

  lemma ManyRounds(sides: seq<Team>)
    requires |sides| >= 2 && |sides| - Pow2(Rounds(sides) - 1) >= 2
    ensures Rounds(sides) >= 2
  {
    assert Pow2(1) == 2 * Pow2(0);
  }

  lemma OpeningIsSeeded(sides: seq<Team>, plan: Plan, s: nat, t: nat)
    requires |sides| >= 2 && IsDraw(sides, plan) && Alive(sides, 1, s) && (t == 1 || t == 2)
    ensures IsSeeded(plan, Entry(MatchId(Winners, 1, s), t))
  {
    OpeningSeat(sides, s, t);
    assert BracketMatch(plan, sides, NoFeed, MatchId(Winners, 1, s));
    SeedOfNode(plan, sides, Winners, NoFeed, MatchId(Winners, 1, s), t);
  }

  /** The only first-round match played, when there is only one: its loser goes nowhere. */
  lemma LoneOpening(sides: seq<Team>) returns (s: nat)
    requires |sides| >= 2 && |sides| - Pow2(Rounds(sides) - 1) < 2
    ensures Alive(sides, 1, s) && LoserGoes(sides, 1, s) == NoFeed
  {
    if Rounds(sides) == 1 {
      s := 0;
      Bracket.OpeningSides(sides, 0);
      assert Pow2(1) == 2 * Pow2(0);
    } else {
      var sh := LoserLane(sides);
      LosersInOpening(sides);
      OneMoreThanAPower(sides);
      s := ConsolationTree.OneDropper(sh.alive);
      LoserDrops(sides, s);
      var t := Loser(Source(1, s));
      FeedIsRight(sh, t);
      if FeedFor(sh, t).Lands? {
        ConsolationTree.NothingEmitted(sh, FeedFor(sh, t).spot.round, FeedFor(sh, t).spot.slot);
      }
    }
  }

  /** With a single first-round match, its loser is out after one match. */
  lemma LoneLoserPlaysOnce(sides: seq<Team>, plan: Plan) returns (calls: seq<Call>, p: Team)
    requires |sides| >= 2 && DistinctTeams(sides) && IsDraw(sides, plan) && |sides| - Pow2(Rounds(sides) - 1) < 2
    ensures Legal(plan, Start(plan), calls)
    ensures var st := PlayAll(plan, Start(plan), calls);
            p in st.place && st.place[p].Gone? && PlayedIn(st.log, p, Opening(plan)) && Games(st.log, p) == 1
  {
    var s := LoneOpening(sides);
    var id := MatchId(Winners, 1, s);
    OpeningIsSeeded(sides, plan, s, 1);
    OpeningIsSeeded(sides, plan, s, 2);
    var st := Start(plan);
    var a, b := Entry(id, 1), Entry(id, 2);
    assert a in st.seats && b in st.seats;
    DrawHasDistinctSeeds(sides, plan);
    assert SeedAt(plan, a) != SeedAt(plan, b);
    var c := Call(id, true);
    p := st.seats[b];
    calls := [c];
    assert calls[1..] == [];
    OutAfterOne(plan, st, c);
  }

  /** The loser of a first game that feeds no other is out with one game. */
  lemma OutAfterOne(plan: Plan, st: State, c: Call)
    requires Ready(plan, st, c.node) && c.firstWins && st.log == [] && plan[c.node].lose == NoFeed
    requires st.seats[Entry(c.node, 1)] != st.seats[Entry(c.node, 2)]
    ensures var after, p := PlayGame(plan, st, c), st.seats[Entry(c.node, 2)];
            p in after.place && after.place[p].Gone? && Games(after.log, p) == 1
            && forall opening | c.node in opening :: PlayedIn(after.log, p, opening)
  {
    var after, p := PlayGame(plan, st, c), st.seats[Entry(c.node, 2)];
    var g := Game(c.node, st.seats[Entry(c.node, 1)], p);
    assert after.log == [g] && [g][..0] == [];
    assert Score([], p, 1, 1) == 0;
    assert Games(after.log, p) == 1;
    forall opening | c.node in opening ensures PlayedIn(after.log, p, opening) {
      assert after.log[0].node in opening && after.log[0].loser == p;
    }
  }

  /** USA Pickleball's two-match minimum (Rule 12.J), as far as the back-draw gives it: in every
      run everybody who plays the first round plays at least twice, if and only if two or more
      first-round matches are played. */
  lemma OpenersPlayTwiceUnless(sides: seq<Team>, ms: map<MatchId, Spec>)
    requires |sides| >= 2 && DistinctTeams(sides) && IsBackDraw(sides, ms)
    ensures OpenersPlayTwice(DrawOf(ms)) <==> |sides| - Pow2(Rounds(sides) - 1) >= 2
  {
    var draw := DrawOf(ms);
    PlanIsDraw(sides, ms);
    if |sides| - Pow2(Rounds(sides) - 1) >= 2 {
      forall calls | Legal(draw, Start(draw), calls)
        ensures TwiceWhenOut(PlayAll(draw, Start(draw), calls), Opening(draw))
      {
        TwiceInThisRun(sides, draw, calls);
      }
    } else {
      var calls, p := LoneLoserPlaysOnce(sides, draw);
      assert !TwiceWhenOut(PlayAll(draw, Start(draw), calls), Opening(draw));
    }
  }

  lemma TwiceInThisRun(sides: seq<Team>, draw: Plan, calls: seq<Call>)
    requires |sides| >= 2 && DistinctTeams(sides) && IsDraw(sides, draw) && |sides| - Pow2(Rounds(sides) - 1) >= 2
    requires Legal(draw, Start(draw), calls)
    ensures TwiceWhenOut(PlayAll(draw, Start(draw), calls), Opening(draw))
  {
    BackDrawIsWired(sides, draw);
    DrawHasDistinctSeeds(sides, draw);
    StartSound(draw, SourceMap(sides, draw));
    OpenersGoOn(sides, draw);
    RunKeepsTwice(draw, SourceMap(sides, draw), Start(draw), calls, Opening(draw));
  }

  /** Three teams: one of the two who play the first round is out after one match. */
  lemma ThreeTeams(sides: seq<Team>, ms: map<MatchId, Spec>)
    requires |sides| == 3 && DistinctTeams(sides) && IsBackDraw(sides, ms)
    ensures !OpenersPlayTwice(DrawOf(ms))
  {
    assert Pow2(1) == 2 && Pow2(2) == 4;
    CeilLog2Unique(3, 2);
    OpenersPlayTwiceUnless(sides, ms);
  }

  // --- every run ends --------------------------------------------------------------------------------

  /** Whatever the field and the outcomes, play of the bracket and its back-draw never stalls, and
      once every match is played everyone is out. */
  lemma BackDrawNeverStalls(sides: seq<Team>, ms: map<MatchId, Spec>, calls: seq<Call>)
    requires |sides| >= 2 && DistinctTeams(sides) && IsBackDraw(sides, ms)
    requires Legal(DrawOf(ms), Start(DrawOf(ms)), calls)
    ensures var draw := DrawOf(ms);
            var st := PlayAll(draw, Start(draw), calls);
            if draw.Keys <= st.played
            then forall i | 0 <= i < |sides| :: sides[i] in st.place && st.place[sides[i]].Gone?
            else exists id :: Ready(draw, st, id)
  {
    var draw := DrawOf(ms);
    PlanIsDraw(sides, ms);
    BackDrawIsWired(sides, draw);
    DrawHasDistinctSeeds(sides, draw);
    var source := SourceMap(sides, draw);
    StartSound(draw, source);
    RunIsSound(draw, source, Start(draw), calls);
    StallOrOver(sides, draw, source, PlayAll(draw, Start(draw), calls));
  }

  lemma StallOrOver(sides: seq<Team>, draw: Plan, source: map<Entry, Result>, st: State)
    requires |sides| >= 2 && IsDraw(sides, draw) && FedBy(draw, source) && Sound(draw, source, st)
    requires forall e | IsSeeded(draw, e) :: e.node.group == Winners
    ensures if draw.Keys <= st.played
            then forall i | 0 <= i < |sides| :: sides[i] in st.place && st.place[sides[i]].Gone?
            else exists id :: Ready(draw, st, id)
  {
    if draw.Keys <= st.played {
      EntrantsAreSides(draw, sides, Winners, NoFeed);
    } else {
      StillReady(draw, source, st, {});
    }
  }
}
