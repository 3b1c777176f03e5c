/** Playing a double elimination: every seat of the plan has exactly one producing feed, and
    whatever happens, the draw reaches a grand final between the unbeaten and the once-beaten. */
module DoubleElimPlay {
  import opened Draws
  import opened Powers
  import opened Play
  import opened Knockout
  import opened Collapse
  import opened DoubleElim
  import Bracket
  import Relabel
  import SingleElimination

  // --- the wiring before renumbering --------------------------------------------------------

  /** The matches to be played, in closed form. */
  ghost predicate IsStructuralPlan(sides: seq<Team>, plan: Plan)
    requires Rounds(sides) >= 2
  {
    var sh := LoserShape(sides);
    && HasBracket(plan, sides, Winners, To(Entry(GRAND_FINAL, 1)))
    && (forall id | id in plan && id.group == Winners ::
          Producer(sh, Loser(Source(id.round, id.slot)))
          && plan[id].lose == AsFeed(FeedFor(sh, Loser(Source(id.round, id.slot)))))
    && (forall id: MatchId | id.group == Losers :: id in plan <==> Emitted(sh, id.round, id.slot))
    && (forall id | id in plan && id.group == Losers ::
          Producer(sh, Token.Winner(id.round, id.slot))
          && plan[id] == Node(None, None, AsFeed(FeedFor(sh, Token.Winner(id.round, id.slot))), NoFeed))
    && (forall id | id in plan && id.group != Winners && id.group != Losers :: id == GRAND_FINAL)
    && GRAND_FINAL in plan && plan[GRAND_FINAL] == Node(None, None, NoFeed, NoFeed)
  }

  lemma StructuralSpecs(sides: seq<Team>, ms: map<MatchId, Spec>, id: MatchId)
    requires Rounds(sides) >= 2 && IsStructural(sides, ms) && id in ms
    ensures var sh := LoserShape(sides);
            if id.group == Winners then
              && Bracket.ValidCoord(Rounds(sides), id.round, id.slot)
              && ms[id] == WinnersSpec(sides, id.round, id.slot).(lose := ms[id].lose)
              && (Alive(sides, id.round, id.slot) ==>
                    Producer(sh, Loser(Source(id.round, id.slot)))
                    && ms[id].lose == AsFeed(FeedFor(sh, Loser(Source(id.round, id.slot)))))
            else if id.group == Losers then
              && Emitted(sh, id.round, id.slot)
              && ms[id] == Spec(Bracket.Tbd, Bracket.Tbd, None,
                                AsFeed(FeedFor(sh, Token.Winner(id.round, id.slot))), NoFeed)
            else id == GRAND_FINAL && ms[id] == FINAL_SPEC
  {
    var sh := LoserShape(sides);
    assert id == GRAND_FINAL || id in ms - {GRAND_FINAL};
    if id.group == Winners {
      AliveIsProducer(sides, id.round, id.slot);
      if Alive(sides, id.round, id.slot) {
        DoneFeed(sh, Loser(Source(id.round, id.slot)));
      }
    } else if id.group == Losers {
      DoneFeed(sh, Token.Winner(id.round, id.slot));
    }
  }

  lemma StructuralKeys(sides: seq<Team>, ms: map<MatchId, Spec>, id: MatchId)
    requires Rounds(sides) >= 2 && IsStructural(sides, ms)
    ensures id.group == Winners ==> (id in ms <==> Bracket.ValidCoord(Rounds(sides), id.round, id.slot))
    ensures id.group == Losers ==> (id in ms <==> Emitted(LoserShape(sides), id.round, id.slot))
  {
    assert id != GRAND_FINAL ==> (id in ms <==> id in ms - {GRAND_FINAL});
  }

  lemma PlanOfStructural(sides: seq<Team>, ms: map<MatchId, Spec>)
    requires Rounds(sides) >= 2 && IsStructural(sides, ms)
    ensures IsStructuralPlan(sides, Playable(ms))
  {
    var plan := Playable(ms);
    var sh := LoserShape(sides);
    forall id: MatchId | id.group == Winners
      ensures id in plan <==> Alive(sides, id.round, id.slot)
      ensures id in plan ==>
        plan[id] == KnockoutNode(sides, Winners, id.round, id.slot, To(Entry(GRAND_FINAL, 1)), plan[id].lose)
        && Producer(sh, Loser(Source(id.round, id.slot)))
        && plan[id].lose == AsFeed(FeedFor(sh, Loser(Source(id.round, id.slot))))
    {
      StructuralKeys(sides, ms, id);
      if id in ms {
        StructuralSpecs(sides, ms, id);
        SingleElimination.TaggedNode(sides, Winners, To(Entry(GRAND_FINAL, 1)), id.round, id.slot);
      }
    }
    forall id: MatchId | id.group == Losers
      ensures id in plan <==> Emitted(sh, id.round, id.slot)
      ensures id in plan ==>
        Producer(sh, Token.Winner(id.round, id.slot))
        && plan[id] == Node(None, None, AsFeed(FeedFor(sh, Token.Winner(id.round, id.slot))), NoFeed)
    {
      StructuralKeys(sides, ms, id);
      if id in ms {
        StructuralSpecs(sides, ms, id);
      }
    }
    forall id | id in plan && id.group != Winners && id.group != Losers ensures id == GRAND_FINAL {
      StructuralSpecs(sides, ms, id);
    }
  }

  /** The result that produces a token. */
  function ResultOf(t: Token): Result
    requires t != Bye
  {
    Result(MatchOf(t), t.Winner?)
  }

  /** Who comes out of the losers bracket: always somebody, since the last winners loser drops
      into its last match. */
  lemma ChampionIsReal(sh: Shape)
    requires sh.Valid() && sh.Ladder?
    ensures Champion(sh) != Bye && Producer(sh, Champion(sh)) && FeedFor(sh, Champion(sh)) == Top
  {
    var lr := sh.Rounds();
    TopWidth(sh);
    DropsInto(sh, lr, 0);
    assert In(sh, Spot(lr, 0, 2)) != Bye;
    if In(sh, Spot(lr, 0, 1)) == Bye {
      InIsProducer(sh, Spot(lr, 0, 2));
    }
    ChampionFedOut(sh, Champion(sh));
  }

  /** The result that fills a seat of the plan. */
  function ProducerOf(sides: seq<Team>, e: Entry): Result
    requires Rounds(sides) >= 2
  {
    var sh := LoserShape(sides);
    var x := Spot(e.node.round, e.node.slot, e.team);
    if e.node.group == Winners && e.node.round >= 1 && (e.team == 1 || e.team == 2) then WinnerInto(e)
    else if e.node.group == Losers && ValidSpot(sh, x) && In(sh, x) != Bye then ResultOf(In(sh, x))
    else if e == Entry(GRAND_FINAL, 2) && Champion(sh) != Bye then ResultOf(Champion(sh))
    else Result(MatchId(Winners, Rounds(sides), 0), true)
  }

  lemma SeatIsProduced(sides: seq<Team>, plan: Plan, e: Entry)
    requires |sides| >= 2 && Rounds(sides) >= 2 && IsStructuralPlan(sides, plan)
    requires IsEntry(plan, e) && !IsSeeded(plan, e)
    ensures var r := ProducerOf(sides, e);
            r.node in plan && FeedOf(plan, r) == To(e) && Earlier(r.node, e.node)
  {
    var sh := LoserShape(sides);
    if e.node.group == Winners {
      SeatHasProducer(plan, sides, Winners, To(Entry(GRAND_FINAL, 1)), e);
    } else if e.node.group == Losers {
      var x := Spot(e.node.round, e.node.slot, e.team);
      EachSideFedOnce(sh, x);
      OccupantIsEarlier(sh, x);
      TokenFeed(sides, plan, In(sh, x));
    } else if e.team == 2 {
      ChampionIsReal(sh);
      TokenFeed(sides, plan, Champion(sh));
    } else {
      assert Alive(sides, Rounds(sides), 0);
      assert BracketMatch(plan, sides, To(Entry(GRAND_FINAL, 1)), MatchId(Winners, Rounds(sides), 0));
    }
  }

  /** A producer of the losers bracket is a match of the plan, with the feed the flow gave it. */
  lemma TokenFeed(sides: seq<Team>, plan: Plan, t: Token)
    requires Rounds(sides) >= 2 && IsStructuralPlan(sides, plan) && Producer(LoserShape(sides), t)
    ensures ResultOf(t).node in plan
    ensures FeedOf(plan, ResultOf(t)) == AsFeed(FeedFor(LoserShape(sides), t))
  {
    if t.Loser? {
      AliveIsProducer(sides, t.source.round, t.source.slot);
      assert BracketMatch(plan, sides, To(Entry(GRAND_FINAL, 1)), MatchId(Winners, t.source.round, t.source.slot));
    }
  }

  lemma LoserTokenFeedIsRight(sides: seq<Team>, plan: Plan, t: Token)
    requires Rounds(sides) >= 2 && IsStructuralPlan(sides, plan) && Producer(LoserShape(sides), t)
    ensures var feed := AsFeed(FeedFor(LoserShape(sides), t));
            feed.To? && IsEntry(plan, feed.entry) && !IsSeeded(plan, feed.entry)
            && ProducerOf(sides, feed.entry) == ResultOf(t)
  {
    var sh := LoserShape(sides);
    FeedIsRight(sh, t);
  }

  lemma ResultFillsItsSeat(sides: seq<Team>, plan: Plan, r: Result)
    requires |sides| >= 2 && Rounds(sides) >= 2 && IsStructuralPlan(sides, plan)
    requires r.node in plan && FeedOf(plan, r).To?
    ensures var e := FeedOf(plan, r).entry;
            IsEntry(plan, e) && !IsSeeded(plan, e) && ProducerOf(sides, e) == r
  {
    if r.node.group == Winners {
      assert BracketMatch(plan, sides, To(Entry(GRAND_FINAL, 1)), r.node);
      if !r.won {
        LoserTokenFeedIsRight(sides, plan, Loser(Source(r.node.round, r.node.slot)));
      } else if r.node.round < Rounds(sides) {
        WinFillsItsSeat(plan, sides, Winners, To(Entry(GRAND_FINAL, 1)), r.node);
      } else {
        assert r.node.slot < Pow2(0);
      }
    } else if r.node.group == Losers {
      LoserTokenFeedIsRight(sides, plan, Token.Winner(r.node.round, r.node.slot));
    }
  }

  function StructuralSource(sides: seq<Team>, plan: Plan): map<Entry, Result>
    requires Rounds(sides) >= 2
  {
    map e | e in Seats(plan) && !IsSeeded(plan, e) :: ProducerOf(sides, e)
  }

  /** Under every bye pattern each seat of each emitted losers match and of the grand final has
      exactly one producing feed, and every feed targets a match of the plan. */
  lemma StructuralPlanIsWired(sides: seq<Team>, plan: Plan)
    requires |sides| >= 2 && Rounds(sides) >= 2 && IsStructuralPlan(sides, plan)
    ensures FedBy(plan, StructuralSource(sides, plan))
  {
    var source := StructuralSource(sides, plan);
    forall e | IsEntry(plan, e) && !IsSeeded(plan, e)
      ensures e in source && source[e].node in plan && FeedOf(plan, source[e]) == To(e) && Earlier(source[e].node, e.node)
    {
      SeatIsProduced(sides, plan, e);
    }
    forall r: Result | r.node in plan && FeedOf(plan, r).To?
      ensures FeedOf(plan, r).entry in source && source[FeedOf(plan, r).entry] == r
    {
      ResultFillsItsSeat(sides, plan, r);
    }
  }

  // --- renumbering keeps the wiring ---------------------------------------------------------

  function RenameNode(present: set<nat>, n: Node): Node {
    n.(win := RenameFeed(present, n.win), lose := RenameFeed(present, n.lose))
  }

  function RenameResult(present: set<nat>, r: Result): Result {
    r.(node := RenameId(present, r.node))
  }

  ghost predicate RenamedPlan(plan: Plan, out: Plan, present: set<nat>) {
    && (forall id | id in plan && id.group == Losers :: id.round in present)
    && (forall id | id in plan :: RenameId(present, id) in out && out[RenameId(present, id)] == RenameNode(present, plan[id]))
    && (forall o | o in out :: HasOriginal(plan, present, o))
  }

  ghost predicate HasOriginal(plan: Plan, present: set<nat>, o: MatchId) {
    exists id :: id in plan && o == RenameId(present, id)
  }

  ghost function Original(plan: Plan, present: set<nat>, o: MatchId): (id: MatchId)
    requires HasOriginal(plan, present, o)
    ensures id in plan && RenameId(present, id) == o
  {
    var id :| id in plan && o == RenameId(present, id);
    id
  }

  ghost function RenamedSource(plan: Plan, source: map<Entry, Result>, out: Plan, present: set<nat>): map<Entry, Result>
    requires RenamedPlan(plan, out, present) && FedBy(plan, source)
  {
    map o | o in Seats(out) && !IsSeeded(out, o) ::
      var e := Entry(Original(plan, present, o.node), o.team);
      assert IsEntry(plan, e) && !IsSeeded(plan, e);
      RenameResult(present, source[e])
  }

  lemma RenamedFeed(plan: Plan, out: Plan, present: set<nat>, r: Result)
    requires RenamedPlan(plan, out, present) && r.node in plan
    ensures RenameResult(present, r).node in out
    ensures FeedOf(out, RenameResult(present, r)) == RenameFeed(present, FeedOf(plan, r))
  {
  }

  lemma RenamedEarlier(plan: Plan, out: Plan, present: set<nat>, a: MatchId, b: MatchId)
    requires RenamedPlan(plan, out, present) && a in plan && b in plan && Earlier(a, b)
    ensures Earlier(RenameId(present, a), RenameId(present, b))
  {
    if a.group == Losers && b.group == Losers {
      Relabel.RankKeepsOrder(present, a.round, b.round);
    }
  }

  lemma RenamedIsWired(plan: Plan, source: map<Entry, Result>, out: Plan, present: set<nat>)
    requires RenamedPlan(plan, out, present) && FedBy(plan, source)
    ensures FedBy(out, RenamedSource(plan, source, out, present))
  {
    var renamed := RenamedSource(plan, source, out, present);
    forall o | IsEntry(out, o) && !IsSeeded(out, o)
      ensures o in renamed && renamed[o].node in out && FeedOf(out, renamed[o]) == To(o) && Earlier(renamed[o].node, o.node)
    {
      var e := Entry(Original(plan, present, o.node), o.team);
      assert e in source;
      RenamedFeed(plan, out, present, source[e]);
      RenamedEarlier(plan, out, present, source[e].node, e.node);
    }
    forall r: Result | r.node in out && FeedOf(out, r).To?
      ensures FeedOf(out, r).entry in renamed && renamed[FeedOf(out, r).entry] == r
    {
      var r0 := Result(Original(plan, present, r.node), r.won);
      RenamedFeed(plan, out, present, r0);
      RenamedBack(plan, source, out, present, r0);
    }
  }

  lemma RenamedBack(plan: Plan, source: map<Entry, Result>, out: Plan, present: set<nat>, r: Result)
    requires RenamedPlan(plan, out, present) && FedBy(plan, source) && r.node in plan && FeedOf(plan, r).To?
    ensures var o := RenameEntry(present, FeedOf(plan, r).entry);
            && o in RenamedSource(plan, source, out, present)
            && RenamedSource(plan, source, out, present)[o] == RenameResult(present, r)
  {
    var e := FeedOf(plan, r).entry;
    assert source[e] == r;
    var o := RenameEntry(present, e);
    assert out[o.node] == RenameNode(present, plan[e.node]);
    var e' := Entry(Original(plan, present, o.node), o.team);
    RenameIsInjective(present, e.node, e'.node);
  }

  lemma PlayableIsRenamed(ms: map<MatchId, Spec>, out: map<MatchId, Spec>)
    requires Renumbered(ms, out, LosersRounds(ms))
    ensures RenamedPlan(Playable(ms), Playable(out), LosersRounds(ms))
  {
    var present := LosersRounds(ms);
    forall o | o in Playable(out) ensures HasOriginal(Playable(ms), present, o) {
      var id :| id in ms && o == RenameId(present, id);
      assert out[o] == RenameSpec(present, ms[id]);
      assert id in Playable(ms);
    }
  }

  // --- what the finished plan looks like ----------------------------------------------------

  predicate IntoLosers(feed: Feed) {
    feed.To? && (feed.entry.node.group == Losers || feed.entry == Entry(GRAND_FINAL, 2))
  }

  /** A bracket of the field, whose losers drop into a losers tier that takes in nobody else,
      whose winner is team 2 of the grand final. */
  ghost predicate IsDraw(sides: seq<Team>, plan: Plan) {
    && HasBracket(plan, sides, Winners, To(Entry(GRAND_FINAL, 1)))
    && (forall id | id in plan && id.group == Winners :: IntoLosers(plan[id].lose))
    && (forall id | id in plan && id.group == Losers ::
          plan[id] == Node(None, None, plan[id].win, NoFeed) && IntoLosers(plan[id].win))
    && (forall id | id in plan && id.group != Winners && id.group != Losers :: id == GRAND_FINAL)
    && GRAND_FINAL in plan && plan[GRAND_FINAL] == Node(None, None, NoFeed, NoFeed)
  }

  function DrawOf(plan: DoubleElimPlan): Plan {
    Playable(plan.matches)
  }

  lemma RenamedWinnersMatch(sides: seq<Team>, plan: Plan, out: Plan, present: set<nat>, o: MatchId)
    requires Rounds(sides) >= 2 && IsStructuralPlan(sides, plan) && RenamedPlan(plan, out, present) && o.group == Winners
    ensures BracketMatch(out, sides, To(Entry(GRAND_FINAL, 1)), o)
    ensures o in out ==> IntoLosers(out[o].lose)
  {
    assert BracketMatch(plan, sides, To(Entry(GRAND_FINAL, 1)), o);
    assert RenameId(present, o) == o;
    if o in out {
      assert Original(plan, present, o) == o;
    }
  }

  lemma RenamedIsDraw(sides: seq<Team>, plan: Plan, out: Plan, present: set<nat>)
    requires |sides| >= 2 && Rounds(sides) >= 2 && IsStructuralPlan(sides, plan) && RenamedPlan(plan, out, present)
    ensures IsDraw(sides, out)
  {
    forall o: MatchId {:trigger BracketMatch(out, sides, To(Entry(GRAND_FINAL, 1)), o)} | o.group == Winners
      ensures BracketMatch(out, sides, To(Entry(GRAND_FINAL, 1)), o)
      ensures o in out ==> IntoLosers(out[o].lose)
    {
      RenamedWinnersMatch(sides, plan, out, present, o);
    }
    forall o | o in out && o.group != Winners
      ensures o.group == Losers ==> out[o] == Node(None, None, out[o].win, NoFeed) && IntoLosers(out[o].win)
      ensures o.group != Losers ==> o == GRAND_FINAL
    {
      var id := Original(plan, present, o);
      assert out[o] == RenameNode(present, plan[id]);
    }
    assert RenameId(present, GRAND_FINAL) == GRAND_FINAL;
  }

  lemma TwoTeamsIsDraw(sides: seq<Team>, plan: Plan) returns (source: map<Entry, Result>)
    requires |sides| >= 2 && Rounds(sides) == 1 && plan == Playable(TwoTeamPlan(sides))
    ensures IsDraw(sides, plan) && FedBy(plan, source)
  {
    var only := MatchId(Winners, 1, 0);
    Bracket.OpeningSides(sides, 0);
    assert Pow2(1) == 2 * Pow2(0);
    SingleElimination.TaggedNode(sides, Winners, To(Entry(GRAND_FINAL, 1)), 1, 0);
    assert plan.Keys == {only, GRAND_FINAL};
    source := map[Entry(GRAND_FINAL, 1) := Result(only, true), Entry(GRAND_FINAL, 2) := Result(only, false)];
    assert IsSeeded(plan, Entry(only, 1)) && IsSeeded(plan, Entry(only, 2));
  }

  /** Every generated plan is such a draw, and is wired: still true after renumbering. */
  lemma PlanIsWired(sides: seq<Team>, plan: DoubleElimPlan) returns (source: map<Entry, Result>)
    requires |sides| >= 2 && IsDoubleElim(sides, plan)
    ensures IsDraw(sides, DrawOf(plan)) && FedBy(DrawOf(plan), source)
  {
    if Rounds(sides) == 1 {
      source := TwoTeamsIsDraw(sides, DrawOf(plan));
    } else {
      var ms :| IsStructural(sides, ms) && Renumbered(ms, plan.matches, LosersRounds(ms));
      PlanOfStructural(sides, ms);
      PlayableIsRenamed(ms, plan.matches);
      var before := Playable(ms);
      StructuralPlanIsWired(sides, before);
      RenamedIsWired(before, StructuralSource(sides, before), DrawOf(plan), LosersRounds(ms));
      RenamedIsDraw(sides, before, DrawOf(plan), LosersRounds(ms));
      source := RenamedSource(before, StructuralSource(sides, before), DrawOf(plan), LosersRounds(ms));
    }
  }

  lemma RenumberedRounds(ms: map<MatchId, Spec>, out: map<MatchId, Spec>, n: nat)
    requires Renumbered(ms, out, LosersRounds(ms))
    ensures n in LosersRounds(out) <==> 1 <= n <= |LosersRounds(ms)|
  {
    var present := LosersRounds(ms);
    if n in LosersRounds(out) {
      var o: MatchId :| o in out && o.group == Losers && o.round == n;
      var id :| id in ms && o == RenameId(present, id);
      assert id.round in present;
      Relabel.RankKeepsOrder(present, id.round, id.round);
    }
    if 1 <= n <= |present| {
      var r := Relabel.NoGaps(present, n);
      var id: MatchId :| id in ms && id.group == Losers && id.round == r;
      assert RenameId(present, id) in out;
    }
  }

  /** The losers rounds of a generated plan are exactly 1..N. */
  lemma LosersRoundsAreContiguous(sides: seq<Team>, plan: DoubleElimPlan, n: nat)
    requires |sides| >= 2 && IsDoubleElim(sides, plan)
    ensures n in LosersRounds(plan.matches) <==> 1 <= n <= plan.lbRounds
  {
    if Rounds(sides) > 1 {
      var ms :| IsStructural(sides, ms) && Renumbered(ms, plan.matches, LosersRounds(ms))
                && plan.lbRounds == |LosersRounds(ms)|;
      RenumberedRounds(ms, plan.matches, n);
    }
  }

  // --- playing it -----------------------------------------------------------------------------

  /** What a seat costs in losses: nothing in the winners bracket, one in the losers bracket. */
  function SeatPrice(e: Entry): nat {
    if e.node.group == Losers || e == Entry(GRAND_FINAL, 2) then 1 else 0
  }

  function Price(plan: Plan): map<Entry, nat> {
    map e | e in Seats(plan) :: SeatPrice(e)
  }

  lemma FeedIsPriced(sides: seq<Team>, plan: Plan, r: Result)
    requires |sides| >= 2 && IsDraw(sides, plan) && r.node in plan && FeedOf(plan, r).To?
    ensures r.node.group == Winners || r.node.group == Losers
    ensures SeatPrice(FeedOf(plan, r).entry) == (if r.node.group == Losers then 1 else 0) + (if r.won then 0 else 1)
  {
    assert r.node.group == Winners ==> BracketMatch(plan, sides, To(Entry(GRAND_FINAL, 1)), r.node);
  }

  lemma SeedIsFree(sides: seq<Team>, plan: Plan, e: Entry)
    requires |sides| >= 2 && IsDraw(sides, plan) && IsSeeded(plan, e)
    ensures SeatPrice(e) == 0 && e in Price(plan)
  {
    assert e.node.group == Winners;
  }

  lemma FinalLeadsNowhere(sides: seq<Team>, plan: Plan)
    requires |sides| >= 2 && IsDraw(sides, plan)
    ensures LeadsNowhere(plan, {GRAND_FINAL})
  {
  }

  lemma DrawIsPriced(sides: seq<Team>, plan: Plan, source: map<Entry, Result>)
    requires |sides| >= 2 && IsDraw(sides, plan) && FedBy(plan, source)
    ensures Priced(plan, Price(plan), 0, 1)
    ensures LeadsNowhere(plan, {GRAND_FINAL})
  {
    var price := Price(plan);
    assert LeadsNowhere(plan, {GRAND_FINAL}) by {
      FinalLeadsNowhere(sides, plan);
    }
    forall e | IsSeeded(plan, e) ensures price[e] == 0 {
      SeedIsFree(sides, plan, e);
    }
    forall r: Result | r.node in plan && FeedOf(plan, r).To?
      ensures FeedOf(plan, r).entry in price
      ensures PriceAfter(price, r, 1, 0, 1) == price[FeedOf(plan, r).entry]
      ensures PriceAfter(price, r, 2, 0, 1) == price[FeedOf(plan, r).entry]
    {
      ResultIsPriced(sides, plan, source, r);
    }
  }

  lemma ResultIsPriced(sides: seq<Team>, plan: Plan, source: map<Entry, Result>, r: Result)
    requires |sides| >= 2 && IsDraw(sides, plan) && FedBy(plan, source) && r.node in plan && FeedOf(plan, r).To?
    ensures FeedOf(plan, r).entry in Price(plan)
    ensures PriceAfter(Price(plan), r, 1, 0, 1) == Price(plan)[FeedOf(plan, r).entry]
    ensures PriceAfter(Price(plan), r, 2, 0, 1) == Price(plan)[FeedOf(plan, r).entry]
  {
    assert source[FeedOf(plan, r).entry] == r;
    FeedIsPriced(sides, plan, r);
  }

  lemma DrawHasDistinctSeeds(sides: seq<Team>, plan: Plan)
    requires |sides| >= 2 && DistinctTeams(sides) && IsDraw(sides, plan)
    ensures DistinctSeeds(plan)
    ensures forall e | IsSeeded(plan, e) :: e.node.group == Winners
  {
    forall e, f | IsSeeded(plan, e) && IsSeeded(plan, f) && plan[e.node].Seed(e.team) == plan[f.node].Seed(f.team)
      ensures e == f
    {
      SameSeedSameSeat(plan, sides, Winners, To(Entry(GRAND_FINAL, 1)), e, f);
    }
  }

  /** The field when the grand final comes up: `a` unbeaten, `b` beaten once, everyone else twice. */
  ghost predicate Finalists(sides: seq<Team>, st: State, a: nat, b: nat) {
    && a < |sides| && b < |sides| && a != b
    && Entry(GRAND_FINAL, 1) in st.seats && Entry(GRAND_FINAL, 2) in st.seats
    && st.seats[Entry(GRAND_FINAL, 1)] == sides[a] && Losses(st.log, sides[a]) == 0
    && st.seats[Entry(GRAND_FINAL, 2)] == sides[b] && Losses(st.log, sides[b]) == 1
    && (forall i | 0 <= i < |sides| && i != a && i != b :: Losses(st.log, sides[i]) == 2)
  }

  /** Everything but the grand final has been played. */
  ghost predicate FinalComesUp(plan: Plan, st: State) {
    GRAND_FINAL !in st.played && plan.Keys <= st.played + {GRAND_FINAL}
  }

  lemma FinalSeats(sides: seq<Team>, plan: Plan, source: map<Entry, Result>, st: State, t: nat)
    requires |sides| >= 2 && IsDraw(sides, plan) && FedBy(plan, source) && Sound(plan, source, st)
    requires FinalComesUp(plan, st) && (t == 1 || t == 2)
    ensures Entry(GRAND_FINAL, t) in st.seats && st.seats[Entry(GRAND_FINAL, t)] in st.place
    ensures st.place[st.seats[Entry(GRAND_FINAL, t)]] == At(Entry(GRAND_FINAL, t))
  {
    var e := Entry(GRAND_FINAL, t);
    assert e in source ==> FeedOf(plan, source[e]) == To(e);
  }

  /** A team that is not in the grand final when it comes up lost in the losers bracket. */
  lemma OthersAreOut(sides: seq<Team>, plan: Plan, st: State, p: Team)
    requires |sides| >= 2 && IsDraw(sides, plan) && LedgerAgrees(st) && NobodyLost(plan, st)
    requires FinalComesUp(plan, st) && Paid(plan, st, Price(plan), 0, 1) && p in st.place
    requires st.place[p] != At(Entry(GRAND_FINAL, 1)) && st.place[p] != At(Entry(GRAND_FINAL, 2))
    requires forall e | e in st.seats :: IsEntry(plan, e)
    ensures Losses(st.log, p) == 2
  {
    PlacedOut(plan, st, p);
    var r, losses := st.place[p].last, Losses(st.log, p);
    LastResultOut(sides, plan, r);
    assert PaidUp(Gone(r), losses, Price(plan), 0, 1);
    SecondLoss(plan, r, losses);
  }

  /** Whoever is in neither seat of the grand final when it comes up is out of the draw, and
      not by the grand final. */
  lemma PlacedOut(plan: Plan, st: State, p: Team)
    requires LedgerAgrees(st) && NobodyLost(plan, st) && FinalComesUp(plan, st) && p in st.place
    requires st.place[p] != At(Entry(GRAND_FINAL, 1)) && st.place[p] != At(Entry(GRAND_FINAL, 2))
    requires forall e | e in st.seats :: IsEntry(plan, e)
    ensures st.place[p].Gone? && st.place[p].last.node in plan && st.place[p].last.node != GRAND_FINAL
    ensures FeedOf(plan, st.place[p].last) == NoFeed
  {
  }

  /** Losing in the losers bracket is the second loss. */
  lemma SecondLoss(plan: Plan, r: Result, losses: nat)
    requires r.node in plan && r.node.group == Losers && !r.won && PaidUp(Gone(r), losses, Price(plan), 0, 1)
    ensures losses == 2
  {
    assert SeatPrice(Entry(r.node, 1)) == 1 && SeatPrice(Entry(r.node, 2)) == 1;
  }

  lemma FinalistPrice(plan: Plan, losses: nat, t: nat)
    requires GRAND_FINAL in plan && (t == 1 || t == 2)
    requires PaidUp(At(Entry(GRAND_FINAL, t)), losses, Price(plan), 0, 1)
    ensures losses == t - 1
  {
    assert Price(plan)[Entry(GRAND_FINAL, t)] == SeatPrice(Entry(GRAND_FINAL, t));
  }

  /** The one result before the grand final that leads nowhere is losing in the losers bracket. */
  lemma LastResultOut(sides: seq<Team>, plan: Plan, r: Result)
    requires |sides| >= 2 && IsDraw(sides, plan) && r.node in plan && r.node != GRAND_FINAL
    requires FeedOf(plan, r) == NoFeed
    ensures r.node.group == Losers && !r.won
  {
    assert r.node.group == Winners || r.node.group == Losers;
    assert r.node.group == Winners ==> BracketMatch(plan, sides, To(Entry(GRAND_FINAL, 1)), r.node);
  }

  /** The first finalist has lost nothing, the second once. */
  lemma FinalistLosses(sides: seq<Team>, plan: Plan, source: map<Entry, Result>, st: State, t: nat)
    requires |sides| >= 2 && IsDraw(sides, plan) && FedBy(plan, source)
    requires Sound(plan, source, st) && Paid(plan, st, Price(plan), 0, 1) && FinalComesUp(plan, st) && (t == 1 || t == 2)
    ensures Entry(GRAND_FINAL, t) in st.seats && st.seats[Entry(GRAND_FINAL, t)] in st.place
    ensures st.place[st.seats[Entry(GRAND_FINAL, t)]] == At(Entry(GRAND_FINAL, t))
    ensures Losses(st.log, st.seats[Entry(GRAND_FINAL, t)]) == t - 1
  {
    FinalSeats(sides, plan, source, st, t);
    var p := st.seats[Entry(GRAND_FINAL, t)];
    var losses := Losses(st.log, p);
    assert PaidUp(At(Entry(GRAND_FINAL, t)), losses, Price(plan), 0, 1);
    FinalistPrice(plan, losses, t);
  }

  lemma FinalistIndex(sides: seq<Team>, plan: Plan, source: map<Entry, Result>, st: State, t: nat) returns (i: nat)
    requires |sides| >= 2 && DistinctTeams(sides) && IsDraw(sides, plan) && FedBy(plan, source)
    requires Sound(plan, source, st) && Paid(plan, st, Price(plan), 0, 1) && FinalComesUp(plan, st) && (t == 1 || t == 2)
    ensures i < |sides| && Entry(GRAND_FINAL, t) in st.seats && st.seats[Entry(GRAND_FINAL, t)] == sides[i]
    ensures sides[i] in st.place && st.place[sides[i]] == At(Entry(GRAND_FINAL, t)) && Losses(st.log, sides[i]) == t - 1
  {
    FinalistLosses(sides, plan, source, st, t);
    i := EntrantIndex(sides, plan, st, st.seats[Entry(GRAND_FINAL, t)]);
  }

  lemma EntrantIndex(sides: seq<Team>, plan: Plan, st: State, p: Team) returns (i: nat)
    requires |sides| >= 2 && IsDraw(sides, plan) && NobodyLost(plan, st) && p in st.place
    ensures i < |sides| && sides[i] == p
  {
    EntrantsAreSides(plan, sides, Winners, To(Entry(GRAND_FINAL, 1)));
    assert p in sides;
    i :| 0 <= i < |sides| && sides[i] == p;
  }

  lemma SidesAreIn(sides: seq<Team>, plan: Plan, st: State, i: nat)
    requires |sides| >= 2 && IsDraw(sides, plan) && NobodyLost(plan, st) && i < |sides|
    ensures sides[i] in st.place
  {
    EntrantsAreSides(plan, sides, Winners, To(Entry(GRAND_FINAL, 1)));
  }

  lemma FinalistsOf(sides: seq<Team>, plan: Plan, source: map<Entry, Result>, st: State) returns (a: nat, b: nat)
    requires |sides| >= 2 && DistinctTeams(sides) && IsDraw(sides, plan) && FedBy(plan, source)
    requires Sound(plan, source, st) && Paid(plan, st, Price(plan), 0, 1) && FinalComesUp(plan, st)
    ensures Finalists(sides, st, a, b)
  {
    a := FinalistIndex(sides, plan, source, st, 1);
    b := FinalistIndex(sides, plan, source, st, 2);
    forall i | 0 <= i < |sides| && i != a && i != b ensures Losses(st.log, sides[i]) == 2 {
      SidesAreIn(sides, plan, st, i);
      assert sides[i] != sides[a] && sides[i] != sides[b];
      OthersAreOut(sides, plan, st, sides[i]);
    }
  }

  lemma GamesBeforeFinal(sides: seq<Team>, st: State, a: nat, b: nat)
    requires DistinctTeams(sides) && Finalists(sides, st, a, b)
    requires forall i | 0 <= i < |st.log| :: st.log[i].loser in sides
    ensures |st.log| == 2 * |sides| - 3
  {
    var x, y := if a < b then a else b, if a < b then b else a;
    var but := sides[..y] + sides[y + 1..];
    TotalWithout(sides, st.log, y);
    TotalWithout(but, st.log, x);
    var others := but[..x] + but[x + 1..];
    forall i | 0 <= i < |others| ensures Losses(st.log, others[i]) == 2 {
      var j := if i < x then i else if i + 1 < y then i + 1 else i + 2;
      assert others[i] == sides[j] && j != x && j != y;
    }
    EvenTotal(others, st.log, 2);
    TotalLossesIsGames(sides, st.log);
  }

  /** The grand final can be called when everything else has been played, and not before. */
  lemma FinalComesLast(sides: seq<Team>, draw: Plan, source: map<Entry, Result>, st: State)
    requires |sides| >= 2 && IsDraw(sides, draw) && FedBy(draw, source) && Sound(draw, source, st)
    ensures Ready(draw, st, GRAND_FINAL) <==> FinalComesUp(draw, st)
  {
    if FinalComesUp(draw, st) {
      FinalSeats(sides, draw, source, st, 1);
      FinalSeats(sides, draw, source, st, 2);
    }
    if Ready(draw, st, GRAND_FINAL) {
      DrawGoesOn(sides, draw);
      ReadyAtLast(draw, source, st, GRAND_FINAL);
    }
  }

  lemma DrawGoesOn(sides: seq<Team>, draw: Plan)
    requires |sides| >= 2 && IsDraw(sides, draw)
    ensures WinnersGoOn(draw, GRAND_FINAL)
  {
    forall id | id in draw && id != GRAND_FINAL ensures draw[id].win.To? {
      assert id.group == Winners || id.group == Losers;
      assert id.group == Winners ==> BracketMatch(draw, sides, To(Entry(GRAND_FINAL, 1)), id);
    }
  }

  /** However the matches are called and whoever wins them: while a match before the grand
      final is unplayed one can be called, so play never stalls; the grand final can be
      called only after every other match; and whenever it can be called, 2p - 3 games have
      been played, its first team is unbeaten, its second has lost exactly once, and every
      other entrant has lost exactly twice. */
  lemma EveryRunReachesTheFinal(sides: seq<Team>, plan: DoubleElimPlan, calls: seq<Call>)
    requires |sides| >= 2 && DistinctTeams(sides) && IsDoubleElim(sides, plan)
    requires Legal(DrawOf(plan), Start(DrawOf(plan)), calls)
    ensures var draw := DrawOf(plan);
            var st := PlayAll(draw, Start(draw), calls);
            && (!(draw.Keys <= st.played + {GRAND_FINAL}) ==> exists id :: Ready(draw, st, id) && id != GRAND_FINAL)
            && (Ready(draw, st, GRAND_FINAL) <==> FinalComesUp(draw, st))
            && (Ready(draw, st, GRAND_FINAL) ==>
                  |st.log| == 2 * |sides| - 3 && exists a, b :: Finalists(sides, st, a, b))
  {
    var source := PlanIsWired(sides, plan);
    DrawIsPriced(sides, DrawOf(plan), source);
    DrawHasDistinctSeeds(sides, DrawOf(plan));
    RunFromStart(DrawOf(plan), source, calls, Price(DrawOf(plan)), 0, 1);
    OutcomeOf(sides, DrawOf(plan), source, PlayAll(DrawOf(plan), Start(DrawOf(plan)), calls));
  }

  lemma OutcomeOf(sides: seq<Team>, draw: Plan, source: map<Entry, Result>, st: State)
    requires |sides| >= 2 && DistinctTeams(sides) && IsDraw(sides, draw) && FedBy(draw, source)
    requires Running(draw, source, st, Price(draw), 0, 1) && LeadsNowhere(draw, {GRAND_FINAL})
    ensures !(draw.Keys <= st.played + {GRAND_FINAL}) ==> exists id :: Ready(draw, st, id) && id != GRAND_FINAL
    ensures Ready(draw, st, GRAND_FINAL) <==> FinalComesUp(draw, st)
    ensures Ready(draw, st, GRAND_FINAL) ==>
              |st.log| == 2 * |sides| - 3 && exists a, b :: Finalists(sides, st, a, b)
  {
    if !(draw.Keys <= st.played + {GRAND_FINAL}) {
      StillReady(draw, source, st, {GRAND_FINAL});
    }
    FinalComesLast(sides, draw, source, st);
    if Ready(draw, st, GRAND_FINAL) {
      AtTheFinal(sides, draw, source, st);
    }
  }

  lemma AtTheFinal(sides: seq<Team>, draw: Plan, source: map<Entry, Result>, st: State)
    requires |sides| >= 2 && DistinctTeams(sides) && IsDraw(sides, draw) && FedBy(draw, source)
    requires Running(draw, source, st, Price(draw), 0, 1) && FinalComesUp(draw, st)
    ensures |st.log| == 2 * |sides| - 3 && exists a, b :: Finalists(sides, st, a, b)
  {
    var a, b := FinalistsOf(sides, draw, source, st);
    LosersAreSides(sides, draw, st);
    GamesBeforeFinal(sides, st, a, b);
  }

  lemma LosersAreSides(sides: seq<Team>, draw: Plan, st: State)
    requires |sides| >= 2 && DistinctTeams(sides) && IsDraw(sides, draw) && Logged(draw, st)
    ensures forall i | 0 <= i < |st.log| :: st.log[i].loser in sides
  {
    EntrantsAreSides(draw, sides, Winners, To(Entry(GRAND_FINAL, 1)));
  }

  /** The matches not resolved by a bye number exactly 2p - 2, whatever the byes. */
  lemma MatchesToPlay(sides: seq<Team>, plan: DoubleElimPlan)
    requires |sides| >= 2 && DistinctTeams(sides) && IsDoubleElim(sides, plan)
    ensures |DrawOf(plan)| == 2 * |sides| - 2
  {
    var draw := DrawOf(plan);
    var source := PlanIsWired(sides, plan);
    DrawIsPriced(sides, draw, source);
    DrawHasDistinctSeeds(sides, draw);
    StartSound(draw, source);
    var calls := CanBePlayedOut(draw, source, Start(draw), {GRAND_FINAL});
    var st := PlayAll(draw, Start(draw), calls);
    RunFromStart(draw, source, calls, Price(draw), 0, 1);
    OnlyFinalRemains(draw, source, st);
    OutcomeOf(sides, draw, source, st);
    assert draw.Keys == st.played + {GRAND_FINAL};
    assert |draw.Keys| == |draw|;
  }

  lemma OnlyFinalRemains(draw: Plan, source: map<Entry, Result>, st: State)
    requires SeatsFollow(draw, source, st) && st.played !! {GRAND_FINAL} && GRAND_FINAL in draw
    requires Remaining(draw, st, {GRAND_FINAL}) == {}
    ensures FinalComesUp(draw, st) && draw.Keys == st.played + {GRAND_FINAL}
  {
    forall id | id in draw.Keys ensures id in st.played + {GRAND_FINAL} {
      assert id !in Remaining(draw, st, {GRAND_FINAL});
    }
  }
}
