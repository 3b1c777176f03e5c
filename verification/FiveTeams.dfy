/** The one field, of those padded to eight lines or more, in which a winners-round-2 loser can be
    sent straight back to somebody it has beaten: five teams. */
module FiveTeams {
  import opened Draws
  import opened Powers
  import opened Play
  import opened Knockout
  import opened Collapse
  import opened DoubleElim
  import opened DoubleElimPlay
  import opened History
  import opened ComeAroundDrops
  import Bracket
  import SeedOrder

  lemma FiveSeeds(s: nat)
    requires s < 4
    ensures SeedOrder.SeedOn(2, s) == if s == 0 then 1 else if s == 1 then 4 else if s == 2 then 2 else 3
  {
    assert Pow2(1) == 2 && Pow2(2) == 4;
    assert SeedOrder.SeedOn(0, 0) == 1;
    assert SeedOrder.SeedOn(1, 0) == 1 && SeedOrder.SeedOn(1, 1) == 2;
  }

  /** Five teams play one first-round match: seeds 4 and 5, in slot 1. */
  lemma FiveOpening(sides: seq<Team>, s: nat)
    requires |sides| == 5
    ensures Rounds(sides) == 3 && (Alive(sides, 1, s) <==> s == 1)
    ensures Alive(sides, 2, s) <==> s < 2
  {
    SmallPowers(2);
    assert Pow2(2) == 4;
    CeilLog2Unique(5, 3);
    if s < 4 {
      FiveSeeds(s);
      Bracket.OpeningSides(sides, s);
    }
  }

  /** What the first losers round passes on: the loser of the one first-round match, and nobody. */
  lemma FiveFirstRound(sides: seq<Team>)
    requires |sides| == 5
    ensures Rounds(sides) == 3
    ensures var sh := LoserShape(sides);
            && ValidMatch(sh, 1, 0) && ValidMatch(sh, 1, 1)
            && ValidMatch(sh, 2, 0) && ValidMatch(sh, 2, 1) && ValidMatch(sh, 3, 0)
            && OutOf(sh, 1, 0) == Loser(Source(1, 1)) && OutOf(sh, 1, 1) == Bye
  {
    FiveOpening(sides, 0);
    FiveOpening(sides, 1);
    FiveOpening(sides, 2);
    FiveOpening(sides, 3);
    var sh := LoserShape(sides);
    assert Pow2(2) == 4 && sh.Width(1) == 2 && sh.Width(2) == 2 && sh.Width(3) == 1;
  }

  lemma FiveSecondRound(sides: seq<Team>, j: nat)
    requires |sides| == 5 && j < 2
    ensures Rounds(sides) == 3 && ValidMatch(LoserShape(sides), 2, j)
    ensures In(LoserShape(sides), Spot(2, j, 1)) == if j == 0 then Loser(Source(1, 1)) else Bye
    ensures In(LoserShape(sides), Spot(2, j, 2)) == Loser(Source(2, 1 - j))
  {
    FiveFirstRound(sides);
    var sh := LoserShape(sides);
    DropsInto(sh, 2, j);
    assert FeederOf(sh, Spot(2, j, 1)) == FromMatch(1, j);
  }

  /** Who sits where in the first matches of the losers bracket, before renumbering. */
  lemma FiveLosers(sides: seq<Team>)
    requires |sides| == 5
    ensures Rounds(sides) == 3
    ensures var sh := LoserShape(sides);
            && Emitted(sh, 2, 0) && Emitted(sh, 3, 0)
            && In(sh, Spot(2, 0, 1)) == Loser(Source(1, 1)) && In(sh, Spot(2, 0, 2)) == Loser(Source(2, 1))
            && In(sh, Spot(3, 0, 1)) == Token.Winner(2, 0) && In(sh, Spot(3, 0, 2)) == Loser(Source(2, 0))
  {
    FiveFirstRound(sides);
    FiveSecondRound(sides, 0);
    FiveSecondRound(sides, 1);
    var sh := LoserShape(sides);
    assert FeederOf(sh, Spot(3, 0, 1)) == FromMatch(2, 0) && FeederOf(sh, Spot(3, 0, 2)) == FromMatch(2, 1);
  }

  // --- the feeds of the finished plan -----------------------------------------------------------

  const W11 := MatchId(Winners, 1, 1)
  const W20 := MatchId(Winners, 2, 0)
  const W21 := MatchId(Winners, 2, 1)

  /** The feeds a run of five teams starts with: `a` and `b` are the first two losers matches. */
  ghost predicate FiveFeeds(plan: Plan, a: MatchId, b: MatchId) {
    && W11 in plan && plan[W11].win == To(Entry(W20, 2)) && plan[W11].lose == To(Entry(a, 1))
    && W20 in plan && plan[W20].win.To? && plan[W20].win.entry.node.group == Winners
    && plan[W20].lose == To(Entry(b, 2))
    && W21 in plan && plan[W21].win.To? && plan[W21].win.entry.node.group == Winners
    && plan[W21].lose == To(Entry(a, 2))
    && a in plan && plan[a].win == To(Entry(b, 1)) && plan[a].lose == NoFeed && b in plan
    && a.group == Losers && b.group == Losers && a != b
    && IsSeeded(plan, Entry(W11, 1)) && IsSeeded(plan, Entry(W11, 2))
    && IsSeeded(plan, Entry(W20, 1)) && IsSeeded(plan, Entry(W21, 1)) && IsSeeded(plan, Entry(W21, 2))
  }

  /** A losers seat's occupant is fed there in the plan. */
  lemma FedTo(sides: seq<Team>, plan: Plan, x: Spot)
    requires Rounds(sides) >= 2 && IsStructuralPlan(sides, plan)
    requires ValidSpot(LoserShape(sides), x) && Emitted(LoserShape(sides), x.round, x.slot)
    ensures In(LoserShape(sides), x) != Bye && ResultOf(In(LoserShape(sides), x)).node in plan
    ensures FeedOf(plan, ResultOf(In(LoserShape(sides), x))) == To(Entry(MatchId(Losers, x.round, x.slot), x.team))
  {
    EachSideFedOnce(LoserShape(sides), x);
    TokenFeed(sides, plan, In(LoserShape(sides), x));
  }

  lemma FiveStructural(sides: seq<Team>, plan: Plan)
    requires |sides| == 5 && Rounds(sides) >= 2 && IsStructuralPlan(sides, plan)
    ensures FiveFeeds(plan, MatchId(Losers, 2, 0), MatchId(Losers, 3, 0))
  {
    FiveLosers(sides);
    FedTo(sides, plan, Spot(2, 0, 1));
    FedTo(sides, plan, Spot(2, 0, 2));
    FedTo(sides, plan, Spot(3, 0, 1));
    FedTo(sides, plan, Spot(3, 0, 2));
    FiveWinners(sides, plan);
  }

  lemma FiveWinners(sides: seq<Team>, plan: Plan)
    requires |sides| == 5 && HasBracket(plan, sides, Winners, To(Entry(GRAND_FINAL, 1)))
    ensures W11 in plan && W20 in plan && W21 in plan
    ensures plan[W11].win == To(Entry(W20, 2))
    ensures plan[W20].win == To(Entry(MatchId(Winners, 3, 0), 1)) && plan[W21].win == To(Entry(MatchId(Winners, 3, 0), 2))
    ensures IsSeeded(plan, Entry(W11, 1)) && IsSeeded(plan, Entry(W11, 2))
    ensures IsSeeded(plan, Entry(W20, 1)) && IsSeeded(plan, Entry(W21, 1)) && IsSeeded(plan, Entry(W21, 2))
  {
    var top := To(Entry(GRAND_FINAL, 1));
    forall s: nat ensures (Alive(sides, 1, s) <==> s == 1) && (Alive(sides, 2, s) <==> s < 2) && Rounds(sides) == 3 {
      FiveOpening(sides, s);
    }
    WinOfNode(plan, sides, Winners, top, 1, 1);
    WinOfNode(plan, sides, Winners, top, 2, 0);
    WinOfNode(plan, sides, Winners, top, 2, 1);
    FedSeat(plan, sides, Winners, top, Entry(W11, 1));
    FedSeat(plan, sides, Winners, top, Entry(W11, 2));
    FedSeat(plan, sides, Winners, top, Entry(W20, 1));
    FedSeat(plan, sides, Winners, top, Entry(W21, 1));
    FedSeat(plan, sides, Winners, top, Entry(W21, 2));
  }

  lemma FiveRenamed(plan: Plan, out: Plan, present: set<nat>, a: MatchId, b: MatchId)
    requires FiveFeeds(plan, a, b) && RenamedPlan(plan, out, present)
    ensures FiveFeeds(out, RenameId(present, a), RenameId(present, b))
  {
    if RenameId(present, a) == RenameId(present, b) {
      RenameIsInjective(present, a, b);
    }
    forall id | id in {W11, W20, W21} ensures RenameId(present, id) == id && id in out && out[id] == RenameNode(present, plan[id]) {
    }
  }

  // --- the run --------------------------------------------------------------------------------------

  /** What calling a match for its first side does to the seats. */
  lemma FirstSideWins(plan: Plan, st: State, id: MatchId)
    requires Ready(plan, st, id) && plan[id].win != plan[id].lose
    ensures var after := PlayGame(plan, st, Call(id, true));
            && after.played == st.played + {id}
            && after.log == st.log + [Game(id, st.seats[Entry(id, 1)], st.seats[Entry(id, 2)])]
            && (forall e | e in st.seats && To(e) != plan[id].win && To(e) != plan[id].lose ::
                  e in after.seats && after.seats[e] == st.seats[e])
            && (plan[id].win.To? ==>
                  plan[id].win.entry in after.seats && after.seats[plan[id].win.entry] == st.seats[Entry(id, 1)])
            && (plan[id].lose.To? ==>
                  plan[id].lose.entry in after.seats && after.seats[plan[id].lose.entry] == st.seats[Entry(id, 2)])
  {
  }

  lemma OneMoreCall(plan: Plan, st: State, c: Call, calls: seq<Call>)
    requires Ready(plan, st, c.node) && Legal(plan, PlayGame(plan, st, c), calls)
    ensures Legal(plan, st, [c] + calls)
    ensures PlayAll(plan, st, [c] + calls) == PlayAll(plan, PlayGame(plan, st, c), calls)
  {
    assert ([c] + calls)[1..] == calls;
  }

  /** Four calls, the first side winning each: seed 4 beats seed 5, loses to seed 1, and waits in the
      second losers match; seed 5 beats the loser of the other semifinal and comes up to meet it. */
  lemma FiveRun(plan: Plan, a: MatchId, b: MatchId) returns (calls: seq<Call>)
    requires FiveFeeds(plan, a, b)
    ensures Legal(plan, Start(plan), calls)
    ensures var st := PlayAll(plan, Start(plan), calls);
            Ready(plan, st, b) && HaveMet(st.log, st.seats[Entry(b, 2)], st.seats[Entry(b, 1)])
  {
    var st1 := FiveFirst(plan, a, b);
    var st2 := FiveSemifinal(plan, a, b, st1);
    var st4 := FiveDrops(plan, a, b, st2);
    OneMoreCall(plan, PlayGame(plan, st2, Call(W21, true)), Call(a, true), []);
    OneMoreCall(plan, st2, Call(W21, true), [Call(a, true)]);
    OneMoreCall(plan, st1, Call(W20, true), [Call(W21, true)] + [Call(a, true)]);
    OneMoreCall(plan, Start(plan), Call(W11, true), [Call(W20, true)] + ([Call(W21, true)] + [Call(a, true)]));
    calls := [Call(W11, true)] + ([Call(W20, true)] + ([Call(W21, true)] + [Call(a, true)]));
  }

  /** After the semifinal of the first-round winner: it waits in the second losers match. */
  lemma FiveSemifinal(plan: Plan, a: MatchId, b: MatchId, st1: State) returns (st2: State)
    requires FiveFeeds(plan, a, b) && AfterFirst(st1, a)
    ensures Ready(plan, st1, W20) && st2 == PlayGame(plan, st1, Call(W20, true)) && AfterSemifinal(st2, a, b)
  {
    FirstSideWins(plan, st1, W20);
    st2 := PlayGame(plan, st1, Call(W20, true));
    assert st2.log[0] == st1.log[0];
  }

  /** After the other semifinal and the first losers match: the two are opposite each other again. */
  lemma FiveDrops(plan: Plan, a: MatchId, b: MatchId, st2: State) returns (st4: State)
    requires FiveFeeds(plan, a, b) && AfterSemifinal(st2, a, b)
    ensures Ready(plan, st2, W21) && Ready(plan, PlayGame(plan, st2, Call(W21, true)), a)
    ensures st4 == PlayGame(plan, PlayGame(plan, st2, Call(W21, true)), Call(a, true))
    ensures Ready(plan, st4, b) && HaveMet(st4.log, st4.seats[Entry(b, 2)], st4.seats[Entry(b, 1)])
  {
    FirstSideWins(plan, st2, W21);
    var st3 := PlayGame(plan, st2, Call(W21, true));
    FirstSideWins(plan, st3, a);
    st4 := PlayGame(plan, st3, Call(a, true));
    assert st4.log[0] == st2.log[0];
    assert InGame(st4.log[0], st4.seats[Entry(b, 2)]) && InGame(st4.log[0], st4.seats[Entry(b, 1)]);
  }

  predicate AfterFirst(st: State, a: MatchId) {
    && st.played == {W11} && |st.log| == 1
    && Entry(W20, 1) in st.seats && Entry(W21, 1) in st.seats && Entry(W21, 2) in st.seats
    && Entry(W20, 2) in st.seats && Entry(a, 1) in st.seats
    && st.log[0] == Game(W11, st.seats[Entry(W20, 2)], st.seats[Entry(a, 1)])
  }

  predicate AfterSemifinal(st: State, a: MatchId, b: MatchId) {
    && st.played == {W11, W20} && |st.log| >= 1
    && Entry(W21, 1) in st.seats && Entry(W21, 2) in st.seats && Entry(a, 1) in st.seats && Entry(b, 2) in st.seats
    && st.log[0] == Game(W11, st.seats[Entry(b, 2)], st.seats[Entry(a, 1)])
  }

  /** After the first-round match: its winner is in the semifinal, its loser in the first losers match. */
  lemma FiveFirst(plan: Plan, a: MatchId, b: MatchId) returns (st: State)
    requires FiveFeeds(plan, a, b)
    ensures Ready(plan, Start(plan), W11) && st == PlayGame(plan, Start(plan), Call(W11, true))
    ensures AfterFirst(st, a)
  {
    var st0 := Start(plan);
    assert Entry(W11, 1) in st0.seats && Entry(W11, 2) in st0.seats && Entry(W20, 1) in st0.seats;
    assert Entry(W21, 1) in st0.seats && Entry(W21, 2) in st0.seats;
    FirstSideWins(plan, st0, W11);
    st := PlayGame(plan, st0, Call(W11, true));
  }

  // --- exactly when -----------------------------------------------------------------------------------

  /** In no run does the loser of winners match (r, s) meet, in its first match after the drop,
      somebody it has met before. */
  ghost predicate NeverMeetsAgain(plan: Plan, r: nat, s: nat) {
    forall calls, e | Legal(plan, Start(plan), calls) && DropsAt(plan, r, s, e)
                      && Ready(plan, PlayAll(plan, Start(plan), calls), e.node) ::
      AreNew(PlayAll(plan, Start(plan), calls), e)
  }

  predicate DropsAt(plan: Plan, r: nat, s: nat, e: Entry) {
    MatchId(Winners, r, s) in plan && plan[MatchId(Winners, r, s)].lose == To(e)
  }

  ghost predicate AreNew(st: State, e: Entry) {
    e in st.seats && OtherSeat(e) in st.seats && !HaveMet(st.log, st.seats[e], st.seats[OtherSeat(e)])
  }

  /** In a bracket of eight lines or more, losing in winners round 2 never leads straight to a
      rematch, if and only if it is not match 0 of a field of five. */
  lemma SecondRoundRematch(sides: seq<Team>, plan: DoubleElimPlan, s: nat)
    requires DistinctTeams(sides) && Rounds(sides) >= 3 && s < Pow2(Rounds(sides) - 2) && IsDoubleElim(sides, plan)
    ensures NeverMeetsAgain(DrawOf(plan), 2, s) <==> !(|sides| == 5 && s == 0)
  {
    var draw := DrawOf(plan);
    if |sides| == 5 && s == 0 {
      FiveMeetAgain(sides, plan);
    } else {
      forall calls, e | Legal(draw, Start(draw), calls) && DropsAt(draw, 2, s, e)
                        && Ready(draw, PlayAll(draw, Start(draw), calls), e.node)
        ensures AreNew(PlayAll(draw, Start(draw), calls), e)
      {
        NoRematchOnTheDrop(sides, plan, calls, 2, s, e);
      }
    }
  }

  lemma FiveMeetAgain(sides: seq<Team>, plan: DoubleElimPlan)
    requires |sides| == 5 && IsDoubleElim(sides, plan)
    ensures !NeverMeetsAgain(DrawOf(plan), 2, 0)
  {
    FiveOpening(sides, 0);
    var draw := DrawOf(plan);
    var before, present := BeforeRenumbering(sides, plan);
    FiveStructural(sides, before);
    FiveRenamed(before, draw, present, MatchId(Losers, 2, 0), MatchId(Losers, 3, 0));
    var b := RenameId(present, MatchId(Losers, 3, 0));
    var calls := FiveRun(draw, RenameId(present, MatchId(Losers, 2, 0)), b);
    assert DropsAt(draw, 2, 0, Entry(b, 2));
    assert !AreNew(PlayAll(draw, Start(draw), calls), Entry(b, 2));
  }
}
