/** A bracket match by match, told from the finished plan: who sits where and where the winner goes. */
module BracketTable {
  import opened Coordinates
  import opened Draws
  import opened Powers
  import opened Knockout
  import Bracket
  import SeedOrder

  /** Seed `a` of `size` lines, and the seed it opens against. */
  predicate Opens(sides: seq<Team>, size: nat, m: Bracket.Match, a: nat) {
    && 1 <= a <= size && a <= |sides| && m.side1 == Bracket.Real(sides[a - 1])
    && m.side2 == (if 1 <= size + 1 - a <= |sides| then Bracket.Real(sides[size - a]) else Bracket.Bye)
    && m.resolvedWinner == (if m.side2.Bye? then Some(sides[a - 1]) else None)
  }

  predicate Feeds(m: Bracket.Match, round: nat, slot: nat, team: nat) {
    m.feedsRound == round && m.feedsSlot == slot && m.feedsTeam == team
  }

  /** The seat of a later match: whoever a bye let through into it, or nobody yet. */
  predicate Waits(plan: Bracket.BracketPlan, r: nat, s: nat, team: nat, side: Bracket.Side)
    requires r >= 1
  {
    var c := Coord(r - 1, 2 * s + (if team == 2 then 1 else 0));
    c in plan.matches
    && side == match plan.matches[c].resolvedWinner
               case Some(t) => Bracket.Real(t)
               case None => Bracket.Tbd
  }

  /** The first round pairs a seed of the top half with the one that makes up the size plus one, the better one first,
      a bye where there is no such team; later rounds wait for winners, neighbours meet, the upper one on side 1. */
  lemma MatchByMatch(sides: seq<Team>, plan: Bracket.BracketPlan, r: nat, s: nat)
    requires |sides| >= 2 && Bracket.IsBracket(sides, plan)
    ensures Coord(r, s) in plan.matches <==> 1 <= r <= plan.rounds && s < Pow2(plan.rounds - r)
    ensures Coord(r, s) in plan.matches ==>
              var m := plan.matches[Coord(r, s)];
              && (if r < plan.rounds then Feeds(m, r + 1, s / 2, s % 2 + 1) else Feeds(m, 0, 0, 0))
              && (r == 1 ==> exists a: nat :: a <= plan.size / 2 && Opens(sides, plan.size, m, a))
              && (r > 1 ==> m.resolvedWinner == None
                            && Waits(plan, r, s, 1, m.side1) && Waits(plan, r, s, 2, m.side2))
  {
    var k := plan.rounds;
    assert Coord(r, s) in plan.matches <==> Bracket.ValidCoord(k, r, s);
    if Bracket.ValidCoord(k, r, s) {
      if r == 1 {
        OpeningMatch(sides, plan, s);
      } else {
        LaterSeat(sides, plan, r, s, 1);
        LaterSeat(sides, plan, r, s, 2);
      }
    }
  }

  lemma OpeningMatch(sides: seq<Team>, plan: Bracket.BracketPlan, s: nat)
    requires |sides| >= 2 && Bracket.IsBracket(sides, plan) && s < Pow2(plan.rounds - 1)
    ensures Coord(1, s) in plan.matches
    ensures exists a: nat :: a <= plan.size / 2 && Opens(sides, plan.size, plan.matches[Coord(1, s)], a)
  {
    var k := plan.rounds;
    assert Bracket.ValidCoord(k, 1, s) && Pow2(k) == 2 * Pow2(k - 1);
    Bracket.OpeningSides(sides, s);
    SeedOrder.Pairing(k, s);
    var a: nat := SeedOrder.SeedOn(k - 1, s);
    assert Opens(sides, plan.size, plan.matches[Coord(1, s)], a);
  }

  lemma LaterSeat(sides: seq<Team>, plan: Bracket.BracketPlan, r: nat, s: nat, team: nat)
    requires |sides| >= 2 && Bracket.IsBracket(sides, plan) && r >= 2 && Bracket.ValidCoord(plan.rounds, r, s)
    requires team == 1 || team == 2
    ensures Waits(plan, r, s, team, Bracket.InitialSide(sides, r, s, team))
  {
    var k, c := plan.rounds, Coord(r - 1, 2 * s + team - 1);
    assert Pow2(k - (r - 1)) == 2 * Pow2(k - r);
    assert Bracket.ValidCoord(k, c.round, c.slot);
    assert c in plan.matches && plan.matches[c] == Bracket.MatchAt(sides, c.round, c.slot);
  }

  /** The same of a bracket that is part of a larger draw, by what is left to play. */
  lemma InADraw(plan: Plan, sides: seq<Team>, b: Group, top: Feed, r: nat, s: nat)
    requires |sides| >= 2 && HasBracket(plan, sides, b, top)
    ensures var id, k := MatchId(b, r, s), Rounds(sides);
            && (id in plan <==> 1 <= r <= k && s < Pow2(k - r) && (r == 1 ==> SecondSeed(k, s) <= |sides|))
            && (id in plan ==>
                  && plan[id].win == (if r < k then To(Entry(MatchId(b, r + 1, s / 2), s % 2 + 1)) else top)
                  && SeatOf(plan, sides, b, k, r, s, 1) && SeatOf(plan, sides, b, k, r, s, 2))
  {
    var id, k := MatchId(b, r, s), Rounds(sides);
    assert BracketMatch(plan, sides, top, id);
    if r == 1 && s < Pow2(k - 1) {
      OpeningSeeds(sides, s);
    }
    if id in plan {
      SeatIs(plan, sides, b, top, r, s, 1);
      SeatIs(plan, sides, b, top, r, s, 2);
    }
  }

  /** The two seeds a first-round match is between, the better one first. */
  function FirstSeed(k: nat, s: nat): int {
    SeedOrder.SeedOn(k, 2 * s)
  }

  function SecondSeed(k: nat, s: nat): int {
    Pow2(k) + 1 - FirstSeed(k, s)
  }

  lemma OpeningSeeds(sides: seq<Team>, s: nat)
    requires |sides| >= 2 && s < Pow2(Rounds(sides) - 1)
    ensures var k := Rounds(sides);
            && 1 <= FirstSeed(k, s) <= |sides| && SecondSeed(k, s) >= 1
            && FirstSeed(k, s) <= SecondSeed(k, s)
            && SecondSeed(k, s) == SeedOrder.SeedOn(k, 2 * s + 1)
            && (Alive(sides, 1, s) <==> SecondSeed(k, s) <= |sides|)
            && (!Alive(sides, 1, s) ==> Bracket.ByeWinner(sides, s) == Some(sides[FirstSeed(k, s) - 1]))
  {
    var k := Rounds(sides);
    SeedOrder.Pairing(k, s);
    Bracket.OpeningSides(sides, s);
    assert Pow2(k) == 2 * Pow2(k - 1);
  }

  /** A first-round seat is seeded; a second-round seat is when its first-round match is not played, with the better
      seed of that match; no other seat is. */
  ghost predicate SeatOf(plan: Plan, sides: seq<Team>, b: Group, k: nat, r: nat, s: nat, t: nat) {
    var id, below := MatchId(b, r, s), 2 * s + (if t == 2 then 1 else 0);
    && id in plan
    && plan[id].Seed(t) ==
       if r == 1 then TeamOf(sides, if t == 1 then FirstSeed(k, s) else SecondSeed(k, s))
       else if r == 2 && MatchId(b, 1, below) !in plan then TeamOf(sides, FirstSeed(k, below))
       else None
  }

  function TeamOf(sides: seq<Team>, seed: int): Option<Team> {
    if 1 <= seed <= |sides| then Some(sides[seed - 1]) else None
  }

  lemma SeatIs(plan: Plan, sides: seq<Team>, b: Group, top: Feed, r: nat, s: nat, t: nat)
    requires |sides| >= 2 && HasBracket(plan, sides, b, top) && MatchId(b, r, s) in plan && (t == 1 || t == 2)
    ensures SeatOf(plan, sides, b, Rounds(sides), r, s, t)
  {
    var k, below := Rounds(sides), 2 * s + t - 1;
    SeedOfNode(plan, sides, b, top, MatchId(b, r, s), t);
    if r == 1 {
      OpeningSeeds(sides, s);
    } else if r == 2 {
      assert Pow2(k - 1) == 2 * Pow2(k - 2);
      LetThrough(plan, sides, b, top, below);
    }
  }

  /** Whoever a first-round bye lets through is the better of its two seeds. */
  lemma LetThrough(plan: Plan, sides: seq<Team>, b: Group, top: Feed, s: nat)
    requires |sides| >= 2 && HasBracket(plan, sides, b, top) && s < Pow2(Rounds(sides) - 1)
    ensures Bracket.ByeWinner(sides, s)
         == if MatchId(b, 1, s) in plan then None else TeamOf(sides, FirstSeed(Rounds(sides), s))
  {
    OpeningSeeds(sides, s);
    assert BracketMatch(plan, sides, top, MatchId(b, 1, s));
  }
}
