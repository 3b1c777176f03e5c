/** The single-elimination bracket as a draw to be played: on its own, as the winners
    bracket of a double elimination, and as the East bracket of a compass. */
module Knockout {
  import opened Draws
  import opened Powers
  import SeedOrder
  import Bracket
  import Play

  /** A match of a plan as the generators hand it out, tagged by tier or direction. */
  datatype Spec = Spec(side1: Bracket.Side, side2: Bracket.Side, resolvedWinner: Option<Team>,
                       win: Feed, lose: Feed)

  function SeedFrom(side: Bracket.Side): Option<Team> {
    if side.Real? then Some(side.team) else None
  }

  /** The matches left to be played: a match a bye resolved is not one of them. */
  function Playable(specs: map<MatchId, Spec>): Plan {
    map id | id in specs && specs[id].resolvedWinner.None? ::
      Node(SeedFrom(specs[id].side1), SeedFrom(specs[id].side2), specs[id].win, specs[id].lose)
  }

  /** Tag a bracket match; the winner of the final goes to `top`. */
  function Tagged(m: Bracket.Match, b: Group, top: Feed): Spec {
    Spec(m.side1, m.side2, m.resolvedWinner,
         if m.feedsRound != 0 then To(Entry(MatchId(b, m.feedsRound, m.feedsSlot), m.feedsTeam)) else top,
         NoFeed)
  }

  function Rounds(sides: seq<Team>): nat {
    Bracket.RoundsFor(|sides|)
  }

  /** Match (r, s) exists and is not resolved by a bye. */
  predicate Alive(sides: seq<Team>, r: nat, s: nat) {
    Bracket.ValidCoord(Rounds(sides), r, s) && (r == 1 ==> Bracket.ByeWinner(sides, s).None?)
  }

  function WinFeed(k: nat, b: Group, r: nat, s: nat, top: Feed): Feed {
    if r < k then To(Entry(MatchId(b, r + 1, s / 2), s % 2 + 1)) else top
  }

  function KnockoutNode(sides: seq<Team>, b: Group, r: nat, s: nat, top: Feed, lose: Feed): Node {
    Node(SeedFrom(Bracket.InitialSide(sides, r, s, 1)), SeedFrom(Bracket.InitialSide(sides, r, s, 2)),
         WinFeed(Rounds(sides), b, r, s, top), lose)
  }

  /** The `b` part of a plan is the bracket of `sides`, its champion going to `top`. */
  ghost predicate HasBracket(plan: Plan, sides: seq<Team>, b: Group, top: Feed) {
    forall id: MatchId {:trigger BracketMatch(plan, sides, top, id)} :: id.group == b ==> BracketMatch(plan, sides, top, id)
  }

  /** Match `id` is played if the bracket has it, seeded and fed as the bracket says. */
  ghost predicate BracketMatch(plan: Plan, sides: seq<Team>, top: Feed, id: MatchId) {
    && (id in plan <==> Alive(sides, id.round, id.slot))
    && (id in plan ==>
          plan[id] == KnockoutNode(sides, id.group, id.round, id.slot, top, plan[id].lose))
  }

  /** Who fills a seat of the bracket that is not seeded. */
  function WinnerInto(e: Entry): Result
    requires e.node.round >= 1 && (e.team == 1 || e.team == 2)
  {
    Result(MatchId(e.node.group, e.node.round - 1, 2 * e.node.slot + e.team - 1), true)
  }

  /** A seat of the bracket is seeded exactly when no match played feeds it. */
  lemma SeatSeededOrFed(sides: seq<Team>, r: nat, s: nat, t: nat)
    requires |sides| >= 2 && Alive(sides, r, s) && (t == 1 || t == 2)
    ensures SeedFrom(Bracket.InitialSide(sides, r, s, t)).None? <==> r >= 2 && Alive(sides, r - 1, 2 * s + t - 1)
  {
    var k := Rounds(sides);
    if r >= 2 {
      assert Pow2(k - (r - 1)) == 2 * Pow2(k - r);
      assert Bracket.ValidCoord(k, r - 1, 2 * s + t - 1);
    } else {
      Bracket.OpeningSides(sides, s);
    }
  }

  /** Seat and feed are the same arithmetic, both ways. */
  lemma SeatToMatch(s: nat, t: nat)
    requires t == 1 || t == 2
    ensures (2 * s + t - 1) / 2 == s && (2 * s + t - 1) % 2 + 1 == t
  {
  }

  lemma MatchToSeat(s: nat)
    ensures 2 * (s / 2) + (s % 2 + 1) - 1 == s && (s % 2 + 1 == 1 || s % 2 + 1 == 2)
  {
  }

  lemma SeedOfNode(plan: Plan, sides: seq<Team>, b: Group, top: Feed, id: MatchId, t: nat)
    requires HasBracket(plan, sides, b, top) && id in plan && id.group == b && (t == 1 || t == 2)
    ensures Alive(sides, id.round, id.slot)
    ensures plan[id].Seed(t) == SeedFrom(Bracket.InitialSide(sides, id.round, id.slot, t))
  {
    assert BracketMatch(plan, sides, top, id);
    var node := plan[id];
    if t == 1 {
      assert node.Seed(t) == node.seed1;
    } else {
      assert node.Seed(t) == node.seed2;
    }
  }

  /** A seat of the bracket is unseeded exactly when a match of the bracket feeds it. */
  lemma FedSeat(plan: Plan, sides: seq<Team>, b: Group, top: Feed, e: Entry)
    requires |sides| >= 2 && HasBracket(plan, sides, b, top) && IsEntry(plan, e) && e.node.group == b
    ensures !IsSeeded(plan, e) <==> e.node.round >= 2 && Alive(sides, e.node.round - 1, 2 * e.node.slot + e.team - 1)
    ensures e.node.round <= Rounds(sides)
  {
    SeedOfNode(plan, sides, b, top, e.node, e.team);
    SeatSeededOrFed(sides, e.node.round, e.node.slot, e.team);
  }

  lemma NodeInRange(plan: Plan, sides: seq<Team>, b: Group, top: Feed, id: MatchId)
    requires HasBracket(plan, sides, b, top) && id in plan && id.group == b
    ensures Bracket.ValidCoord(Rounds(sides), id.round, id.slot)
  {
    assert BracketMatch(plan, sides, top, id);
  }

  lemma WinOfNode(plan: Plan, sides: seq<Team>, b: Group, top: Feed, r: nat, s: nat)
    requires HasBracket(plan, sides, b, top) && Alive(sides, r, s)
    ensures MatchId(b, r, s) in plan && plan[MatchId(b, r, s)].win == WinFeed(Rounds(sides), b, r, s, top)
  {
    assert BracketMatch(plan, sides, top, MatchId(b, r, s));
  }

  /** Every unseeded seat of the bracket has its producer. */
  lemma SeatHasProducer(plan: Plan, sides: seq<Team>, b: Group, top: Feed, e: Entry)
    requires |sides| >= 2 && HasBracket(plan, sides, b, top)
    requires IsEntry(plan, e) && !IsSeeded(plan, e) && e.node.group == b
    ensures e.node.round >= 2
    ensures WinnerInto(e).node in plan && FeedOf(plan, WinnerInto(e)) == To(e) && Earlier(WinnerInto(e).node, e.node)
  {
    FedSeat(plan, sides, b, top, e);
    FeedsSeat(Rounds(sides), e, top);
    WinOfNode(plan, sides, b, top, e.node.round - 1, 2 * e.node.slot + e.team - 1);
  }

  lemma FeedsSeat(k: nat, e: Entry, top: Feed)
    requires 2 <= e.node.round <= k && (e.team == 1 || e.team == 2)
    ensures WinFeed(k, e.node.group, e.node.round - 1, 2 * e.node.slot + e.team - 1, top) == To(e)
  {
    SeatToMatch(e.node.slot, e.team);
    assert e == Entry(MatchId(e.node.group, e.node.round, e.node.slot), e.team);
  }

  /** Every win in the bracket before its final fills an unseeded seat of the bracket, its own. */
  lemma WinFillsItsSeat(plan: Plan, sides: seq<Team>, b: Group, top: Feed, id: MatchId)
    requires |sides| >= 2 && HasBracket(plan, sides, b, top)
    requires id in plan && id.group == b && id.round < Rounds(sides)
    ensures plan[id].win.To?
    ensures var e := plan[id].win.entry;
            && IsEntry(plan, e) && !IsSeeded(plan, e) && e.node.group == b
            && e.node.round >= 1 && WinnerInto(e) == Result(id, true)
  {
    assert BracketMatch(plan, sides, top, id);
    Bracket.SlotUp(Rounds(sides), id.round, id.slot);
    MatchToSeat(id.slot);
    var next := MatchId(b, id.round + 1, id.slot / 2);
    assert BracketMatch(plan, sides, top, next);
    FedSeat(plan, sides, b, top, Entry(next, id.slot % 2 + 1));
  }

  // --- who is in the draw -------------------------------------------------------------

  /** The line of the draw sheet whose team is seeded at a seat. */
  function SeedLine(e: Entry): nat
    requires e.team == 1 || e.team == 2
  {
    if e.node.round == 1 then 2 * e.node.slot + e.team - 1 else 2 * (2 * e.node.slot + e.team - 1)
  }

  /** A seeded seat of round 1 holds the team of its own line. */
  lemma OpeningSeat(sides: seq<Team>, s: nat, t: nat)
    requires |sides| >= 2 && s < Pow2(Rounds(sides) - 1) && (t == 1 || t == 2)
    requires Bracket.ByeWinner(sides, s).None?
    ensures var k := Rounds(sides);
            var line := 2 * s + t - 1;
            && line < Pow2(k) && 1 <= SeedOrder.SeedOn(k, line) <= |sides|
            && SeedFrom(Bracket.InitialSide(sides, 1, s, t)) == Some(sides[SeedOrder.SeedOn(k, line) - 1])
  {
    LineWithoutBye(sides, s, t);
    Bracket.RealLine(sides, 2 * s + t - 1);
    LineInRange(Rounds(sides), s, t);
  }

  lemma LineWithoutBye(sides: seq<Team>, s: nat, t: nat)
    requires |sides| >= 2 && s < Pow2(Rounds(sides) - 1) && (t == 1 || t == 2) && Bracket.ByeWinner(sides, s).None?
    ensures !Bracket.SideOnLine(sides, 2 * s + t - 1).Bye?
  {
    Bracket.OpeningSides(sides, s);
  }

  lemma LineInRange(k: nat, s: nat, t: nat)
    requires k >= 1 && s < Pow2(k - 1) && (t == 1 || t == 2)
    ensures 2 * s + t - 1 < Pow2(k)
  {
  }

  /** A seeded seat of round 2 holds the team a bye let through, which is on the first line
      of its round-1 match. */
  lemma ByeSeat(sides: seq<Team>, m: nat)
    requires |sides| >= 2 && m < Pow2(Rounds(sides) - 1) && Bracket.ByeWinner(sides, m).Some?
    ensures var k := Rounds(sides);
            && 2 * m < Pow2(k) && 1 <= SeedOrder.SeedOn(k, 2 * m) <= |sides|
            && Bracket.ByeWinner(sides, m) == Some(sides[SeedOrder.SeedOn(k, 2 * m) - 1])
  {
    Bracket.OpeningSides(sides, m);
    SeedOrder.Pairing(Rounds(sides), m);
  }

  /** What a seeded seat of the bracket holds, and which kind of round-1 match it stems from. */
  lemma SeededSeat(sides: seq<Team>, e: Entry)
    requires |sides| >= 2 && Alive(sides, e.node.round, e.node.slot) && (e.team == 1 || e.team == 2)
    requires SeedFrom(Bracket.InitialSide(sides, e.node.round, e.node.slot, e.team)).Some?
    ensures var k := Rounds(sides);
            && SeedLine(e) < Pow2(k) && 1 <= SeedOrder.SeedOn(k, SeedLine(e)) <= |sides|
            && SeedFrom(Bracket.InitialSide(sides, e.node.round, e.node.slot, e.team))
               == Some(sides[SeedOrder.SeedOn(k, SeedLine(e)) - 1])
    ensures e.node.round == 1 || e.node.round == 2
    ensures (e.node.round == 2) == Bracket.ByeWinner(sides, SeedLine(e) / 2).Some?
  {
    if e.node.round == 1 {
      FirstRoundSeat(sides, e);
    } else {
      LaterSeat(sides, e);
    }
  }

  lemma FirstRoundSeat(sides: seq<Team>, e: Entry)
    requires |sides| >= 2 && Alive(sides, 1, e.node.slot) && e.node.round == 1 && (e.team == 1 || e.team == 2)
    ensures var k := Rounds(sides);
            && SeedLine(e) < Pow2(k) && 1 <= SeedOrder.SeedOn(k, SeedLine(e)) <= |sides|
            && SeedFrom(Bracket.InitialSide(sides, e.node.round, e.node.slot, e.team))
               == Some(sides[SeedOrder.SeedOn(k, SeedLine(e)) - 1])
    ensures Bracket.ByeWinner(sides, SeedLine(e) / 2).None?
  {
    OpeningSeat(sides, e.node.slot, e.team);
    SeatToMatch(e.node.slot, e.team);
  }

  lemma LaterSeat(sides: seq<Team>, e: Entry)
    requires |sides| >= 2 && Alive(sides, e.node.round, e.node.slot) && e.node.round != 1 && (e.team == 1 || e.team == 2)
    requires SeedFrom(Bracket.InitialSide(sides, e.node.round, e.node.slot, e.team)).Some?
    ensures var k := Rounds(sides);
            && SeedLine(e) < Pow2(k) && 1 <= SeedOrder.SeedOn(k, SeedLine(e)) <= |sides|
            && SeedFrom(Bracket.InitialSide(sides, e.node.round, e.node.slot, e.team))
               == Some(sides[SeedOrder.SeedOn(k, SeedLine(e)) - 1])
    ensures e.node.round == 2 && Bracket.ByeWinner(sides, SeedLine(e) / 2).Some?
  {
    SecondRoundSeat(sides, e.node.slot, e.team, 2 * e.node.slot + e.team - 1);
  }

  lemma SecondRoundSeat(sides: seq<Team>, s: nat, t: nat, m: nat)
    requires |sides| >= 2 && Alive(sides, 2, s) && (t == 1 || t == 2) && m == 2 * s + t - 1
    requires SeedFrom(Bracket.InitialSide(sides, 2, s, t)).Some?
    ensures var k := Rounds(sides);
            && 2 * m < Pow2(k) && 1 <= SeedOrder.SeedOn(k, 2 * m) <= |sides| && (2 * m) / 2 == m
            && SeedFrom(Bracket.InitialSide(sides, 2, s, t)) == Some(sides[SeedOrder.SeedOn(k, 2 * m) - 1])
    ensures Bracket.ByeWinner(sides, m).Some?
  {
    LineInRange(Rounds(sides) - 1, s, t);
    assert Bracket.ByeWinner(sides, m).Some?;
    ByeSeat(sides, m);
  }

  lemma SameTeamSameIndex(sides: seq<Team>, i: nat, j: nat)
    requires DistinctTeams(sides) && i < |sides| && j < |sides| && sides[i] == sides[j]
    ensures i == j
  {
  }

  lemma SameSeedSameSeat(plan: Plan, sides: seq<Team>, b: Group, top: Feed, e: Entry, f: Entry)
    requires |sides| >= 2 && DistinctTeams(sides) && HasBracket(plan, sides, b, top)
    requires IsSeeded(plan, e) && IsSeeded(plan, f) && e.node.group == b == f.node.group
    requires plan[e.node].Seed(e.team) == plan[f.node].Seed(f.team)
    ensures e == f
  {
    var k := Rounds(sides);
    SeedOfNode(plan, sides, b, top, e.node, e.team);
    SeedOfNode(plan, sides, b, top, f.node, f.team);
    SeededSeat(sides, e);
    SeededSeat(sides, f);
    SameTeamSameIndex(sides, SeedOrder.SeedOn(k, SeedLine(e)) - 1, SeedOrder.SeedOn(k, SeedLine(f)) - 1);
    SeedOrder.SameSeedSameLine(k, SeedLine(e), SeedLine(f));
    SeatOfLine(e);
    SeatOfLine(f);
  }

  /** A seat of the first two rounds is determined by its round and its line. */
  lemma SeatOfLine(e: Entry)
    requires e.team == 1 || e.team == 2
    ensures var m := if e.node.round == 1 then SeedLine(e) else SeedLine(e) / 2;
            e == Entry(MatchId(e.node.group, e.node.round, m / 2), m % 2 + 1)
  {
  }

  lemma TeamStarts(sides: seq<Team>, i: nat) returns (r: nat, s: nat, t: nat)
    requires |sides| >= 2 && i < |sides|
    ensures Alive(sides, r, s) && (t == 1 || t == 2)
    ensures Bracket.InitialSide(sides, r, s, t) == Bracket.Real(sides[i])
  {
    var k := Rounds(sides);
    Bracket.ByesGoToTopSeeds(sides, i + 1);
    var line := SeedOrder.LineOf(k, i + 1);
    MatchToSeat(line);
    HalfInRange(k, line);
    if Bracket.ByeWinner(sides, line / 2).Some? {
      r, s, t := StartsAfterBye(sides, i, line, line / 2);
    } else {
      r, s, t := 1, line / 2, line % 2 + 1;
    }
  }

  lemma HalfInRange(k: nat, line: nat)
    requires k >= 1 && line < Pow2(k)
    ensures line / 2 < Pow2(k - 1)
  {
  }

  lemma StartsAfterBye(sides: seq<Team>, i: nat, line: nat, m: nat) returns (r: nat, s: nat, t: nat)
    requires |sides| >= 2 && i < |sides| && line / 2 == m < Pow2(Rounds(sides) - 1)
    requires Bracket.SideOnLine(sides, line) == Bracket.Real(sides[i]) && Bracket.ByeWinner(sides, m).Some?
    ensures Alive(sides, r, s) && (t == 1 || t == 2)
    ensures Bracket.InitialSide(sides, r, s, t) == Bracket.Real(sides[i])
  {
    var k := Rounds(sides);
    Bracket.OpeningSides(sides, m);
    MatchToSeat(line);
    assert line == 2 * m || line == 2 * m + 1;
    FieldOfTwo(sides);
    Bracket.SlotUp(k, 1, m);
    MatchToSeat(m);
    r, s, t := 2, m / 2, m % 2 + 1;
  }

  /** With byes there are two rounds or more. */
  lemma FieldOfTwo(sides: seq<Team>)
    requires |sides| >= 2 && exists m: nat :: m < Pow2(Rounds(sides) - 1) && Bracket.ByeWinner(sides, m).Some?
    ensures Rounds(sides) >= 2
  {
    var m: nat :| m < Pow2(Rounds(sides) - 1) && Bracket.ByeWinner(sides, m).Some?;
    Bracket.OpeningSides(sides, m);
    assert Pow2(1) == 2 * Pow2(0);
  }

  /** Every team of the field is seeded at one seat. */
  lemma TeamIsSeeded(plan: Plan, sides: seq<Team>, b: Group, top: Feed, i: nat) returns (e: Entry)
    requires |sides| >= 2 && HasBracket(plan, sides, b, top) && i < |sides|
    ensures IsSeeded(plan, e) && e.node.group == b && plan[e.node].Seed(e.team) == Some(sides[i])
  {
    var r, s, t := TeamStarts(sides, i);
    e := Entry(MatchId(b, r, s), t);
    assert BracketMatch(plan, sides, top, e.node);
    SeedOfNode(plan, sides, b, top, e.node, t);
  }

  /** A plan seeded only through its bracket has exactly the field's teams in it. */
  lemma EntrantsAreSides(plan: Plan, sides: seq<Team>, b: Group, top: Feed)
    requires |sides| >= 2 && HasBracket(plan, sides, b, top)
    requires forall e | IsSeeded(plan, e) :: e.node.group == b
    ensures forall p :: p in Play.Entrants(plan) <==> p in sides
  {
    forall p | p in Play.Entrants(plan) ensures p in sides {
      var e := Play.FirstSeat(plan, p);
      SeedOfNode(plan, sides, b, top, e.node, e.team);
      SeededSeat(sides, e);
    }
    forall p | p in sides ensures p in Play.Entrants(plan) {
      var i :| 0 <= i < |sides| && sides[i] == p;
      var e := TeamIsSeeded(plan, sides, b, top, i);
      assert e in Play.SeededSeats(plan);
    }
  }
}
