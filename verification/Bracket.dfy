/** bracket.go: the seeded single-elimination bracket. */
module Bracket {
  import opened Coordinates
  import opened Draws
  import opened Powers
  import SeedOrder

  /** A side of a bracket match: still to be decided, the bye sentinel, or a team. */
  datatype Side = Tbd | Bye | Real(team: Team)

  /** One node of the bracket. `feedsRound == 0` means no feed: the final. */
  datatype Match = Match(side1: Side, side2: Side,
                         feedsRound: nat, feedsSlot: nat, feedsTeam: nat,
                         resolvedWinner: Option<Team>)
  {
    function WithSide(team: nat, side: Side): Match {
      if team == 1 then this.(side1 := side) else this.(side2 := side)
    }

    /** The team a bye lets through, if exactly one side is a bye. */
    function LetThrough(): Option<Team> {
      if side1.Bye? && side2.Real? then Some(side2.team)
      else if side2.Bye? && side1.Real? then Some(side1.team)
      else None
    }
  }

  datatype BracketPlan = BracketPlan(size: nat, rounds: nat, matches: map<Coord, Match>)

  // --- the closed form of the bracket ---------------------------------------------

  /** Rounds of the bracket for a field of `p`. */
  function RoundsFor(p: nat): (k: nat)
    ensures k >= 1 && p <= Pow2(k)
    ensures p >= 2 ==> Pow2(k - 1) < p
  {
    CeilLog2(if p < 2 then 2 else p)
  }

  predicate ValidCoord(k: nat, r: nat, s: nat) {
    1 <= r <= k && s < Pow2(k - r)
  }

  function SideForSeed(sides: seq<Team>, seed: int): Side
    requires seed >= 1
  {
    if seed - 1 < |sides| then Real(sides[seed - 1]) else Bye
  }

  /** The side that starts on line `i` of the draw sheet. */
  function SideOnLine(sides: seq<Team>, i: nat): Side {
    var k := RoundsFor(|sides|);
    SeedOrder.SeedInRange(k, i);
    SideForSeed(sides, SeedOrder.SeedOn(k, i))
  }

  function OpeningMatch(sides: seq<Team>, s: nat): Match {
    Match(SideOnLine(sides, 2 * s), SideOnLine(sides, 2 * s + 1), 0, 0, 0, None)
  }

  /** The team round-1 match `s` lets through without playing. */
  function ByeWinner(sides: seq<Team>, s: nat): Option<Team> {
    OpeningMatch(sides, s).LetThrough()
  }

  /** Side `team` of match (r, s) when the bracket is handed out. */
  function InitialSide(sides: seq<Team>, r: nat, s: nat, team: nat): Side
    requires team == 1 || team == 2
  {
    if r == 1 then SideOnLine(sides, 2 * s + team - 1)
    else if r == 2 && ByeWinner(sides, 2 * s + team - 1).Some? then
      Real(ByeWinner(sides, 2 * s + team - 1).value)
    else Tbd
  }

  function Linked(m: Match, k: nat, r: nat, s: nat): Match {
    if r < k then m.(feedsRound := r + 1, feedsSlot := s / 2, feedsTeam := s % 2 + 1) else m
  }

  function MatchAt(sides: seq<Team>, r: nat, s: nat): Match {
    Linked(Match(InitialSide(sides, r, s, 1), InitialSide(sides, r, s, 2), 0, 0, 0,
                 if r == 1 then ByeWinner(sides, s) else None),
           RoundsFor(|sides|), r, s)
  }

  /** A bracket that is exactly the closed form. */
  ghost predicate IsBracket(sides: seq<Team>, plan: BracketPlan) {
    var k := RoundsFor(|sides|);
    && plan.size == Pow2(k) && plan.rounds == k
    && (forall c :: c in plan.matches <==> ValidCoord(k, c.round, c.slot))
    && (forall c | c in plan.matches :: plan.matches[c] == MatchAt(sides, c.round, c.slot))
  }

  // --- advance ----------------------------------------------------------------------

  /** Every feed names a match of the next round. */
  ghost predicate FeedsForward(ms: map<Coord, Match>, rounds: nat) {
    forall c | c in ms && ms[c].feedsRound != 0 ::
      ms[c].feedsRound == c.round + 1 <= rounds && Coord(ms[c].feedsRound, ms[c].feedsSlot) in ms
  }

  /** Resolve match `at` for `winner`, and cascade while the next match holds a bye. */
  function Advanced(ms: map<Coord, Match>, rounds: nat, at: Coord, winner: Team): map<Coord, Match>
    requires at in ms && FeedsForward(ms, rounds)
    decreases rounds - at.round
  {
    var m := ms[at].(resolvedWinner := Some(winner));
    if m.feedsRound == 0 then ms[at := m]
    else
      var target := Coord(m.feedsRound, m.feedsSlot);
      var t := ms[target].WithSide(m.feedsTeam, Real(winner));
      var ms' := ms[at := m][target := t];
      if t.LetThrough().Some? then Advanced(ms', rounds, target, t.LetThrough().value) else ms'
  }

  method Advance(ms: map<Coord, Match>, ghost rounds: nat, at: Coord, winner: Team) returns (out: map<Coord, Match>)
    requires at in ms && FeedsForward(ms, rounds)
    ensures out == Advanced(ms, rounds, at, winner)
    decreases rounds - at.round
  {
    out := ms[at := ms[at].(resolvedWinner := Some(winner))];
    if out[at].feedsRound == 0 {
      return;
    }
    var target := Coord(out[at].feedsRound, out[at].feedsSlot);
    if out[at].feedsTeam == 1 {
      out := out[target := out[target].(side1 := Real(winner))];
    } else {
      out := out[target := out[target].(side2 := Real(winner))];
    }
    if out[target].side1.Bye? && out[target].side2.Real? {
      out := Advance(out, rounds, target, out[target].side2.team);
    } else if out[target].side2.Bye? && out[target].side1.Real? {
      out := Advance(out, rounds, target, out[target].side1.team);
    }
  }

  /** No bye survives past round 1, so one call of `advance` resolves one match and fills
      one seat: the cascade never runs. */
  lemma AdvanceNeverCascades(ms: map<Coord, Match>, rounds: nat, at: Coord, winner: Team)
    requires at in ms && FeedsForward(ms, rounds)
    requires forall c | c in ms && c.round > 1 :: !ms[c].side1.Bye? && !ms[c].side2.Bye?
    requires at.round >= 1
    ensures var m := ms[at].(resolvedWinner := Some(winner));
            Advanced(ms, rounds, at, winner) ==
            if m.feedsRound == 0 then ms[at := m]
            else ms[at := m][Coord(m.feedsRound, m.feedsSlot) :=
                             ms[Coord(m.feedsRound, m.feedsSlot)].WithSide(m.feedsTeam, Real(winner))]
  {
  }

  // --- the generator ----------------------------------------------------------------

  /** What the bracket looks like once the byes of the first `done` round-1 matches are resolved. */
  function PartSide(sides: seq<Team>, r: nat, s: nat, team: nat, done: nat): Side
    requires team == 1 || team == 2
  {
    if r >= 2 && 2 * s + team - 1 >= done then Tbd else InitialSide(sides, r, s, team)
  }

  function PartMatch(sides: seq<Team>, r: nat, s: nat, done: nat): Match {
    Linked(Match(PartSide(sides, r, s, 1, done), PartSide(sides, r, s, 2, done), 0, 0, 0,
                 if r == 1 && s < done then ByeWinner(sides, s) else None),
           RoundsFor(|sides|), r, s)
  }

  ghost predicate IsPart(sides: seq<Team>, ms: map<Coord, Match>, done: nat) {
    && (forall c :: c in ms <==> ValidCoord(RoundsFor(|sides|), c.round, c.slot))
    && (forall c | c in ms :: ms[c] == PartMatch(sides, c.round, c.slot, done))
  }

  lemma SlotUp(k: nat, r: nat, s: nat)
    requires ValidCoord(k, r, s) && r < k
    ensures ValidCoord(k, r + 1, s / 2)
    ensures 2 * (s / 2) + (s % 2 + 1) - 1 == s
  {
    assert Pow2(k - r) == 2 * Pow2(k - (r + 1));
  }

  lemma PartFeedsForward(sides: seq<Team>, ms: map<Coord, Match>, done: nat)
    requires IsPart(sides, ms, done)
    ensures FeedsForward(ms, RoundsFor(|sides|))
  {
    forall c | c in ms && ms[c].feedsRound != 0
      ensures ms[c].feedsRound == c.round + 1 <= RoundsFor(|sides|) && Coord(ms[c].feedsRound, ms[c].feedsSlot) in ms
    {
      SlotUp(RoundsFor(|sides|), c.round, c.slot);
    }
  }

  /** How the closed form changes when one more round-1 match is resolved. */
  lemma PartStep(sides: seq<Team>, r: nat, s: nat, done: nat)
    ensures PartMatch(sides, r, s, done + 1) ==
            if r == 1 && s == done then PartMatch(sides, r, s, done).(resolvedWinner := ByeWinner(sides, done))
            else if r == 2 && s == done / 2 && ByeWinner(sides, done).Some? then
              PartMatch(sides, r, s, done).WithSide(done % 2 + 1, Real(ByeWinner(sides, done).value))
            else PartMatch(sides, r, s, done)
  {
    assert done == 2 * (done / 2) + done % 2;
  }

  lemma PartHasNoLateBye(sides: seq<Team>, r: nat, s: nat, done: nat)
    requires r > 1
    ensures !PartMatch(sides, r, s, done).side1.Bye? && !PartMatch(sides, r, s, done).side2.Bye?
  {
  }

  /** What resolving the bye of round-1 match `s` writes: its winner, and a seat of the fed match. */
  function Resolved(ms: map<Coord, Match>, k: nat, s: nat, winner: Team): map<Coord, Match>
    requires Coord(1, s) in ms && (Coord(2, s / 2) in ms) == (k > 1)
  {
    var out := ms[Coord(1, s) := ms[Coord(1, s)].(resolvedWinner := Some(winner))];
    if k <= 1 then out else out[Coord(2, s / 2) := ms[Coord(2, s / 2)].WithSide(s % 2 + 1, Real(winner))]
  }

  lemma AdvanceResolves(sides: seq<Team>, ms: map<Coord, Match>, s: nat)
    requires IsPart(sides, ms, s) && ValidCoord(RoundsFor(|sides|), 1, s)
    requires ByeWinner(sides, s).Some? && FeedsForward(ms, RoundsFor(|sides|))
    ensures (Coord(2, s / 2) in ms) == (RoundsFor(|sides|) > 1)
    ensures Advanced(ms, RoundsFor(|sides|), Coord(1, s), ByeWinner(sides, s).value)
      == Resolved(ms, RoundsFor(|sides|), s, ByeWinner(sides, s).value)
  {
    var k := RoundsFor(|sides|);
    forall c | c in ms && c.round > 1 ensures !ms[c].side1.Bye? && !ms[c].side2.Bye? {
      PartHasNoLateBye(sides, c.round, c.slot, s);
    }
    AdvanceNeverCascades(ms, k, Coord(1, s), ByeWinner(sides, s).value);
    if k > 1 {
      SlotUp(k, 1, s);
    }
  }

  lemma ResolvedAt(sides: seq<Team>, ms: map<Coord, Match>, s: nat, c: Coord)
    requires IsPart(sides, ms, s) && ValidCoord(RoundsFor(|sides|), 1, s) && c in ms
    requires ByeWinner(sides, s).Some? && (Coord(2, s / 2) in ms) == (RoundsFor(|sides|) > 1)
    ensures Resolved(ms, RoundsFor(|sides|), s, ByeWinner(sides, s).value)[c] == PartMatch(sides, c.round, c.slot, s + 1)
  {
    PartStep(sides, c.round, c.slot, s);
    assert ms[c] == PartMatch(sides, c.round, c.slot, s);
  }

  /** Resolving the bye of the next round-1 match is one step of the closed form. */
  lemma ResolveOne(sides: seq<Team>, ms: map<Coord, Match>, s: nat)
    requires IsPart(sides, ms, s) && ValidCoord(RoundsFor(|sides|), 1, s)
    requires ByeWinner(sides, s).Some? && FeedsForward(ms, RoundsFor(|sides|))
    ensures IsPart(sides, Advanced(ms, RoundsFor(|sides|), Coord(1, s), ByeWinner(sides, s).value), s + 1)
  {
    AdvanceResolves(sides, ms, s);
    var out := Resolved(ms, RoundsFor(|sides|), s, ByeWinner(sides, s).value);
    assert out.Keys == ms.Keys;
    forall c | c in out ensures out[c] == PartMatch(sides, c.round, c.slot, s + 1) {
      ResolvedAt(sides, ms, s, c);
    }
  }

  lemma SkipOne(sides: seq<Team>, ms: map<Coord, Match>, s: nat)
    requires IsPart(sides, ms, s) && ByeWinner(sides, s).None?
    ensures IsPart(sides, ms, s + 1)
  {
    forall c | c in ms ensures ms[c] == PartMatch(sides, c.round, c.slot, s + 1) {
      PartStep(sides, c.round, c.slot, s);
    }
  }

  function Blank(sides: seq<Team>, r: nat, s: nat): Match {
    if r == 1 then OpeningMatch(sides, s) else Match(Tbd, Tbd, 0, 0, 0, None)
  }

  /** Round 1, with its sides. */
  method CreateOpening(sides: seq<Team>, n: nat, ghost k: nat, order: seq<int>) returns (ms: map<Coord, Match>)
    requires k == RoundsFor(|sides|) && n == Pow2(k)
    requires |order| == n && forall i | 0 <= i < n :: order[i] == SeedOrder.SeedOn(k, i)
    ensures forall c :: c in ms <==> c.round == 1 && c.slot < n / 2
    ensures forall c | c in ms :: ms[c] == Blank(sides, c.round, c.slot)
  {
    ms := map[];
    for i := 0 to n / 2
      invariant forall c :: c in ms <==> c.round == 1 && c.slot < i
      invariant forall c | c in ms :: ms[c] == Blank(sides, c.round, c.slot)
    {
      SeedOrder.SeedInRange(k, 2 * i);
      SeedOrder.SeedInRange(k, 2 * i + 1);
      var m := Match(SideForSeed(sides, order[2 * i]), SideForSeed(sides, order[2 * i + 1]), 0, 0, 0, None);
      ms := ms[Coord(1, i) := m];
    }
  }

  /** Create the matches of every round, round 1 with its sides. */
  method CreateRounds(sides: seq<Team>, n: nat, totalRounds: nat, order: seq<int>) returns (ms: map<Coord, Match>)
    requires totalRounds == RoundsFor(|sides|) && n == Pow2(totalRounds)
    requires |order| == n && forall i | 0 <= i < n :: order[i] == SeedOrder.SeedOn(totalRounds, i)
    ensures forall c :: c in ms <==> ValidCoord(totalRounds, c.round, c.slot)
    ensures forall c | c in ms :: ms[c] == Blank(sides, c.round, c.slot)
  {
    ms := CreateOpening(sides, n, totalRounds, order);
    assert n / 2 == Pow2(totalRounds - 1);
    for r := 2 to totalRounds + 1
      invariant forall c :: c in ms <==> ValidCoord(totalRounds, c.round, c.slot) && c.round < r
      invariant forall c | c in ms :: ms[c] == Blank(sides, c.round, c.slot)
    {
      var cnt := n / Pow2(r);
      Pow2Quotient(totalRounds, r);
      for i := 0 to cnt
        invariant forall c :: c in ms <==>
                    ValidCoord(totalRounds, c.round, c.slot) && (c.round < r || (c.round == r && c.slot < i))
        invariant forall c | c in ms :: ms[c] == Blank(sides, c.round, c.slot)
      {
        ms := ms[Coord(r, i) := Match(Tbd, Tbd, 0, 0, 0, None)];
      }
    }
  }

  /** Point every match but the final at the seat its winner takes. */
  method LinkRounds(blank: map<Coord, Match>, n: nat, totalRounds: nat) returns (ms: map<Coord, Match>)
    requires totalRounds >= 1 && n == Pow2(totalRounds)
    requires forall c :: c in blank <==> ValidCoord(totalRounds, c.round, c.slot)
    ensures ms.Keys == blank.Keys
    ensures forall c | c in ms :: ms[c] == Linked(blank[c], totalRounds, c.round, c.slot)
  {
    ms := blank;
    for r := 1 to totalRounds
      invariant ms.Keys == blank.Keys
      invariant forall c | c in ms && c.round < r :: ms[c] == Linked(blank[c], totalRounds, c.round, c.slot)
      invariant forall c | c in ms && c.round >= r :: ms[c] == blank[c]
    {
      var cnt := n / Pow2(r);
      Pow2Quotient(totalRounds, r);
      for i := 0 to cnt
        invariant ms.Keys == blank.Keys
        invariant forall c | c in ms && (c.round < r || (c.round == r && c.slot < i)) ::
                    ms[c] == Linked(blank[c], totalRounds, c.round, c.slot)
        invariant forall c | c in ms && (c.round > r || (c.round == r && c.slot >= i)) :: ms[c] == blank[c]
      {
        var m := ms[Coord(r, i)];
        ms := ms[Coord(r, i) := m.(feedsRound := r + 1, feedsSlot := i / 2, feedsTeam := i % 2 + 1)];
      }
    }
  }

  lemma AllResolved(sides: seq<Team>, r: nat, s: nat)
    requires ValidCoord(RoundsFor(|sides|), r, s)
    ensures PartMatch(sides, r, s, Pow2(RoundsFor(|sides|)) / 2) == MatchAt(sides, r, s)
  {
    var k := RoundsFor(|sides|);
    if r >= 2 {
      Pow2Monotone(k - r, k - 2);
      assert Pow2(k) == 4 * Pow2(k - 2);
    }
  }

  method Generate(sides: seq<Team>) returns (plan: BracketPlan)
    ensures IsBracket(sides, plan)
  {
    ghost var k := RoundsFor(|sides|);
    var n := NextPow2(if |sides| < 2 then 2 else |sides|);
    var totalRounds := ILog2(n);
    ILog2OfPower(k, totalRounds);
    Pow2Monotone(k - 1, k);
    CeilLog2Unique(n, k);
    var order := SeedOrder.Generate(n);
    var blank := CreateRounds(sides, n, totalRounds, order);
    var linked := LinkRounds(blank, n, totalRounds);
    LinkedIsPart(sides, blank, linked);
    var ms := ResolveByes(sides, linked, n);
    plan := BracketPlan(n, totalRounds, ms);
    AllIsBracket(sides, plan);
  }

  lemma LinkedIsPart(sides: seq<Team>, blank: map<Coord, Match>, linked: map<Coord, Match>)
    requires forall c :: c in blank <==> ValidCoord(RoundsFor(|sides|), c.round, c.slot)
    requires forall c | c in blank :: blank[c] == Blank(sides, c.round, c.slot)
    requires linked.Keys == blank.Keys
    requires forall c | c in linked :: linked[c] == Linked(blank[c], RoundsFor(|sides|), c.round, c.slot)
    ensures IsPart(sides, linked, 0)
  {
    forall c | c in linked ensures linked[c] == PartMatch(sides, c.round, c.slot, 0) {
      assert linked[c] == Linked(Blank(sides, c.round, c.slot), RoundsFor(|sides|), c.round, c.slot);
    }
  }

  /** Resolve the byes of round 1, one match after the other. */
  method ResolveByes(ghost sides: seq<Team>, linked: map<Coord, Match>, n: nat) returns (ms: map<Coord, Match>)
    requires n == Pow2(RoundsFor(|sides|)) && IsPart(sides, linked, 0)
    ensures IsPart(sides, ms, n / 2)
  {
    ms := linked;
    for i := 0 to n / 2
      invariant IsPart(sides, ms, i)
    {
      ms := ResolveBye(sides, ms, i);
    }
  }

  method ResolveBye(ghost sides: seq<Team>, ms0: map<Coord, Match>, i: nat) returns (ms: map<Coord, Match>)
    requires IsPart(sides, ms0, i) && ValidCoord(RoundsFor(|sides|), 1, i)
    ensures IsPart(sides, ms, i + 1)
  {
    ms := ms0;
    ghost var k := RoundsFor(|sides|);
    assert Coord(1, i) in ms;
    var m := ms[Coord(1, i)];
    OpeningByes(sides, ms, i);
    if m.LetThrough().Some? {
      PartFeedsForward(sides, ms, i);
      ResolveOne(sides, ms, i);
    } else {
      SkipOne(sides, ms, i);
    }
    if m.side1.Bye? && m.side2.Real? {
      ms := Advance(ms, k, Coord(1, i), m.side2.team);
    } else if m.side2.Bye? && m.side1.Real? {
      ms := Advance(ms, k, Coord(1, i), m.side1.team);
    }
  }

  lemma OpeningByes(sides: seq<Team>, ms: map<Coord, Match>, i: nat)
    requires IsPart(sides, ms, i) && Coord(1, i) in ms
    ensures ms[Coord(1, i)].LetThrough() == ByeWinner(sides, i)
  {
  }

  lemma AllIsBracket(sides: seq<Team>, plan: BracketPlan)
    requires plan.size == Pow2(RoundsFor(|sides|)) && plan.rounds == RoundsFor(|sides|)
    requires IsPart(sides, plan.matches, plan.size / 2)
    ensures IsBracket(sides, plan)
  {
    forall c | c in plan.matches ensures plan.matches[c] == MatchAt(sides, c.round, c.slot) {
      AllResolved(sides, c.round, c.slot);
    }
  }

  // --- byes ---------------------------------------------------------------------------

  /** With two entrants or more, the first side of every round-1 match is a real team, and
      the second is a bye exactly when the first is one of the top 2^k - p seeds: no match
      has two byes. */
  lemma OpeningSides(sides: seq<Team>, s: nat)
    requires |sides| >= 2 && s < Pow2(RoundsFor(|sides|) - 1)
    ensures var k := RoundsFor(|sides|);
            var seed := SeedOrder.SeedOn(k - 1, s);
            && 1 <= seed <= |sides|
            && SideOnLine(sides, 2 * s) == Real(sides[seed - 1])
            && (SideOnLine(sides, 2 * s + 1).Bye? <==> seed <= Pow2(k) - |sides|)
            && (SideOnLine(sides, 2 * s + 1).Bye? || SideOnLine(sides, 2 * s + 1).Real?)
            && (ByeWinner(sides, s).Some? <==> seed <= Pow2(k) - |sides|)
            && (ByeWinner(sides, s).Some? ==> ByeWinner(sides, s) == Some(sides[seed - 1]))
  {
    SeedOrder.Pairing(RoundsFor(|sides|), s);
  }

  /** A line without a bye holds the team of its seed. */
  lemma RealLine(sides: seq<Team>, line: nat)
    requires !SideOnLine(sides, line).Bye?
    ensures var seed := SeedOrder.SeedOn(RoundsFor(|sides|), line);
            1 <= seed <= |sides| && SideOnLine(sides, line) == Real(sides[seed - 1])
  {
    SeedOrder.SeedInRange(RoundsFor(|sides|), line);
  }

  /** Byes fall exactly to the top seeds: seed `x` sits in a round-1 match resolved without
      play if and only if x <= 2^k - p. */
  lemma ByesGoToTopSeeds(sides: seq<Team>, x: nat)
    requires |sides| >= 2 && 1 <= x <= |sides|
    ensures var k := RoundsFor(|sides|);
            var line := SeedOrder.LineOf(k, x);
            && line < Pow2(k) && SideOnLine(sides, line) == Real(sides[x - 1])
            && (ByeWinner(sides, line / 2).Some? <==> x <= Pow2(k) - |sides|)
  {
    var k := RoundsFor(|sides|);
    SeedOrder.OrderIsPermutation(k, x);
    var line := SeedOrder.LineOf(k, x);
    SeedOrder.Pairing(k, line / 2);
    OpeningSides(sides, line / 2);
    assert line == 2 * (line / 2) + line % 2;
    assert Pow2(k) == 2 * Pow2(k - 1);
  }
}
