/** What the seeding is for: who meets whom in a bracket that goes to form. */
module Favourites {
  import opened Draws
  import opened Powers
  import opened Play
  import opened Knockout
  import Bracket
  import SeedOrder
  import SingleElimination

  /** `p` is seeded better than `q`. */
  ghost predicate Better(sides: seq<Team>, p: Team, q: Team) {
    exists i, j :: 0 <= i < j < |sides| && sides[i] == p && sides[j] == q
  }

  /** The better seed wins every call. */
  ghost predicate ToForm(sides: seq<Team>, plan: Plan, st: State, calls: seq<Call>)
    requires Legal(plan, st, calls)
    decreases calls
  {
    calls == []
    || (var after := PlayGame(plan, st, calls[0]);
        Better(sides, after.log[|st.log|].winner, after.log[|st.log|].loser) && ToForm(sides, plan, after, calls[1..]))
  }

  /** The seed expected in a seat: the best of the lines that come together there. */
  function Expected(sides: seq<Team>, e: Entry): int
    requires 1 <= e.node.round <= Rounds(sides) && (e.team == 1 || e.team == 2)
  {
    SeedOrder.SeedOn(Rounds(sides) - (e.node.round - 1), 2 * e.node.slot + e.team - 1)
  }

  /** Seat `e` belongs to the bracket, and `p`, sitting there, is the seed expected. */
  ghost predicate AsExpected(sides: seq<Team>, e: Entry, p: Team) {
    && e.node.group == Winners && 1 <= e.node.round <= Rounds(sides) && (e.team == 1 || e.team == 2)
    && 1 <= Expected(sides, e) <= |sides| && p == sides[Expected(sides, e) - 1]
  }

  ghost predicate AllAsExpected(sides: seq<Team>, st: State) {
    forall e | e in st.seats :: AsExpected(sides, e, st.seats[e])
  }

  lemma ExpectedLine(sides: seq<Team>, e: Entry)
    requires (e.node.round == 1 || (e.node.round == 2 && Rounds(sides) >= 2)) && (e.team == 1 || e.team == 2)
    ensures SeedOrder.SeedOn(Rounds(sides), SeedLine(e)) == Expected(sides, e)
  {
    if e.node.round == 2 {
      SeedOrder.Pairing(Rounds(sides), 2 * e.node.slot + e.team - 1);
    }
  }

  lemma SeedIsExpected(sides: seq<Team>, e: Entry)
    requires |sides| >= 2 && Alive(sides, e.node.round, e.node.slot) && (e.team == 1 || e.team == 2)
    requires SeedFrom(Bracket.InitialSide(sides, e.node.round, e.node.slot, e.team)).Some?
    ensures 1 <= Expected(sides, e) <= |sides|
    ensures SeedFrom(Bracket.InitialSide(sides, e.node.round, e.node.slot, e.team)).value == sides[Expected(sides, e) - 1]
  {
    SeededSeat(sides, e);
    ExpectedLine(sides, e);
  }

  lemma SeedAsExpected(sides: seq<Team>, plan: Plan, e: Entry)
    requires |sides| >= 2 && SingleElimination.IsDraw(plan, sides) && IsSeeded(plan, e)
    ensures AsExpected(sides, e, SeedAt(plan, e))
  {
    SeedOfNode(plan, sides, Winners, NoFeed, e.node, e.team);
    SeedIsExpected(sides, e);
  }

  /** The two seeds expected in a match: the one expected to win it, and its mirror. */
  lemma ExpectedPair(sides: seq<Team>, id: MatchId)
    requires 1 <= id.round <= Rounds(sides)
    ensures var (a, b) := (Expected(sides, Entry(id, 1)), Expected(sides, Entry(id, 2)));
            && a == SeedOrder.SeedOn(Rounds(sides) - id.round, id.slot)
            && a + b == Pow2(Rounds(sides) - id.round + 1) + 1 && 1 <= a < b
  {
    SeedOrder.Pairing(Rounds(sides) - id.round + 1, id.slot);
  }

  lemma NotBetter(sides: seq<Team>, a: nat, b: nat)
    requires DistinctTeams(sides) && a < b < |sides|
    ensures !Better(sides, sides[b], sides[a])
  {
  }

  /** With the seeds expected, the better one is on side 1. */
  lemma FirstIsBetter(sides: seq<Team>, id: MatchId, x: Team, y: Team)
    requires DistinctTeams(sides) && AsExpected(sides, Entry(id, 1), x) && AsExpected(sides, Entry(id, 2), y)
    ensures !Better(sides, y, x)
  {
    ExpectedPair(sides, id);
    NotBetter(sides, Expected(sides, Entry(id, 1)) - 1, Expected(sides, Entry(id, 2)) - 1);
  }

  lemma NextExpected(sides: seq<Team>, id: MatchId, x: Team)
    requires AsExpected(sides, Entry(id, 1), x) && id.round < Rounds(sides)
    ensures AsExpected(sides, Entry(MatchId(Winners, id.round + 1, id.slot / 2), id.slot % 2 + 1), x)
  {
    ExpectedPair(sides, id);
    assert 2 * (id.slot / 2) + (id.slot % 2 + 1) - 1 == id.slot;
  }

  /** A match with the seeds expected, won by the better one, sends on the seed expected next. */
  lemma WinnerAsExpected(sides: seq<Team>, plan: Plan, st: State, c: Call)
    requires |sides| >= 2 && DistinctTeams(sides) && SingleElimination.IsDraw(plan, sides)
    requires AllAsExpected(sides, st) && Ready(plan, st, c.node)
    requires var g := PlayGame(plan, st, c).log[|st.log|]; Better(sides, g.winner, g.loser)
    ensures AllAsExpected(sides, PlayGame(plan, st, c))
  {
    var id := c.node;
    var x, y := st.seats[Entry(id, 1)], st.seats[Entry(id, 2)];
    FirstIsBetter(sides, id, x, y);
    assert c.firstWins;
    assert BracketMatch(plan, sides, NoFeed, id);
    assert plan[id].win == WinFeed(Rounds(sides), Winners, id.round, id.slot, NoFeed) && plan[id].lose == NoFeed;
    if id.round < Rounds(sides) {
      NextExpected(sides, id, x);
    }
  }

  lemma {:induction false} RunAsExpected(sides: seq<Team>, plan: Plan, st: State, calls: seq<Call>)
    requires |sides| >= 2 && DistinctTeams(sides) && SingleElimination.IsDraw(plan, sides)
    requires AllAsExpected(sides, st) && Legal(plan, st, calls) && ToForm(sides, plan, st, calls)
    ensures AllAsExpected(sides, PlayAll(plan, st, calls))
    decreases calls
  {
    if calls != [] {
      WinnerAsExpected(sides, plan, st, calls[0]);
      RunAsExpected(sides, plan, PlayGame(plan, st, calls[0]), calls[1..]);
    }
  }

  /** Seeds `a` and `b`, the better one first. */
  predicate AreSeeds(sides: seq<Team>, x: Team, y: Team, a: int, b: int) {
    1 <= a < b <= |sides| && x == sides[a - 1] && y == sides[b - 1]
  }

  /** The two teams of match `id` are seeds that mirror each other in its round. */
  ghost predicate MeetMirrored(sides: seq<Team>, st: State, id: MatchId)
    requires Entry(id, 1) in st.seats && Entry(id, 2) in st.seats
  {
    && 1 <= id.round <= Rounds(sides)
    && exists a, b :: AreSeeds(sides, st.seats[Entry(id, 1)], st.seats[Entry(id, 2)], a, b)
                      && a + b == Pow2(Rounds(sides) - id.round + 1) + 1
  }

  lemma ExpectedMeetMirrored(sides: seq<Team>, st: State, id: MatchId)
    requires AllAsExpected(sides, st) && Entry(id, 1) in st.seats && Entry(id, 2) in st.seats
    ensures MeetMirrored(sides, st, id)
  {
    assert AsExpected(sides, Entry(id, 1), st.seats[Entry(id, 1)]);
    assert AsExpected(sides, Entry(id, 2), st.seats[Entry(id, 2)]);
    ExpectedPair(sides, id);
    assert AreSeeds(sides, st.seats[Entry(id, 1)], st.seats[Entry(id, 2)],
                    Expected(sides, Entry(id, 1)), Expected(sides, Entry(id, 2)));
  }

  /** When the better seed wins every call, the two seeds that meet in round r of a generated
      bracket of k rounds add up to 2^(k-r+1) + 1, byes or not, and the better one is on side 1. */
  lemma FavouritesMeetMirrored(sides: seq<Team>, bracket: Bracket.BracketPlan, calls: seq<Call>, id: MatchId)
    requires |sides| >= 2 && DistinctTeams(sides) && Bracket.IsBracket(sides, bracket)
    requires Legal(SingleElimination.DrawOf(bracket), Start(SingleElimination.DrawOf(bracket)), calls)
    requires ToForm(sides, SingleElimination.DrawOf(bracket), Start(SingleElimination.DrawOf(bracket)), calls)
    ensures var st := PlayAll(SingleElimination.DrawOf(bracket), Start(SingleElimination.DrawOf(bracket)), calls);
            Entry(id, 1) in st.seats && Entry(id, 2) in st.seats ==> MeetMirrored(sides, st, id)
  {
    var plan := SingleElimination.DrawOf(bracket);
    var st := PlayAll(plan, Start(plan), calls);
    SingleElimination.DrawOfIsDraw(sides, bracket);
    StartAsExpected(sides, plan);
    RunAsExpected(sides, plan, Start(plan), calls);
    if Entry(id, 1) in st.seats && Entry(id, 2) in st.seats {
      ExpectedMeetMirrored(sides, st, id);
    }
  }

  lemma StartAsExpected(sides: seq<Team>, plan: Plan)
    requires |sides| >= 2 && SingleElimination.IsDraw(plan, sides)
    ensures AllAsExpected(sides, Start(plan))
  {
    forall e | e in Start(plan).seats ensures AsExpected(sides, e, Start(plan).seats[e]) {
      SeedAsExpected(sides, plan, e);
    }
  }
}
