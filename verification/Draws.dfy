/** A place in a tree of matches. */
module Coordinates {
  datatype Coord = Coord(round: nat, slot: nat)
}

/** The vocabulary every elimination plan shares. */
module Draws {

  datatype Option<+T> = None | Some(value: T)

  /** One side of a match: the ids of the players on it. */
  datatype Team = Team(ids: seq<string>)

  /** A field in which nobody is entered twice. */
  ghost predicate DistinctTeams(sides: seq<Team>) {
    forall i, j | 0 <= i < j < |sides| :: sides[i] != sides[j]
  }

  /** A bracket's tag: the tier of a double elimination, or a compass direction. */
  datatype Group =
    | Winners | Losers | GrandFinal
    | East | West | North | Northeast | EastRound(n: nat)
    | South | Southwest | Northwest | Southeast
    | Consolation

  datatype MatchId = MatchId(group: Group, round: nat, slot: nat)

  /** The seat of a match a team is delivered to; `team` is 1 or 2. */
  datatype Entry = Entry(node: MatchId, team: nat)

  datatype Feed = NoFeed | To(entry: Entry)

  /** A match to be played: who is seeded into it, and where its two teams go next. */
  datatype Node = Node(seed1: Option<Team>, seed2: Option<Team>, win: Feed, lose: Feed)
  {
    function Seed(team: nat): Option<Team> {
      if team == 1 then seed1 else seed2
    }
  }

  type Plan = map<MatchId, Node>

  /** One of the two results of a match: its winner going on, or its loser. */
  datatype Result = Result(node: MatchId, won: bool)

  function FeedOf(plan: Plan, r: Result): Feed
    requires r.node in plan
  {
    if r.won then plan[r.node].win else plan[r.node].lose
  }

  predicate IsEntry(plan: Plan, e: Entry) {
    e.node in plan && (e.team == 1 || e.team == 2)
  }

  predicate IsSeeded(plan: Plan, e: Entry) {
    IsEntry(plan, e) && plan[e.node].Seed(e.team).Some?
  }

  /** How far a bracket is from the primary one: losers only ever move to a later stage. */
  function Stage(g: Group): nat {
    match g
    case Winners => 0
    case East => 0
    case Losers => 1
    case West => 1
    case North => 1
    case Northeast => 1
    case EastRound(_) => 1
    case Consolation => 1
    case GrandFinal => 2
    case South => 2
    case Southwest => 2
    case Northwest => 2
    case Southeast => 3
  }

  /** `a` is played before `b` can be: an earlier stage, or an earlier round of the same bracket. */
  predicate Earlier(a: MatchId, b: MatchId) {
    Stage(a.group) < Stage(b.group) || (a.group == b.group && a.round < b.round)
  }

  /** `source` tells, for every seat that is not seeded, the one result that fills it:
      every feed hits a seat of a match in the plan, no two results share a seat, no seat
      is left without a producer, and nothing feeds backwards. */
  ghost predicate FedBy(plan: Plan, source: map<Entry, Result>) {
    && (forall e | e in source ::
          && IsEntry(plan, e) && !IsSeeded(plan, e)
          && source[e].node in plan && FeedOf(plan, source[e]) == To(e)
          && Earlier(source[e].node, e.node))
    && (forall e | IsEntry(plan, e) && !IsSeeded(plan, e) :: e in source)
    && (forall r: Result | r.node in plan && FeedOf(plan, r).To? ::
          FeedOf(plan, r).entry in source && source[FeedOf(plan, r).entry] == r)
  }

  /** No team is seeded into two seats. */
  ghost predicate DistinctSeeds(plan: Plan) {
    forall e, f | IsSeeded(plan, e) && IsSeeded(plan, f)
                  && plan[e.node].Seed(e.team) == plan[f.node].Seed(f.team) :: e == f
  }

  /** A match no other match is earlier than, in any nonempty set of matches. */
  lemma {:induction false} FirstMatch(ids: set<MatchId>) returns (first: MatchId)
    requires ids != {}
    ensures first in ids
    ensures forall id | id in ids :: !Earlier(id, first)
    decreases |ids|
  {
    var id :| id in ids;
    var rest := ids - {id};
    if rest == {} {
      first := id;
      assert ids == {id};
    } else {
      var other := FirstMatch(rest);
      first := if Earlier(id, other) then id else other;
      forall x | x in ids ensures !Earlier(x, first) {
        if x in rest {
          assert !Earlier(x, other);
        }
      }
    }
  }

  /** A match that is earlier than no other match, in any nonempty set of matches. */
  lemma {:induction false} LastMatch(ids: set<MatchId>) returns (last: MatchId)
    requires ids != {}
    ensures last in ids
    ensures forall id | id in ids :: !Earlier(last, id)
    decreases |ids|
  {
    var id :| id in ids;
    var rest := ids - {id};
    if rest == {} {
      last := id;
      assert ids == {id};
    } else {
      var other := LastMatch(rest);
      last := if Earlier(other, id) then id else other;
      forall x | x in ids ensures !Earlier(last, x) {
        if x in rest {
          assert !Earlier(other, x);
        }
      }
    }
  }
}
