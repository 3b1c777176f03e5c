/** The closed form of a compass draw: which directions form, who drops where. */
module CompassDraw {
  import opened Draws
  import opened Powers
  import opened Knockout
  import opened Collapse
  import ConsolationTree
  import Bracket

  /** The direction the losers of an East round go to. */
  function CompassGroup(eastRound: nat): Group {
    if eastRound == 1 then West
    else if eastRound == 2 then North
    else if eastRound == 3 then Northeast
    else EastRound(eastRound)
  }

  predicate IsDirection(g: Group) {
    g in {West, North, Northeast, South, Southwest, Northwest, Southeast} || (g.EastRound? && g.n >= 4)
  }

  /** The bracket and the round whose losers a direction takes in. */
  function ParentOf(g: Group): (p: (Group, nat))
    requires IsDirection(g)
    ensures Stage(p.0) < Stage(g) && p.1 >= 1 && (p.0 == East || IsDirection(p.0))
  {
    match g
    case West => (East, 1)
    case North => (East, 2)
    case Northeast => (East, 3)
    case EastRound(n) => (East, n)
    case South => (West, 1)
    case Southwest => (West, 2)
    case Northwest => (North, 1)
    case Southeast => (South, 1)
  }

  /** The direction the losers of round `r` of bracket `g` go to, if there is one. */
  function ChildOf(g: Group, r: nat): Option<Group> {
    if g == East && r >= 1 then Some(CompassGroup(r))
    else if g == West && r == 1 then Some(South)
    else if g == West && r == 2 then Some(Southwest)
    else if g == North && r == 1 then Some(Northwest)
    else if g == South && r == 1 then Some(Southeast)
    else None
  }

  lemma ChildHasParent(g: Group, r: nat)
    requires r >= 1
    ensures ChildOf(g, r).Some? ==> IsDirection(ChildOf(g, r).value) && ParentOf(ChildOf(g, r).value) == (g, r)
    ensures forall d | IsDirection(d) && ParentOf(d) == (g, r) :: ChildOf(g, r) == Some(d)
  {
  }

  // --- which directions form ----------------------------------------------------------------

  /** Rounds of a bracket before any collapse. */
  function Depth(sides: seq<Team>, g: Group): nat
    requires g == East || IsDirection(g)
    decreases Stage(g), 2
  {
    if g == East then Rounds(sides)
    else if TreeOf(sides, g).Some? then TreeOf(sides, g).value.depth
    else 0
  }

  /** Match (r, j) of bracket `g`, in coordinates before renumbering, is really played. */
  predicate MatchIn(sides: seq<Team>, g: Group, r: nat, j: nat)
    requires g == East || IsDirection(g)
    decreases Stage(g), 2
  {
    if g == East then Alive(sides, r, j)
    else TreeOf(sides, g).Some? && Emitted(TreeOf(sides, g).value, r, j)
  }

  /** A direction that formed is its tree. */
  lemma DirectionTree(sides: seq<Team>, g: Group, r: nat, j: nat)
    requires IsDirection(g) && TreeOf(sides, g).Some?
    ensures Depth(sides, g) == TreeOf(sides, g).value.depth
    ensures MatchIn(sides, g, r, j) <==> Emitted(TreeOf(sides, g).value, r, j)
  {
  }

  /** The losers of round `r` of bracket `p`: one position for each match, real or not. */
  function LosersOf(sides: seq<Team>, p: Group, r: nat): (alive: seq<bool>)
    requires (p == East || IsDirection(p)) && r < Depth(sides, p)
    ensures |alive| == Pow2(Depth(sides, p) - r)
    decreases Stage(p), 3
  {
    seq(Pow2(Depth(sides, p) - r), j requires 0 <= j => MatchIn(sides, p, r, j))
  }

  lemma LoserAt(sides: seq<Team>, p: Group, r: nat, s: nat)
    requires (p == East || IsDirection(p)) && r < Depth(sides, p) && s < |LosersOf(sides, p, r)|
    ensures LosersOf(sides, p, r)[s] <==> MatchIn(sides, p, r, s)
  {
  }

  /** Who drops into direction `g`. */
  function Dropping(sides: seq<Team>, g: Group): (alive: seq<bool>)
    requires IsDirection(g) && ParentOf(g).1 < Depth(sides, ParentOf(g).0)
    ensures |alive| == Pow2(Depth(sides, ParentOf(g).0) - ParentOf(g).1)
    decreases Stage(g), 0
  {
    LosersOf(sides, ParentOf(g).0, ParentOf(g).1)
  }

  lemma DroppingAt(sides: seq<Team>, g: Group, s: nat)
    requires IsDirection(g) && ParentOf(g).1 < Depth(sides, ParentOf(g).0) && s < |Dropping(sides, g)|
    ensures Dropping(sides, g)[s] <==> MatchIn(sides, ParentOf(g).0, ParentOf(g).1, s)
  {
    LoserAt(sides, ParentOf(g).0, ParentOf(g).1, s);
  }

  /** The tree of direction `g`: none unless its round comes before the parent's final and has
      two real losers or more. */
  function TreeOf(sides: seq<Team>, g: Group): (sh: Option<Shape>)
    requires IsDirection(g)
    ensures sh.Some? ==> sh.value.Valid() && sh.value.Lane?
    decreases Stage(g), 1
  {
    var (p, r) := ParentOf(g);
    if r >= Depth(sides, p) then None
    else if ConsolationTree.Droppers(Dropping(sides, g)) < 2 then None
    else Some(Lane(Depth(sides, p) - r, Dropping(sides, g)))
  }

  // --- names and feeds ------------------------------------------------------------------------

  /** The name of match (r, j) of bracket `g` in the plan, at its renumbered round. */
  function IdOf(sides: seq<Team>, g: Group, r: nat, j: nat): MatchId
    requires g == East || (IsDirection(g) && TreeOf(sides, g).Some?)
  {
    if g == East then MatchId(East, r, j)
    else ConsolationTree.NameIn(g, TreeOf(sides, g).value, r, j)
  }

  /** A landing in direction `g` as a feed. */
  function LandingFeed(sides: seq<Team>, g: Group, l: Landing): Feed
    requires IsDirection(g) && TreeOf(sides, g).Some?
  {
    ConsolationTree.LandingIn(g, TreeOf(sides, g).value, l)
  }

  /** Where the loser of match (r, j) of `g` goes, once the directions in `done` have been built. */
  function LoseFeed(sides: seq<Team>, g: Group, r: nat, j: nat, done: set<Group>): Feed
    requires g == East || IsDirection(g)
  {
    if r >= 1 && MatchIn(sides, g, r, j) && ChildOf(g, r).Some? then
      ChildHasParent(g, r);
      DropFeed(sides, ChildOf(g, r).value, j, done)
    else NoFeed
  }

  function DropFeed(sides: seq<Team>, child: Group, j: nat, done: set<Group>): Feed
    requires IsDirection(child)
  {
    if child in done && TreeOf(sides, child).Some? && Producer(TreeOf(sides, child).value, Loser(Source(1, j))) then
      LandingFeed(sides, child, FeedFor(TreeOf(sides, child).value, Loser(Source(1, j))))
    else NoFeed
  }

  function EastSpec(sides: seq<Team>, r: nat, s: nat, done: set<Group>): Spec {
    Tagged(Bracket.MatchAt(sides, r, s), East, NoFeed).(lose := LoseFeed(sides, East, r, s, done))
  }

  function DirectionSpec(sides: seq<Team>, g: Group, r: nat, j: nat, done: set<Group>): Spec
    requires IsDirection(g) && TreeOf(sides, g).Some? && Emitted(TreeOf(sides, g).value, r, j)
  {
    Spec(Bracket.Tbd, Bracket.Tbd, None,
         LandingFeed(sides, g, FeedFor(TreeOf(sides, g).value, Winner(r, j))),
         LoseFeed(sides, g, r, j, done))
  }

  /** Renumbering gives every match of a direction its own name. */
  lemma IdOfInjective(sides: seq<Team>, g: Group, r: nat, j: nat, r': nat, j': nat)
    requires g == East || IsDirection(g)
    requires MatchIn(sides, g, r, j) && MatchIn(sides, g, r', j') && IdOf(sides, g, r, j) == IdOf(sides, g, r', j')
    ensures r == r' && j == j'
  {
    if g != East {
      ConsolationTree.NameInjective(g, TreeOf(sides, g).value, r, j, r', j');
    }
  }

  /** The plan once the directions in `done` have been built. */
  ghost predicate IsSoFar(sides: seq<Team>, ms: map<MatchId, Spec>, done: set<Group>) {
    && (forall id {:trigger id in ms} | id in ms :: HasPlace(sides, id, done))
    && (forall r: nat, s: nat {:trigger EastIn(sides, ms, r, s, done)} | Bracket.ValidCoord(Rounds(sides), r, s) ::
          EastIn(sides, ms, r, s, done))
    && (forall g, r: nat, j: nat {:trigger DirectionIn(sides, ms, g, r, j, done)}
          | g in done && IsDirection(g) && TreeOf(sides, g).Some? && MatchIn(sides, g, r, j) ::
          DirectionIn(sides, ms, g, r, j, done))
  }

  ghost predicate EastIn(sides: seq<Team>, ms: map<MatchId, Spec>, r: nat, s: nat, done: set<Group>) {
    MatchId(East, r, s) in ms && ms[MatchId(East, r, s)] == EastSpec(sides, r, s, done)
  }

  ghost predicate DirectionIn(sides: seq<Team>, ms: map<MatchId, Spec>, g: Group, r: nat, j: nat, done: set<Group>)
    requires IsDirection(g) && TreeOf(sides, g).Some? && MatchIn(sides, g, r, j)
  {
    IdOf(sides, g, r, j) in ms && ms[IdOf(sides, g, r, j)] == DirectionSpec(sides, g, r, j, done)
  }

  /** Every match of the plan is an East match or a played match of a direction already built. */
  ghost predicate HasPlace(sides: seq<Team>, id: MatchId, done: set<Group>) {
    if id.group == East then Bracket.ValidCoord(Rounds(sides), id.round, id.slot)
    else
      && id.group in done && IsDirection(id.group) && TreeOf(sides, id.group).Some?
      && exists r: nat :: MatchIn(sides, id.group, r, id.slot) && IdOf(sides, id.group, r, id.slot) == id
  }
}
