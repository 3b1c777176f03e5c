/** A single-elimination event with its consolation back-draw (service.go's persistBracket joins
    the two): who really gets the second match the back-draw is for. */
module BackDraw {
  import opened Coordinates
  import opened Draws
  import opened Powers
  import opened Play
  import opened Knockout
  import opened Collapse
  import opened ConsolationTree
  import Bracket
  import Compass
  import SingleElimination

  // --- the closed form ------------------------------------------------------------------------

  /** The lane of first-round losers: a position for each first-round match, empty for a bye. */
  function LoserLane(sides: seq<Team>): (sh: Shape)
    requires Rounds(sides) >= 2
    ensures sh.Valid() && sh.Lane?
  {
    var depth := Rounds(sides) - 1;
    Lane(depth, seq(Pow2(depth), s requires 0 <= s => Alive(sides, 1, s)))
  }

  function TreeWin(sh: Shape, r: nat, j: nat): Feed
    requires sh.Valid() && sh.Lane? && Emitted(sh, r, j)
  {
    LandingIn(Consolation, sh, FeedFor(sh, Winner(r, j)))
  }

  /** Where the loser of main match (r, s) goes: out, unless it is a first-round match whose loser
      enters the back-draw. */
  function LoserGoes(sides: seq<Team>, r: nat, s: nat): Feed {
    if r == 1 && Rounds(sides) >= 2 && Alive(sides, 1, s) then
      LoserDrops(sides, s);
      LandingIn(Consolation, LoserLane(sides), FeedFor(LoserLane(sides), Loser(Source(1, s))))
    else NoFeed
  }

  lemma LoserDrops(sides: seq<Team>, s: nat)
    requires Rounds(sides) >= 2
    ensures Producer(LoserLane(sides), Loser(Source(1, s))) <==> Alive(sides, 1, s)
  {
    LoserIsDropper(LoserLane(sides), s);
  }

  function MainSpec(sides: seq<Team>, r: nat, s: nat): Spec {
    Tagged(Bracket.MatchAt(sides, r, s), Winners, NoFeed).(lose := LoserGoes(sides, r, s))
  }

  ghost predicate Named(sh: Shape, id: MatchId)
    requires sh.Valid() && sh.Lane?
  {
    exists r: nat :: Emitted(sh, r, id.slot) && NameIn(Consolation, sh, r, id.slot) == id
  }

  ghost predicate HasPlace(sides: seq<Team>, id: MatchId) {
    if id.group == Winners then Bracket.ValidCoord(Rounds(sides), id.round, id.slot)
    else id.group == Consolation && Rounds(sides) >= 2 && Named(LoserLane(sides), id)
  }

  /** The matches persisted for the event, in closed form. */
  ghost predicate IsBackDraw(sides: seq<Team>, ms: map<MatchId, Spec>) {
    && (forall id | id in ms :: HasPlace(sides, id))
    && (forall r: nat, s: nat | Bracket.ValidCoord(Rounds(sides), r, s) ::
          MatchId(Winners, r, s) in ms && ms[MatchId(Winners, r, s)] == MainSpec(sides, r, s))
    && (Rounds(sides) >= 2 ==> forall r: nat, j: nat {:trigger TreeMatchIn(LoserLane(sides), ms, r, j)} ::
          TreeMatchIn(LoserLane(sides), ms, r, j))
  }

  ghost predicate TreeMatchIn(sh: Shape, ms: map<MatchId, Spec>, r: nat, j: nat)
    requires sh.Valid() && sh.Lane?
  {
    Emitted(sh, r, j) ==>
      NameIn(Consolation, sh, r, j) in ms
      && ms[NameIn(Consolation, sh, r, j)] == Spec(Bracket.Tbd, Bracket.Tbd, None, TreeWin(sh, r, j), NoFeed)
  }

  // --- how it is built --------------------------------------------------------------------------

  /** Which first-round matches were byes. */
  method ByeSlots(ghost sides: seq<Team>, bracket: Bracket.BracketPlan) returns (isBye: seq<bool>)
    requires Bracket.IsBracket(sides, bracket)
    ensures |isBye| == bracket.size / 2
    ensures forall s | 0 <= s < |isBye| :: isBye[s] <==> !Alive(sides, 1, s)
  {
    isBye := [];
    ghost var k := Rounds(sides);
    assert bracket.size / 2 == Pow2(k - 1);
    for s := 0 to bracket.size / 2
      invariant |isBye| == s
      invariant forall x | 0 <= x < s :: isBye[x] <==> !Alive(sides, 1, x)
    {
      assert Bracket.ValidCoord(k, Coord(1, s).round, Coord(1, s).slot);
      isBye := isBye + [bracket.matches[Coord(1, s)].resolvedWinner.Some?];
    }
  }

  /** The main matches whose losers the back-draw may take in. */
  method OpeningIds(size: nat) returns (parents: seq<Option<MatchId>>)
    ensures |parents| == size / 2
    ensures forall s | 0 <= s < |parents| :: parents[s] == Some(MatchId(Winners, 1, s))
  {
    parents := [];
    for s := 0 to size / 2
      invariant |parents| == s && forall x | 0 <= x < s :: parents[x] == Some(MatchId(Winners, 1, x))
    {
      parents := parents + [Some(MatchId(Winners, 1, s))];
    }
  }

  /** The bracket, then the matches of its back-draw, then the loser feeds into them. */
  method Persist(sides: seq<Team>) returns (ms: map<MatchId, Spec>)
    ensures IsBackDraw(sides, ms)
  {
    var bracket := Bracket.Generate(sides);
    var main := SingleElimination.Tag(bracket, Winners, NoFeed);
    SingleElimination.SpecsAreSpecs(sides, bracket, Winners, NoFeed);
    var isBye := ByeSlots(sides, bracket);
    var tree := GenerateConsolation(bracket.size, isBye, Rounds(sides));
    var parents := OpeningIds(bracket.size);
    if bracket.size < 4 {
      ms := main;
      NoBackDraw(sides, ms);
      return;
    }
    LaneIsLosers(sides, isBye);
    NamesAreDistinct(LoserLane(sides), tree);
    DropsHaveParents(sides, tree, main, parents);
    var withTree, _ := Compass.AddMatches(main, Consolation, tree.matches);
    ms := Compass.WireDrops(withTree, Consolation, tree.drops, parents);
    IsPersisted(sides, tree, parents, main, withTree, ms);
  }

  lemma NoBackDraw(sides: seq<Team>, ms: map<MatchId, Spec>)
    requires SingleElimination.AreSpecs(sides, Winners, NoFeed, ms) && Pow2(Rounds(sides)) < 4
    ensures IsBackDraw(sides, ms)
  {
    OneRound(Rounds(sides));
  }

  lemma OneRound(k: nat)
    requires k >= 1 && Pow2(k) < 4
    ensures k == 1
  {
    assert Pow2(2) == 2 * Pow2(1) == 4;
    if k >= 2 {
      Pow2Monotone(2, k);
    }
  }

  /** The bye flags handed to the tree builder describe exactly the lane of first-round losers. */
  lemma LaneIsLosers(sides: seq<Team>, isBye: seq<bool>)
    requires Pow2(Rounds(sides)) >= 4 && |isBye| == Pow2(Rounds(sides)) / 2
    requires forall s | 0 <= s < |isBye| :: isBye[s] <==> !Alive(sides, 1, s)
    ensures Rounds(sides) >= 2 && |isBye| >= 2 && LaneOf(isBye) == LoserLane(sides)
  {
    var k := Rounds(sides);
    assert Pow2(1) == 2 * Pow2(0);
    assert k != 1;
    Compass.LaneOfDroppers(isBye, LoserLane(sides).alive, k - 1);
  }

  lemma NamesAreDistinct(sh: Shape, tree: ConsTree)
    requires sh.Valid() && sh.Lane? && IsTree(sh, tree)
    ensures Compass.DistinctNames(Consolation, tree.matches)
  {
    forall c, d | c in tree.matches && d in tree.matches
                  && Compass.NodeId(Consolation, tree.matches[c]) == Compass.NodeId(Consolation, tree.matches[d])
      ensures c == d
    {
      Compass.TreeNodeNamed(Consolation, sh, tree, c);
      Compass.TreeNodeNamed(Consolation, sh, tree, d);
      NameInjective(Consolation, sh, c.round, c.slot, d.round, d.slot);
    }
  }

  /** A recorded drop is the loser of a first-round match really played, and enters where the
      closed form says; a played match without one has its loser out. */
  lemma DropIsLoser(sides: seq<Team>, tree: ConsTree, s: nat)
    requires Rounds(sides) >= 2 && IsTree(LoserLane(sides), tree)
    ensures s in tree.drops ==> Alive(sides, 1, s)
    ensures Alive(sides, 1, s) ==>
              LoserGoes(sides, 1, s) == if s in tree.drops then Compass.DropEntry(Consolation, tree.drops[s]) else NoFeed
  {
    var sh := LoserLane(sides);
    LoserDrops(sides, s);
    Compass.TreeDropNamed(Consolation, sh, tree, s);
  }

  ghost predicate AreOpening(sides: seq<Team>, parents: seq<Option<MatchId>>)
  {
    && |parents| == Pow2(Rounds(sides)) / 2
    && forall s | 0 <= s < |parents| :: parents[s] == Some(MatchId(Winners, 1, s))
  }

  lemma DropsHaveParents(sides: seq<Team>, tree: ConsTree, main: map<MatchId, Spec>, parents: seq<Option<MatchId>>)
    requires Rounds(sides) >= 2 && IsTree(LoserLane(sides), tree) && AreOpening(sides, parents)
    requires SingleElimination.AreSpecs(sides, Winners, NoFeed, main)
    ensures Compass.DistinctParents(parents)
    ensures forall s | s in tree.drops :: s < |parents| && parents[s].Some? && parents[s].value in main
  {
    forall s | s in tree.drops ensures s < |parents| && parents[s].value in main {
      DropIsLoser(sides, tree, s);
      assert Pow2(Rounds(sides)) == 2 * Pow2(Rounds(sides) - 1);
    }
  }

  /** Wiring the drops leaves every main match alone but the first-round ones with a drop. */
  lemma MainKept(tree: ConsTree, parents: seq<Option<MatchId>>,
                 main: map<MatchId, Spec>, withTree: map<MatchId, Spec>, ms: map<MatchId, Spec>, r: nat, s: nat)
    requires forall x | 0 <= x < |parents| :: parents[x] == Some(MatchId(Winners, 1, x))
    requires Compass.Added(main, withTree, Consolation, tree.matches)
    requires Compass.WiredInto(withTree, ms, Consolation, tree.drops, parents)
    requires MatchId(Winners, r, s) in main && (r != 1 || s !in tree.drops)
    ensures MatchId(Winners, r, s) in ms && ms[MatchId(Winners, r, s)] == main[MatchId(Winners, r, s)]
  {
    var id := MatchId(Winners, r, s);
    assert id in withTree && withTree[id] == main[id];
    forall x | x in tree.drops && x < |parents| ensures parents[x] != Some(id) {
    }
  }

  lemma MainPersisted(sides: seq<Team>, tree: ConsTree, parents: seq<Option<MatchId>>,
                      main: map<MatchId, Spec>, withTree: map<MatchId, Spec>, ms: map<MatchId, Spec>, r: nat, s: nat)
    requires Rounds(sides) >= 2 && IsTree(LoserLane(sides), tree) && AreOpening(sides, parents)
    requires SingleElimination.AreSpecs(sides, Winners, NoFeed, main)
    requires Compass.Added(main, withTree, Consolation, tree.matches)
    requires Compass.WiredInto(withTree, ms, Consolation, tree.drops, parents)
    requires Bracket.ValidCoord(Rounds(sides), r, s)
    ensures MatchId(Winners, r, s) in ms && ms[MatchId(Winners, r, s)] == MainSpec(sides, r, s)
  {
    var id, spec := MatchId(Winners, r, s), Tagged(Bracket.MatchAt(sides, r, s), Winners, NoFeed);
    assert id in main && main[id] == spec;
    var feed := LoserGoes(sides, r, s);
    DropFeedOf(sides, tree, r, s);
    if r == 1 && s in tree.drops {
      assert Pow2(Rounds(sides)) == 2 * Pow2(Rounds(sides) - 1);
      Compass.WiredParent(main, withTree, ms, Consolation, tree, parents, s);
      assert ms[id] == spec.(lose := feed);
    } else {
      MainKept(tree, parents, main, withTree, ms, r, s);
      assert ms[id] == spec && spec.lose == feed;
    }
  }

  lemma DropFeedOf(sides: seq<Team>, tree: ConsTree, r: nat, s: nat)
    requires Rounds(sides) >= 2 && IsTree(LoserLane(sides), tree)
    ensures LoserGoes(sides, r, s) ==
            if r == 1 && s in tree.drops then Compass.DropEntry(Consolation, tree.drops[s]) else NoFeed
  {
    if r == 1 {
      DropIsLoser(sides, tree, s);
    }
  }

  lemma TreePersisted(sh: Shape, tree: ConsTree, parents: seq<Option<MatchId>>,
                      main: map<MatchId, Spec>, withTree: map<MatchId, Spec>, ms: map<MatchId, Spec>, r: nat, j: nat)
    requires sh.Valid() && sh.Lane? && IsTree(sh, tree)
    requires forall s | 0 <= s < |parents| :: parents[s] == Some(MatchId(Winners, 1, s))
    requires Compass.Added(main, withTree, Consolation, tree.matches)
    requires Compass.WiredInto(withTree, ms, Consolation, tree.drops, parents)
    ensures TreeMatchIn(sh, ms, r, j)
  {
    if Emitted(sh, r, j) {
      var c := Coord(r, j);
      assert c in tree.matches;
      Compass.TreeNodeNamed(Consolation, sh, tree, c);
      assert NameIn(Consolation, sh, r, j) in withTree;
    }
  }

  lemma PlacePersisted(sides: seq<Team>, tree: ConsTree, parents: seq<Option<MatchId>>,
                       main: map<MatchId, Spec>, withTree: map<MatchId, Spec>, ms: map<MatchId, Spec>, id: MatchId)
    requires Rounds(sides) >= 2 && IsTree(LoserLane(sides), tree)
    requires SingleElimination.AreSpecs(sides, Winners, NoFeed, main)
    requires Compass.Added(main, withTree, Consolation, tree.matches)
    requires Compass.WiredInto(withTree, ms, Consolation, tree.drops, parents) && id in ms
    ensures HasPlace(sides, id)
  {
    if id !in main {
      var c :| c in tree.matches && Compass.NodeId(Consolation, tree.matches[c]) == id;
      Compass.TreeNodeNamed(Consolation, LoserLane(sides), tree, c);
    }
  }

  lemma IsPersisted(sides: seq<Team>, tree: ConsTree, parents: seq<Option<MatchId>>,
                    main: map<MatchId, Spec>, withTree: map<MatchId, Spec>, ms: map<MatchId, Spec>)
    requires Rounds(sides) >= 2 && IsTree(LoserLane(sides), tree) && AreOpening(sides, parents)
    requires SingleElimination.AreSpecs(sides, Winners, NoFeed, main)
    requires Compass.Added(main, withTree, Consolation, tree.matches)
    requires Compass.WiredInto(withTree, ms, Consolation, tree.drops, parents)
    ensures IsBackDraw(sides, ms)
  {
    forall id | id in ms ensures HasPlace(sides, id) {
      PlacePersisted(sides, tree, parents, main, withTree, ms, id);
    }
    forall r: nat, s: nat | Bracket.ValidCoord(Rounds(sides), r, s)
      ensures MatchId(Winners, r, s) in ms && ms[MatchId(Winners, r, s)] == MainSpec(sides, r, s)
    {
      MainPersisted(sides, tree, parents, main, withTree, ms, r, s);
    }
    forall r: nat, j: nat ensures TreeMatchIn(LoserLane(sides), ms, r, j) {
      TreePersisted(LoserLane(sides), tree, parents, main, withTree, ms, r, j);
    }
  }
}
