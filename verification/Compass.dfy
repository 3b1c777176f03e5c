/** compass.go: one East bracket, and directions fed sideways by its losers and by theirs. */
module Compass {
  import opened Coordinates
  import opened Draws
  import opened Powers
  import opened Knockout
  import opened Collapse
  import opened ConsolationTree
  import opened CompassDraw
  import Bracket
  import Relabel
  import SingleElimination

  /** A direction just built, by coordinates before renumbering, so that its own rounds can feed
      further directions. */
  datatype Built = Built(byStruct: map<Coord, MatchId>, structRounds: nat)

  ghost predicate IsBuilt(sides: seq<Team>, g: Group, b: Built)
    requires IsDirection(g)
  {
    && TreeOf(sides, g).Some? && b.structRounds == Depth(sides, g)
    && (forall c {:trigger c in b.byStruct} :: c in b.byStruct <==> MatchIn(sides, g, c.round, c.slot))
    && (forall c | c in b.byStruct :: b.byStruct[c] == IdOf(sides, g, c.round, c.slot))
  }

  /** parentAt: the real match at each slot of the round that feeds direction `g`. */
  ghost predicate AreParents(sides: seq<Team>, g: Group, parents: seq<Option<MatchId>>)
    requires IsDirection(g) && ParentOf(g).1 < Depth(sides, ParentOf(g).0)
  {
    var (p, r) := ParentOf(g);
    && |parents| == Pow2(Depth(sides, p) - r)
    && (p != East ==> TreeOf(sides, p).Some?)
    && (forall j | 0 <= j < |parents| ::
          parents[j] == if MatchIn(sides, p, r, j) then Some(IdOf(sides, p, r, j)) else None)
  }

  // --- building one direction -----------------------------------------------------------------

  function NodeId(g: Group, n: ConsNode): MatchId {
    MatchId(g, n.round, n.slot)
  }

  function NodeSpec(g: Group, n: ConsNode): Spec {
    Spec(Bracket.Tbd, Bracket.Tbd, None,
         if n.feedsRound != 0 then To(Entry(MatchId(g, n.feedsRound, n.feedsSlot), n.feedsTeam)) else NoFeed, NoFeed)
  }

  function DropEntry(g: Group, d: ConsDrop): Feed {
    To(Entry(MatchId(g, d.round, d.slot), d.team))
  }

  ghost predicate DistinctNames(g: Group, nodes: map<Coord, ConsNode>) {
    forall c, d | c in nodes && d in nodes && NodeId(g, nodes[c]) == NodeId(g, nodes[d]) :: c == d
  }

  /** `ms` is `ms0` with the matches of one tree added. */
  ghost predicate Added(ms0: map<MatchId, Spec>, ms: map<MatchId, Spec>, g: Group, nodes: map<Coord, ConsNode>) {
    && (forall id | id in ms0 :: id in ms && ms[id] == ms0[id])
    && (forall c | c in nodes :: NodeId(g, nodes[c]) in ms && ms[NodeId(g, nodes[c])] == NodeSpec(g, nodes[c]))
    && (forall id | id in ms :: id in ms0 || exists c :: c in nodes && NodeId(g, nodes[c]) == id)
  }

  method AddMatches(ms0: map<MatchId, Spec>, g: Group, nodes: map<Coord, ConsNode>)
    returns (ms: map<MatchId, Spec>, byStruct: map<Coord, MatchId>)
    requires DistinctNames(g, nodes) && forall id | id in ms0 :: id.group != g
    ensures Added(ms0, ms, g, nodes)
    ensures byStruct.Keys == nodes.Keys && forall c | c in nodes :: byStruct[c] == NodeId(g, nodes[c])
  {
    ms, byStruct := ms0, map[];
    var rest := nodes.Keys;
    while rest != {}
      invariant rest <= nodes.Keys && byStruct.Keys == nodes.Keys - rest
      invariant forall c | c in byStruct :: byStruct[c] == NodeId(g, nodes[c])
      invariant forall id | id in ms0 :: id in ms && ms[id] == ms0[id]
      invariant forall c | c in byStruct :: NodeId(g, nodes[c]) in ms && ms[NodeId(g, nodes[c])] == NodeSpec(g, nodes[c])
      invariant forall id | id in ms :: id in ms0 || exists c :: c in nodes && NodeId(g, nodes[c]) == id
      decreases rest
    {
      var c :| c in rest;
      ms := ms[NodeId(g, nodes[c]) := NodeSpec(g, nodes[c])];
      byStruct := byStruct[c := NodeId(g, nodes[c])];
      rest := rest - {c};
    }
  }

  ghost predicate DistinctParents(parents: seq<Option<MatchId>>) {
    forall i, j | 0 <= i < j < |parents| && parents[i].Some? :: parents[i] != parents[j]
  }

  /** `ms` is `ms1` with the loser of every dropping parent wired into the tree. */
  ghost predicate WiredInto(ms1: map<MatchId, Spec>, ms: map<MatchId, Spec>, g: Group,
                            drops: map<nat, ConsDrop>, parents: seq<Option<MatchId>>) {
    && ms.Keys == ms1.Keys
    && (forall s | s in drops && s < |parents| && parents[s].Some? && parents[s].value in ms1 ::
          ms[parents[s].value] == ms1[parents[s].value].(lose := DropEntry(g, drops[s])))
    && (forall id | id in ms1 && (forall s | s in drops && s < |parents| :: parents[s] != Some(id)) :: ms[id] == ms1[id])
  }

  method WireDrops(ms1: map<MatchId, Spec>, g: Group, drops: map<nat, ConsDrop>, parents: seq<Option<MatchId>>)
    returns (ms: map<MatchId, Spec>)
    requires DistinctParents(parents)
    requires forall s | s in drops :: s < |parents| && parents[s].Some? && parents[s].value in ms1
    ensures WiredInto(ms1, ms, g, drops, parents)
  {
    ms := ms1;
    var rest := drops.Keys;
    while rest != {}
      invariant rest <= drops.Keys && ms.Keys == ms1.Keys
      invariant forall s | s in drops ::
                  ms[parents[s].value] == if s in rest then ms1[parents[s].value]
                                          else ms1[parents[s].value].(lose := DropEntry(g, drops[s]))
      invariant forall id | id in ms1 && (forall s | s in drops && s < |parents| :: parents[s] != Some(id)) :: ms[id] == ms1[id]
      decreases rest
    {
      var s :| s in rest;
      var src := parents[s].value;
      ms := ms[src := ms[src].(lose := DropEntry(g, drops[s]))];
      rest := rest - {s};
      forall x | x in drops && x != s ensures parents[x].value != src {
        assert parents[if x < s then x else s] != parents[if x < s then s else x];
      }
    }
  }

  // --- what building one direction adds to the closed form ----------------------------------

  /** Direction `g` may be built next: its parent is there, and none of its own children is. */
  ghost predicate MayBuild(sides: seq<Team>, g: Group, done: set<Group>) {
    && IsDirection(g) && g !in done
    && ParentOf(g).1 < Depth(sides, ParentOf(g).0)
    && (ParentOf(g).0 == East || (ParentOf(g).0 in done && TreeOf(sides, ParentOf(g).0).Some?))
    && (forall d | d in done && IsDirection(d) :: ParentOf(d).0 != g)
  }

  /** The flags handed to the tree builder describe exactly the direction's lane. */
  lemma LaneIsTree(sides: seq<Team>, g: Group, isBye: seq<bool>)
    requires IsDirection(g) && ParentOf(g).1 < Depth(sides, ParentOf(g).0)
    requires |isBye| == |Dropping(sides, g)| && forall j | 0 <= j < |isBye| :: isBye[j] == !Dropping(sides, g)[j]
    ensures |isBye| >= 2
    ensures LaneOf(isBye) == Lane(Depth(sides, ParentOf(g).0) - ParentOf(g).1, Dropping(sides, g))
    ensures TreeOf(sides, g).Some? <==> Droppers(LaneOf(isBye).alive) >= 2
    ensures TreeOf(sides, g).Some? ==> TreeOf(sides, g).value == LaneOf(isBye)
  {
    var alive, d := Dropping(sides, g), Depth(sides, ParentOf(g).0) - ParentOf(g).1;
    LaneOfDroppers(isBye, alive, d);
    assert LaneOf(isBye) == Lane(d, alive);
  }

  lemma LaneOfDroppers(isBye: seq<bool>, alive: seq<bool>, d: nat)
    requires d >= 1 && |isBye| == |alive| == Pow2(d) && forall j | 0 <= j < |isBye| :: isBye[j] == !alive[j]
    ensures |isBye| >= 2 && LaneOf(isBye) == Lane(d, alive)
  {
    assert Pow2(d) == 2 * Pow2(d - 1);
    CeilLog2Unique(|isBye|, d);
    assert LaneOf(isBye).alive == alive;
  }

  /** A match of a tree has the name and the winner feed the lane gives it. */
  lemma TreeNodeNamed(g: Group, sh: Shape, tree: ConsTree, c: Coord)
    requires sh.Valid() && sh.Lane? && IsTree(sh, tree) && c in tree.matches
    ensures Emitted(sh, c.round, c.slot)
    ensures NodeId(g, tree.matches[c]) == NameIn(g, sh, c.round, c.slot)
    ensures NodeSpec(g, tree.matches[c])
         == Spec(Bracket.Tbd, Bracket.Tbd, None, LandingIn(g, sh, FeedFor(sh, Winner(c.round, c.slot))), NoFeed)
  {
    RoundsAgree(sh, tree);
    FeedIsRight(sh, Winner(c.round, c.slot));
    var f := FeedFor(sh, Winner(c.round, c.slot));
    if f.Lands? {
      EmittedRoundPresent(sh, f.spot.round, f.spot.slot);
      Relabel.RankKeepsOrder(EmittedRounds(sh), f.spot.round, f.spot.round);
    }
  }

  lemma NodeIsNamed(sides: seq<Team>, g: Group, tree: ConsTree, c: Coord)
    requires IsDirection(g) && TreeOf(sides, g).Some? && IsTree(TreeOf(sides, g).value, tree) && c in tree.matches
    ensures MatchIn(sides, g, c.round, c.slot)
    ensures NodeId(g, tree.matches[c]) == IdOf(sides, g, c.round, c.slot)
    ensures NodeSpec(g, tree.matches[c]) ==
            Spec(Bracket.Tbd, Bracket.Tbd, None,
                 LandingFeed(sides, g, FeedFor(TreeOf(sides, g).value, Winner(c.round, c.slot))), NoFeed)
  {
    TreeNodeNamed(g, TreeOf(sides, g).value, tree, c);
  }

  /** A recorded drop is a dropper's, and enters where the lane has it land; a dropper that is not
      recorded goes nowhere. */
  lemma TreeDropNamed(g: Group, sh: Shape, tree: ConsTree, s: nat)
    requires sh.Valid() && sh.Lane? && IsTree(sh, tree)
    ensures s in tree.drops ==> Producer(sh, Loser(Source(1, s)))
    ensures Producer(sh, Loser(Source(1, s))) ==>
              LandingIn(g, sh, FeedFor(sh, Loser(Source(1, s)))) == if s in tree.drops then DropEntry(g, tree.drops[s]) else NoFeed
  {
    RoundsAgree(sh, tree);
  }

  lemma DropIsNamed(sides: seq<Team>, g: Group, tree: ConsTree, s: nat)
    requires IsDirection(g) && TreeOf(sides, g).Some? && IsTree(TreeOf(sides, g).value, tree)
    ensures s in tree.drops <==> s < |Dropping(sides, g)| && Dropping(sides, g)[s]
    ensures s in tree.drops ==> forall done | g in done :: DropEntry(g, tree.drops[s]) == DropFeed(sides, g, s, done)
  {
    var sh := TreeOf(sides, g).value;
    TreeDropNamed(g, sh, tree, s);
    EveryDropperEnters(sh, tree, s);
  }

  lemma NamesAreDistinct(sides: seq<Team>, g: Group, tree: ConsTree)
    requires IsDirection(g) && TreeOf(sides, g).Some? && IsTree(TreeOf(sides, g).value, tree)
    ensures DistinctNames(g, tree.matches)
  {
    forall c, d | c in tree.matches && d in tree.matches && NodeId(g, tree.matches[c]) == NodeId(g, tree.matches[d])
      ensures c == d
    {
      NodeIsNamed(sides, g, tree, c);
      NodeIsNamed(sides, g, tree, d);
      IdOfInjective(sides, g, c.round, c.slot, d.round, d.slot);
    }
  }

  lemma ParentsAreDistinct(sides: seq<Team>, g: Group, parents: seq<Option<MatchId>>)
    requires IsDirection(g) && ParentOf(g).1 < Depth(sides, ParentOf(g).0) && AreParents(sides, g, parents)
    ensures DistinctParents(parents)
  {
    var (p, r) := ParentOf(g);
    forall i, j | 0 <= i < j < |parents| && parents[i].Some? ensures parents[i] != parents[j] {
      if MatchIn(sides, p, r, i) && MatchIn(sides, p, r, j) && IdOf(sides, p, r, i) == IdOf(sides, p, r, j) {
        IdOfInjective(sides, p, r, i, r, j);
      }
    }
  }

  /** Building `g` changes only the loser feeds of the matches that drop into it. */
  lemma LoseFeedStep(sides: seq<Team>, q: Group, r: nat, j: nat, g: Group, done: set<Group>)
    requires (q == East || IsDirection(q)) && IsDirection(g) && g !in done && MatchIn(sides, q, r, j) && r >= 1
    ensures LoseFeed(sides, q, r, j, done + {g}) ==
            if ParentOf(g) == (q, r) then DropFeed(sides, g, j, done + {g}) else LoseFeed(sides, q, r, j, done)
  {
    ChildHasParent(q, r);
  }

  lemma SlotInRange(sides: seq<Team>, q: Group, r: nat, j: nat)
    requires (q == East || IsDirection(q)) && MatchIn(sides, q, r, j)
    ensures 1 <= r <= Depth(sides, q) && j < Pow2(Depth(sides, q) - r)
  {
    if q == East {
      assert Bracket.ValidCoord(Rounds(sides), r, j);
    } else {
      EmittedInRange(TreeOf(sides, q).value, r, j);
    }
  }

  lemma ParentSlot(sides: seq<Team>, g: Group, parents: seq<Option<MatchId>>, j: nat)
    requires IsDirection(g) && ParentOf(g).1 < Depth(sides, ParentOf(g).0) && AreParents(sides, g, parents)
    requires MatchIn(sides, ParentOf(g).0, ParentOf(g).1, j)
    ensures j < |parents| && parents[j] == Some(IdOf(sides, ParentOf(g).0, ParentOf(g).1, j))
    ensures j < |Dropping(sides, g)| && Dropping(sides, g)[j]
  {
    SlotDrops(sides, g, j);
    var n := |parents|;
    assert n == |Dropping(sides, g)|;
  }

  lemma SlotDrops(sides: seq<Team>, g: Group, j: nat)
    requires IsDirection(g) && ParentOf(g).1 < Depth(sides, ParentOf(g).0)
    requires MatchIn(sides, ParentOf(g).0, ParentOf(g).1, j)
    ensures j < |Dropping(sides, g)| && Dropping(sides, g)[j]
  {
    SlotOfLoser(sides, ParentOf(g).0, ParentOf(g).1, j);
  }

  lemma SlotOfLoser(sides: seq<Team>, p: Group, r: nat, j: nat)
    requires (p == East || IsDirection(p)) && r < Depth(sides, p) && MatchIn(sides, p, r, j)
    ensures j < |LosersOf(sides, p, r)| && LosersOf(sides, p, r)[j]
  {
    SlotInRange(sides, p, r, j);
    LoserAt(sides, p, r, j);
  }

  /** Only matches of the feeding round are parents. */
  lemma NotAParent(sides: seq<Team>, g: Group, parents: seq<Option<MatchId>>, q: Group, r: nat, j: nat)
    requires IsDirection(g) && ParentOf(g).1 < Depth(sides, ParentOf(g).0) && AreParents(sides, g, parents)
    requires (q == East || IsDirection(q)) && MatchIn(sides, q, r, j) && ParentOf(g) != (q, r)
    ensures forall s | 0 <= s < |parents| :: parents[s] != Some(IdOf(sides, q, r, j))
  {
    forall s | 0 <= s < |parents| ensures parents[s] != Some(IdOf(sides, q, r, j)) {
      NotThisParent(sides, g, parents, q, r, j, s);
    }
  }

  lemma NotThisParent(sides: seq<Team>, g: Group, parents: seq<Option<MatchId>>, q: Group, r: nat, j: nat, s: nat)
    requires IsDirection(g) && ParentOf(g).1 < Depth(sides, ParentOf(g).0) && AreParents(sides, g, parents)
    requires (q == East || IsDirection(q)) && MatchIn(sides, q, r, j) && ParentOf(g) != (q, r) && s < |parents|
    ensures parents[s] != Some(IdOf(sides, q, r, j))
  {
    var p, pr := ParentOf(g).0, ParentOf(g).1;
    if MatchIn(sides, p, pr, s) {
      NamesDiffer(sides, p, pr, s, q, r, j);
    }
  }

  lemma NamesDiffer(sides: seq<Team>, p: Group, pr: nat, s: nat, q: Group, r: nat, j: nat)
    requires (p == East || IsDirection(p)) && MatchIn(sides, p, pr, s)
    requires (q == East || IsDirection(q)) && MatchIn(sides, q, r, j) && (p, pr) != (q, r)
    ensures IdOf(sides, p, pr, s) != IdOf(sides, q, r, j)
  {
    if p == q && IdOf(sides, p, pr, s) == IdOf(sides, q, r, j) {
      IdOfInjective(sides, p, pr, s, r, j);
    }
  }

  /** A match already in the plan after `g` is built: only its loser feed may have changed, and it
      is the one the closed form says. */
  lemma OldMatchWired(sides: seq<Team>, g: Group, done: set<Group>, tree: ConsTree, parents: seq<Option<MatchId>>,
                      ms0: map<MatchId, Spec>, ms1: map<MatchId, Spec>, ms: map<MatchId, Spec>,
                      q: Group, r: nat, j: nat)
    requires MayBuild(sides, g, done) && TreeOf(sides, g).Some? && IsTree(TreeOf(sides, g).value, tree)
    requires AreParents(sides, g, parents)
    requires Added(ms0, ms1, g, tree.matches) && WiredInto(ms1, ms, g, tree.drops, parents)
    requires (q == East || IsDirection(q)) && MatchIn(sides, q, r, j) && r >= 1 && IdOf(sides, q, r, j) in ms0
    requires ms0[IdOf(sides, q, r, j)].lose == LoseFeed(sides, q, r, j, done)
    ensures var id := IdOf(sides, q, r, j);
            id in ms && ms[id] == ms0[id].(lose := LoseFeed(sides, q, r, j, done + {g}))
  {
    LoseFeedStep(sides, q, r, j, g, done);
    if ParentOf(g) == (q, r) {
      OldParentWired(sides, g, done + {g}, tree, parents, j);
      ParentSlot(sides, g, parents, j);
      WiredParent(ms0, ms1, ms, g, tree, parents, j);
    } else {
      NotAParent(sides, g, parents, q, r, j);
      WiredOther(ms0, ms1, ms, g, tree, parents, IdOf(sides, q, r, j));
    }
  }

  lemma OldParentWired(sides: seq<Team>, g: Group, done: set<Group>, tree: ConsTree, parents: seq<Option<MatchId>>, j: nat)
    requires IsDirection(g) && ParentOf(g).1 < Depth(sides, ParentOf(g).0) && AreParents(sides, g, parents)
    requires TreeOf(sides, g).Some? && IsTree(TreeOf(sides, g).value, tree) && g in done
    requires MatchIn(sides, ParentOf(g).0, ParentOf(g).1, j)
    ensures j in tree.drops && DropEntry(g, tree.drops[j]) == DropFeed(sides, g, j, done)
  {
    ParentSlot(sides, g, parents, j);
    DropIsNamed(sides, g, tree, j);
  }

  lemma WiredParent(ms0: map<MatchId, Spec>, ms1: map<MatchId, Spec>, ms: map<MatchId, Spec>, g: Group, tree: ConsTree,
                    parents: seq<Option<MatchId>>, s: nat)
    requires Added(ms0, ms1, g, tree.matches) && WiredInto(ms1, ms, g, tree.drops, parents)
    requires s in tree.drops && s < |parents| && parents[s].Some? && parents[s].value in ms0
    ensures parents[s].value in ms
    ensures ms[parents[s].value] == ms0[parents[s].value].(lose := DropEntry(g, tree.drops[s]))
  {
  }

  lemma WiredOther(ms0: map<MatchId, Spec>, ms1: map<MatchId, Spec>, ms: map<MatchId, Spec>, g: Group, tree: ConsTree,
                   parents: seq<Option<MatchId>>, id: MatchId)
    requires Added(ms0, ms1, g, tree.matches) && WiredInto(ms1, ms, g, tree.drops, parents)
    requires id in ms1 && forall s | 0 <= s < |parents| :: parents[s] != Some(id)
    ensures id in ms && ms[id] == ms1[id]
    ensures id in ms0 ==> ms[id] == ms0[id]
  {
  }

  /** A match of the direction just built. */
  lemma NewMatchWired(sides: seq<Team>, g: Group, done: set<Group>, tree: ConsTree, parents: seq<Option<MatchId>>,
                      ms0: map<MatchId, Spec>, ms1: map<MatchId, Spec>, ms: map<MatchId, Spec>, r: nat, j: nat)
    requires MayBuild(sides, g, done) && TreeOf(sides, g).Some? && IsTree(TreeOf(sides, g).value, tree)
    requires AreParents(sides, g, parents)
    requires Added(ms0, ms1, g, tree.matches) && WiredInto(ms1, ms, g, tree.drops, parents)
    requires MatchIn(sides, g, r, j)
    ensures IdOf(sides, g, r, j) in ms
    ensures ms[IdOf(sides, g, r, j)] == DirectionSpec(sides, g, r, j, done + {g})
  {
    var c := Coord(r, j);
    assert c in tree.matches;
    NodeIsNamed(sides, g, tree, c);
    NotAParent(sides, g, parents, g, r, j);
    WiredOther(ms0, ms1, ms, g, tree, parents, NodeId(g, tree.matches[c]));
    NoChildYet(sides, g, r, j, done);
  }

  lemma NoChildYet(sides: seq<Team>, g: Group, r: nat, j: nat, done: set<Group>)
    requires MayBuild(sides, g, done) && MatchIn(sides, g, r, j)
    ensures LoseFeed(sides, g, r, j, done + {g}) == NoFeed
  {
    if r >= 1 && ChildOf(g, r).Some? {
      ChildHasParent(g, r);
      var d := ChildOf(g, r).value;
      assert ParentOf(d).0 == g && d !in done + {g};
    }
  }

  lemma NewPlaces(sides: seq<Team>, g: Group, done: set<Group>, tree: ConsTree,
                  ms0: map<MatchId, Spec>, ms1: map<MatchId, Spec>, id: MatchId)
    requires IsDirection(g) && TreeOf(sides, g).Some? && IsTree(TreeOf(sides, g).value, tree)
    requires Added(ms0, ms1, g, tree.matches) && id in ms1 && (id in ms0 ==> HasPlace(sides, id, done))
    ensures HasPlace(sides, id, done + {g})
  {
    if id !in ms0 {
      var c :| c in tree.matches && NodeId(g, tree.matches[c]) == id;
      NodeIsNamed(sides, g, tree, c);
    }
  }

  lemma BuiltIsSoFar(sides: seq<Team>, g: Group, done: set<Group>, tree: ConsTree, parents: seq<Option<MatchId>>,
                     ms0: map<MatchId, Spec>, ms1: map<MatchId, Spec>, ms: map<MatchId, Spec>)
    requires MayBuild(sides, g, done) && TreeOf(sides, g).Some? && IsTree(TreeOf(sides, g).value, tree)
    requires AreParents(sides, g, parents) && IsSoFar(sides, ms0, done)
    requires Added(ms0, ms1, g, tree.matches) && WiredInto(ms1, ms, g, tree.drops, parents)
    ensures IsSoFar(sides, ms, done + {g})
  {
    forall id | id in ms ensures HasPlace(sides, id, done + {g}) {
      NewPlaces(sides, g, done, tree, ms0, ms1, id);
    }
    BuiltEast(sides, g, done, tree, parents, ms0, ms1, ms);
    BuiltDirections(sides, g, done, tree, parents, ms0, ms1, ms);
  }

  lemma BuiltEast(sides: seq<Team>, g: Group, done: set<Group>, tree: ConsTree, parents: seq<Option<MatchId>>,
                  ms0: map<MatchId, Spec>, ms1: map<MatchId, Spec>, ms: map<MatchId, Spec>)
    requires MayBuild(sides, g, done) && TreeOf(sides, g).Some? && IsTree(TreeOf(sides, g).value, tree)
    requires AreParents(sides, g, parents) && IsSoFar(sides, ms0, done)
    requires Added(ms0, ms1, g, tree.matches) && WiredInto(ms1, ms, g, tree.drops, parents)
    ensures forall r: nat, s: nat {:trigger EastIn(sides, ms, r, s, done + {g})} | Bracket.ValidCoord(Rounds(sides), r, s) ::
              EastIn(sides, ms, r, s, done + {g})
  {
    forall r: nat, s: nat {:trigger EastIn(sides, ms, r, s, done + {g})} | Bracket.ValidCoord(Rounds(sides), r, s)
      ensures EastIn(sides, ms, r, s, done + {g})
    {
      assert EastIn(sides, ms0, r, s, done);
      EastStaysRight(sides, g, done, tree, parents, ms0, ms1, ms, r, s);
    }
  }

  lemma BuiltDirections(sides: seq<Team>, g: Group, done: set<Group>, tree: ConsTree, parents: seq<Option<MatchId>>,
                        ms0: map<MatchId, Spec>, ms1: map<MatchId, Spec>, ms: map<MatchId, Spec>)
    requires MayBuild(sides, g, done) && TreeOf(sides, g).Some? && IsTree(TreeOf(sides, g).value, tree)
    requires AreParents(sides, g, parents) && IsSoFar(sides, ms0, done)
    requires Added(ms0, ms1, g, tree.matches) && WiredInto(ms1, ms, g, tree.drops, parents)
    ensures forall q, r: nat, j: nat {:trigger DirectionIn(sides, ms, q, r, j, done + {g})}
              | q in done + {g} && IsDirection(q) && TreeOf(sides, q).Some? && MatchIn(sides, q, r, j) ::
              DirectionIn(sides, ms, q, r, j, done + {g})
  {
    forall q, r: nat, j: nat {:trigger DirectionIn(sides, ms, q, r, j, done + {g})}
      | q in done + {g} && IsDirection(q) && TreeOf(sides, q).Some? && MatchIn(sides, q, r, j)
      ensures DirectionIn(sides, ms, q, r, j, done + {g})
    {
      BuiltOn(sides, g, done, tree, parents, ms0, ms1, ms, q, r, j);
    }
  }

  lemma BuiltOn(sides: seq<Team>, g: Group, done: set<Group>, tree: ConsTree, parents: seq<Option<MatchId>>,
                ms0: map<MatchId, Spec>, ms1: map<MatchId, Spec>, ms: map<MatchId, Spec>, q: Group, r: nat, j: nat)
    requires MayBuild(sides, g, done) && TreeOf(sides, g).Some? && IsTree(TreeOf(sides, g).value, tree)
    requires AreParents(sides, g, parents) && IsSoFar(sides, ms0, done)
    requires Added(ms0, ms1, g, tree.matches) && WiredInto(ms1, ms, g, tree.drops, parents)
    requires q in done + {g} && IsDirection(q) && TreeOf(sides, q).Some? && MatchIn(sides, q, r, j)
    ensures DirectionIn(sides, ms, q, r, j, done + {g})
  {
    if q != g {
      DirectionWasRight(sides, ms0, done, q, r, j);
    }
    BuiltDirection(sides, g, done, tree, parents, ms0, ms1, ms, q, r, j);
  }

  lemma BuiltDirection(sides: seq<Team>, g: Group, done: set<Group>, tree: ConsTree, parents: seq<Option<MatchId>>,
                       ms0: map<MatchId, Spec>, ms1: map<MatchId, Spec>, ms: map<MatchId, Spec>,
                       q: Group, r: nat, j: nat)
    requires MayBuild(sides, g, done) && TreeOf(sides, g).Some? && IsTree(TreeOf(sides, g).value, tree)
    requires AreParents(sides, g, parents)
    requires Added(ms0, ms1, g, tree.matches) && WiredInto(ms1, ms, g, tree.drops, parents)
    requires IsDirection(q) && TreeOf(sides, q).Some? && MatchIn(sides, q, r, j)
    requires q != g ==> DirectionIn(sides, ms0, q, r, j, done)
    ensures DirectionIn(sides, ms, q, r, j, done + {g})
  {
    if q == g {
      NewMatchWired(sides, g, done, tree, parents, ms0, ms1, ms, r, j);
    } else {
      DirectionStaysRight(sides, g, done, tree, parents, ms0, ms1, ms, q, r, j);
    }
  }

  lemma DirectionWasRight(sides: seq<Team>, ms: map<MatchId, Spec>, done: set<Group>, q: Group, r: nat, j: nat)
    requires IsSoFar(sides, ms, done) && q in done && IsDirection(q) && TreeOf(sides, q).Some? && MatchIn(sides, q, r, j)
    ensures DirectionIn(sides, ms, q, r, j, done)
  {
  }

  lemma EastStaysRight(sides: seq<Team>, g: Group, done: set<Group>, tree: ConsTree, parents: seq<Option<MatchId>>,
                       ms0: map<MatchId, Spec>, ms1: map<MatchId, Spec>, ms: map<MatchId, Spec>, r: nat, s: nat)
    requires MayBuild(sides, g, done) && TreeOf(sides, g).Some? && IsTree(TreeOf(sides, g).value, tree)
    requires AreParents(sides, g, parents) && Bracket.ValidCoord(Rounds(sides), r, s)
    requires MatchId(East, r, s) in ms0 && ms0[MatchId(East, r, s)] == EastSpec(sides, r, s, done)
    requires Added(ms0, ms1, g, tree.matches) && WiredInto(ms1, ms, g, tree.drops, parents)
    ensures MatchId(East, r, s) in ms && ms[MatchId(East, r, s)] == EastSpec(sides, r, s, done + {g})
  {
    if Alive(sides, r, s) {
      OldMatchWired(sides, g, done, tree, parents, ms0, ms1, ms, East, r, s);
    } else {
      ByeNotWired(sides, g, done, tree, parents, ms0, ms1, ms, r, s);
    }
  }

  lemma DirectionStaysRight(sides: seq<Team>, g: Group, done: set<Group>, tree: ConsTree, parents: seq<Option<MatchId>>,
                            ms0: map<MatchId, Spec>, ms1: map<MatchId, Spec>, ms: map<MatchId, Spec>,
                            q: Group, r: nat, j: nat)
    requires MayBuild(sides, g, done) && TreeOf(sides, g).Some? && IsTree(TreeOf(sides, g).value, tree)
    requires AreParents(sides, g, parents) && IsDirection(q) && TreeOf(sides, q).Some? && MatchIn(sides, q, r, j)
    requires IdOf(sides, q, r, j) in ms0 && ms0[IdOf(sides, q, r, j)] == DirectionSpec(sides, q, r, j, done)
    requires Added(ms0, ms1, g, tree.matches) && WiredInto(ms1, ms, g, tree.drops, parents)
    ensures IdOf(sides, q, r, j) in ms && ms[IdOf(sides, q, r, j)] == DirectionSpec(sides, q, r, j, done + {g})
  {
    SlotInRange(sides, q, r, j);
    OldMatchWired(sides, g, done, tree, parents, ms0, ms1, ms, q, r, j);
  }

  /** An East match a bye resolved has no loser to drop. */
  lemma ByeNotWired(sides: seq<Team>, g: Group, done: set<Group>, tree: ConsTree, parents: seq<Option<MatchId>>,
                    ms0: map<MatchId, Spec>, ms1: map<MatchId, Spec>, ms: map<MatchId, Spec>, r: nat, s: nat)
    requires MayBuild(sides, g, done) && TreeOf(sides, g).Some? && AreParents(sides, g, parents)
    requires Added(ms0, ms1, g, tree.matches) && WiredInto(ms1, ms, g, tree.drops, parents)
    requires Bracket.ValidCoord(Rounds(sides), r, s) && !Alive(sides, r, s)
    requires MatchId(East, r, s) in ms0 && ms0[MatchId(East, r, s)] == EastSpec(sides, r, s, done)
    ensures MatchId(East, r, s) in ms && ms[MatchId(East, r, s)] == EastSpec(sides, r, s, done + {g})
  {
    var id := MatchId(East, r, s);
    forall x | x in tree.drops && x < |parents| ensures parents[x] != Some(id) {
    }
  }

  /** A direction that does not form changes no loser feed. */
  lemma FeedUnchanged(sides: seq<Team>, q: Group, r: nat, j: nat, g: Group, done: set<Group>)
    requires (q == East || IsDirection(q)) && IsDirection(g) && g !in done && TreeOf(sides, g).None?
    ensures LoseFeed(sides, q, r, j, done + {g}) == LoseFeed(sides, q, r, j, done)
  {
    if r >= 1 && MatchIn(sides, q, r, j) {
      LoseFeedStep(sides, q, r, j, g, done);
      ChildHasParent(q, r);
    }
  }

  lemma NoTreeNoChange(sides: seq<Team>, ms: map<MatchId, Spec>, g: Group, done: set<Group>)
    requires IsDirection(g) && g !in done && TreeOf(sides, g).None? && IsSoFar(sides, ms, done)
    ensures IsSoFar(sides, ms, done + {g})
  {
    forall r: nat, s: nat {:trigger EastIn(sides, ms, r, s, done + {g})} | Bracket.ValidCoord(Rounds(sides), r, s)
      ensures EastIn(sides, ms, r, s, done + {g})
    {
      assert EastIn(sides, ms, r, s, done);
      FeedUnchanged(sides, East, r, s, g, done);
    }
    forall q, r: nat, j: nat {:trigger DirectionIn(sides, ms, q, r, j, done + {g})}
      | q in done + {g} && IsDirection(q) && TreeOf(sides, q).Some? && MatchIn(sides, q, r, j)
      ensures DirectionIn(sides, ms, q, r, j, done + {g})
    {
      DirectionWasRight(sides, ms, done, q, r, j);
      FeedUnchanged(sides, q, r, j, g, done);
    }
    forall id | id in ms ensures HasPlace(sides, id, done + {g}) {
      PlaceStays(sides, id, done, g);
    }
  }

  lemma PlaceStays(sides: seq<Team>, id: MatchId, done: set<Group>, g: Group)
    requires HasPlace(sides, id, done)
    ensures HasPlace(sides, id, done + {g})
  {
  }

  // --- the generator --------------------------------------------------------------------------

  /** feedFrom: build direction `g` from the losers of its parent round, if two or more are real. */
  method FeedFrom(ghost sides: seq<Team>, ms0: map<MatchId, Spec>, g: Group, parents: seq<Option<MatchId>>,
                  ghost done: set<Group>)
    returns (ms: map<MatchId, Spec>, built: Option<Built>)
    requires MayBuild(sides, g, done) && AreParents(sides, g, parents) && IsSoFar(sides, ms0, done)
    ensures IsSoFar(sides, ms, done + {g})
    ensures built.Some? <==> TreeOf(sides, g).Some?
    ensures built.Some? ==> IsBuilt(sides, g, built.value)
  {
    var isBye := seq(|parents|, j requires 0 <= j < |parents| => parents[j].None?);
    LaneIsTree(sides, g, isBye);
    var tree := ConsolationTree.Build(isBye);
    if tree.None? {
      NoTreeNoChange(sides, ms0, g, done);
      return ms0, None;
    }
    var byStruct;
    ms, byStruct := AddTree(sides, ms0, g, tree.value, parents, done);
    built := Some(Built(byStruct, tree.value.structRounds));
  }

  method AddTree(ghost sides: seq<Team>, ms0: map<MatchId, Spec>, g: Group, tree: ConsTree, parents: seq<Option<MatchId>>,
                 ghost done: set<Group>)
    returns (ms: map<MatchId, Spec>, byStruct: map<Coord, MatchId>)
    requires MayBuild(sides, g, done) && AreParents(sides, g, parents) && IsSoFar(sides, ms0, done)
    requires TreeOf(sides, g).Some? && IsTree(TreeOf(sides, g).value, tree)
    ensures IsSoFar(sides, ms, done + {g})
    ensures IsBuilt(sides, g, Built(byStruct, tree.structRounds))
  {
    NamesAreDistinct(sides, g, tree);
    ParentsAreDistinct(sides, g, parents);
    GroupIsFresh(sides, ms0, g, done);
    var added;
    added, byStruct := AddMatches(ms0, g, tree.matches);
    DropsHaveParents(sides, ms0, added, g, tree, parents, done);
    ms := WireDrops(added, g, tree.drops, parents);
    BuiltIsSoFar(sides, g, done, tree, parents, ms0, added, ms);
    NamesAreBuilt(sides, g, tree, byStruct);
  }

  lemma GroupIsFresh(sides: seq<Team>, ms: map<MatchId, Spec>, g: Group, done: set<Group>)
    requires IsDirection(g) && g !in done && IsSoFar(sides, ms, done)
    ensures forall id | id in ms :: id.group != g
  {
    forall id | id in ms ensures id.group != g {
      assert HasPlace(sides, id, done);
    }
  }

  /** Every played match of a bracket built so far is in the plan. */
  lemma MatchIsThere(sides: seq<Team>, ms: map<MatchId, Spec>, p: Group, r: nat, j: nat, done: set<Group>)
    requires IsSoFar(sides, ms, done) && (p == East || (p in done && IsDirection(p) && TreeOf(sides, p).Some?))
    requires MatchIn(sides, p, r, j)
    ensures IdOf(sides, p, r, j) in ms
  {
    if p == East {
      assert EastIn(sides, ms, r, j, done);
    } else {
      DirectionWasRight(sides, ms, done, p, r, j);
    }
  }

  lemma DropsHaveParents(sides: seq<Team>, ms0: map<MatchId, Spec>, ms1: map<MatchId, Spec>, g: Group, tree: ConsTree,
                         parents: seq<Option<MatchId>>, done: set<Group>)
    requires MayBuild(sides, g, done) && AreParents(sides, g, parents) && IsSoFar(sides, ms0, done)
    requires TreeOf(sides, g).Some? && IsTree(TreeOf(sides, g).value, tree)
    requires Added(ms0, ms1, g, tree.matches)
    ensures forall s | s in tree.drops :: s < |parents| && parents[s].Some? && parents[s].value in ms1
  {
    var (p, r) := ParentOf(g);
    forall s | s in tree.drops ensures s < |parents| && parents[s].Some? && parents[s].value in ms1 {
      DropIsNamed(sides, g, tree, s);
      DroppingAt(sides, g, s);
      ParentSlot(sides, g, parents, s);
      MatchIsThere(sides, ms0, p, r, s, done);
    }
  }

  lemma NamesAreBuilt(sides: seq<Team>, g: Group, tree: ConsTree, byStruct: map<Coord, MatchId>)
    requires IsDirection(g) && TreeOf(sides, g).Some? && IsTree(TreeOf(sides, g).value, tree)
    requires byStruct.Keys == tree.matches.Keys && forall c | c in tree.matches :: byStruct[c] == NodeId(g, tree.matches[c])
    ensures IsBuilt(sides, g, Built(byStruct, tree.structRounds))
  {
    forall c | c in byStruct ensures byStruct[c] == IdOf(sides, g, c.round, c.slot) {
      NodeIsNamed(sides, g, tree, c);
    }
  }

  lemma EastParent(sides: seq<Team>, ms: map<MatchId, Spec>, r: nat, j: nat, done: set<Group>)
    requires 1 <= r < Rounds(sides) && j < Pow2(Rounds(sides) - r) && IsSoFar(sides, ms, done)
    ensures EastRead(sides, ms, r, j)
  {
    assert Bracket.ValidCoord(Rounds(sides), r, j);
    assert EastIn(sides, ms, r, j, done);
  }

  /** eastAt: the East matches of round `r` a bye did not resolve. */
  method ReadEast(ms: map<MatchId, Spec>, r: nat, cnt: nat) returns (parents: seq<Option<MatchId>>)
    requires forall j: nat | j < cnt :: MatchId(East, r, j) in ms
    ensures |parents| == cnt
    ensures forall j: nat | j < cnt ::
              parents[j] == if ms[MatchId(East, r, j)].resolvedWinner.Some? then None else Some(MatchId(East, r, j))
  {
    parents := [];
    for j := 0 to cnt
      invariant |parents| == j
      invariant forall x: nat | x < j ::
                  parents[x] == if ms[MatchId(East, r, x)].resolvedWinner.Some? then None else Some(MatchId(East, r, x))
    {
      var id := MatchId(East, r, j);
      parents := parents + [if ms[id].resolvedWinner.Some? then None else Some(id)];
    }
  }

  method EastParents(ghost sides: seq<Team>, ms: map<MatchId, Spec>, g: Group, r: nat, cnt: nat, ghost done: set<Group>)
    returns (parents: seq<Option<MatchId>>)
    requires IsDirection(g) && ParentOf(g) == (East, r) && 1 <= r < Rounds(sides) && cnt == Pow2(Rounds(sides) - r)
    requires IsSoFar(sides, ms, done)
    ensures AreParents(sides, g, parents)
  {
    forall j: nat | j < cnt ensures EastRead(sides, ms, r, j) && MatchId(East, r, j) in ms {
      EastParent(sides, ms, r, j, done);
    }
    parents := ReadEast(ms, r, cnt);
    EastAreParents(sides, ms, g, r, parents);
  }

  ghost predicate EastRead(sides: seq<Team>, ms: map<MatchId, Spec>, r: nat, j: nat) {
    var id := MatchId(East, r, j);
    id in ms && (ms[id].resolvedWinner.None? <==> MatchIn(sides, East, r, j))
  }

  lemma EastAreParents(sides: seq<Team>, ms: map<MatchId, Spec>, g: Group, r: nat, parents: seq<Option<MatchId>>)
    requires IsDirection(g) && ParentOf(g) == (East, r) && 1 <= r < Rounds(sides) && |parents| == Pow2(Rounds(sides) - r)
    requires forall j: nat | j < |parents| :: EastRead(sides, ms, r, j)
    requires forall j: nat | j < |parents| ::
               MatchId(East, r, j) in ms
               && parents[j] == if ms[MatchId(East, r, j)].resolvedWinner.Some? then None else Some(MatchId(East, r, j))
    ensures AreParents(sides, g, parents)
  {
    forall j | 0 <= j < |parents|
      ensures parents[j] == if MatchIn(sides, East, r, j) then Some(IdOf(sides, East, r, j)) else None
    {
      assert EastRead(sides, ms, r, j);
    }
  }

  /** secAt: the matches of a direction's round `r`, in coordinates before renumbering. */
  method ReadDirection(b: Built, r: nat) returns (parents: seq<Option<MatchId>>)
    requires r <= b.structRounds
    ensures |parents| == Pow2(b.structRounds - r)
    ensures forall j: nat | j < |parents| ::
              parents[j] == if Coord(r, j) in b.byStruct then Some(b.byStruct[Coord(r, j)]) else None
  {
    var cnt := Pow2(b.structRounds) / Pow2(r);
    Pow2Quotient(b.structRounds, r);
    parents := [];
    for j := 0 to cnt
      invariant |parents| == j
      invariant forall x: nat | x < j ::
                  parents[x] == if Coord(r, x) in b.byStruct then Some(b.byStruct[Coord(r, x)]) else None
    {
      var c := Coord(r, j);
      parents := parents + [if c in b.byStruct then Some(b.byStruct[c]) else None];
    }
  }

  method DirectionParents(ghost sides: seq<Team>, g: Group, ghost p: Group, b: Built, r: nat)
    returns (parents: seq<Option<MatchId>>)
    requires IsDirection(g) && IsDirection(p) && ParentOf(g) == (p, r) && IsBuilt(sides, p, b) && r < b.structRounds
    ensures AreParents(sides, g, parents)
  {
    parents := ReadDirection(b, r);
    DirectionAreParents(sides, g, p, b, r, parents);
  }

  lemma DirectionAreParents(sides: seq<Team>, g: Group, p: Group, b: Built, r: nat, parents: seq<Option<MatchId>>)
    requires IsDirection(g) && IsDirection(p) && ParentOf(g) == (p, r) && IsBuilt(sides, p, b) && r < b.structRounds
    requires |parents| == Pow2(b.structRounds - r)
    requires forall j: nat | j < |parents| ::
               parents[j] == if Coord(r, j) in b.byStruct then Some(b.byStruct[Coord(r, j)]) else None
    ensures AreParents(sides, g, parents)
  {
    forall j | 0 <= j < |parents|
      ensures parents[j] == if MatchIn(sides, p, r, j) then Some(IdOf(sides, p, r, j)) else None
    {
      DirectionParent(sides, p, b, r, j);
    }
  }

  lemma DirectionParent(sides: seq<Team>, p: Group, b: Built, r: nat, j: nat)
    requires IsDirection(p) && IsBuilt(sides, p, b)
    ensures Coord(r, j) in b.byStruct <==> MatchIn(sides, p, r, j)
    ensures Coord(r, j) in b.byStruct ==> b.byStruct[Coord(r, j)] == IdOf(sides, p, r, j)
  {
  }

  datatype CompassPlan = CompassPlan(size: nat, matches: map<MatchId, Spec>)

  /** The directions East rounds before `r` feed. */
  ghost function EastDone(r: nat): set<Group> {
    set x | 1 <= x < r :: CompassGroup(x)
  }

  /** Every direction a compass of `k` East rounds can have. */
  ghost function AllDirections(k: nat): set<Group> {
    EastDone(k) + {South} + {Southwest} + {Northwest} + {Southeast}
  }

  ghost predicate IsCompass(sides: seq<Team>, plan: CompassPlan) {
    plan.size == Pow2(Rounds(sides)) && IsSoFar(sides, plan.matches, AllDirections(Rounds(sides)))
  }

  method TagEast(ghost sides: seq<Team>, east: Bracket.BracketPlan) returns (ms: map<MatchId, Spec>)
    requires Bracket.IsBracket(sides, east)
    ensures IsSoFar(sides, ms, {})
  {
    ms := SingleElimination.Tag(east, East, NoFeed);
    SingleElimination.SpecsAreSpecs(sides, east, East, NoFeed);
    forall r: nat, s: nat {:trigger EastIn(sides, ms, r, s, {})} | Bracket.ValidCoord(Rounds(sides), r, s)
      ensures EastIn(sides, ms, r, s, {})
    {
      assert LoseFeed(sides, East, r, s, {}) == NoFeed;
    }
  }

  /** A sideways feed: from a direction that formed and has a round after `r`, or nothing. */
  method FeedSideways(ghost sides: seq<Team>, ms0: map<MatchId, Spec>, g: Group, ghost p: Group, parent: Option<Built>,
                      r: nat, ghost done: set<Group>)
    returns (ms: map<MatchId, Spec>, built: Option<Built>)
    requires IsDirection(g) && IsDirection(p) && ParentOf(g) == (p, r) && g !in done
    requires parent.Some? <==> TreeOf(sides, p).Some?
    requires parent.Some? ==> IsBuilt(sides, p, parent.value) && p in done
    requires forall d | d in done && IsDirection(d) :: ParentOf(d).0 != g
    requires IsSoFar(sides, ms0, done)
    ensures IsSoFar(sides, ms, done + {g})
    ensures built.Some? <==> TreeOf(sides, g).Some?
    ensures built.Some? ==> IsBuilt(sides, g, built.value)
  {
    if parent.Some? && parent.value.structRounds > r {
      var parents := DirectionParents(sides, g, p, parent.value, r);
      ms, built := FeedFrom(sides, ms0, g, parents, done);
    } else {
      NoTreeNoChange(sides, ms0, g, done);
      ms, built := ms0, None;
    }
  }

  /** The losers of one East round feed their direction. */
  method FeedEastRound(ghost sides: seq<Team>, ms0: map<MatchId, Spec>, size: nat, rounds: nat, r: nat)
    returns (ms: map<MatchId, Spec>, e: Option<Built>)
    requires rounds == Rounds(sides) && size == Pow2(rounds) && 1 <= r < rounds && IsSoFar(sides, ms0, EastDone(r))
    ensures IsSoFar(sides, ms, EastDone(r + 1))
    ensures e.Some? <==> TreeOf(sides, CompassGroup(r)).Some?
    ensures e.Some? ==> IsBuilt(sides, CompassGroup(r), e.value)
  {
    var g := CompassGroup(r);
    Pow2Quotient(rounds, r);
    EastDoneStep(r);
    var parents := EastParents(sides, ms0, g, r, size / Pow2(r), EastDone(r));
    ms, e := FeedFrom(sides, ms0, g, parents, EastDone(r));
  }

  /** East feeds: the losers of every round before the East final. */
  method FeedEast(ghost sides: seq<Team>, ms0: map<MatchId, Spec>, size: nat, rounds: nat)
    returns (ms: map<MatchId, Spec>, west: Option<Built>, north: Option<Built>)
    requires rounds == Rounds(sides) && size == Pow2(rounds) && IsSoFar(sides, ms0, {})
    ensures IsSoFar(sides, ms, EastDone(rounds))
    ensures west.Some? <==> TreeOf(sides, West).Some?
    ensures west.Some? ==> IsBuilt(sides, West, west.value)
    ensures north.Some? <==> TreeOf(sides, North).Some?
    ensures north.Some? ==> IsBuilt(sides, North, north.value)
  {
    ms, west, north := ms0, None, None;
    assert EastDone(1) == {};
    for r := 1 to rounds
      invariant IsSoFar(sides, ms, EastDone(r))
      invariant west.Some? <==> r > 1 && TreeOf(sides, West).Some?
      invariant west.Some? ==> IsBuilt(sides, West, west.value)
      invariant north.Some? <==> r > 2 && TreeOf(sides, North).Some?
      invariant north.Some? ==> IsBuilt(sides, North, north.value)
    {
      var e;
      ms, e := FeedEastRound(sides, ms, size, rounds, r);
      if r == 1 {
        west := e;
      } else if r == 2 {
        north := e;
      }
    }
  }

  lemma EastDoneStep(r: nat)
    requires r >= 1
    ensures IsDirection(CompassGroup(r)) && ParentOf(CompassGroup(r)) == (East, r)
    ensures CompassGroup(r) !in EastDone(r) && EastDone(r + 1) == EastDone(r) + {CompassGroup(r)}
    ensures forall d | d in EastDone(r) && IsDirection(d) :: ParentOf(d).0 == East
  {
  }

  lemma EastOnly(k: nat)
    ensures forall d | d in EastDone(k) && IsDirection(d) :: ParentOf(d).0 == East
    ensures South !in EastDone(k) && Southwest !in EastDone(k) && Northwest !in EastDone(k) && Southeast !in EastDone(k)
    ensures k > 1 ==> West in EastDone(k)
    ensures k > 2 ==> North in EastDone(k)
  {
    if k > 1 {
      assert CompassGroup(1) == West;
    }
    if k > 2 {
      assert CompassGroup(2) == North;
    }
  }

  /** The directions that directions feed. */
  method FeedSecond(ghost sides: seq<Team>, ms0: map<MatchId, Spec>, west: Option<Built>, north: Option<Built>, ghost k: nat)
    returns (ms: map<MatchId, Spec>)
    requires k == Rounds(sides) && IsSoFar(sides, ms0, EastDone(k))
    requires west.Some? <==> TreeOf(sides, West).Some?
    requires west.Some? ==> IsBuilt(sides, West, west.value) && k > 1
    requires north.Some? <==> TreeOf(sides, North).Some?
    requires north.Some? ==> IsBuilt(sides, North, north.value) && k > 2
    ensures IsSoFar(sides, ms, AllDirections(k))
  {
    var south, other;
    ms, south := FeedFromWest(sides, ms0, west, k);
    EastOnly(k);
    ghost var done := EastDone(k) + {South} + {Southwest};
    ms, other := FeedSideways(sides, ms, Northwest, North, north, 1, done);
    ms, other := FeedSideways(sides, ms, Southeast, South, south, 1, done + {Northwest});
  }

  method FeedFromWest(ghost sides: seq<Team>, ms0: map<MatchId, Spec>, west: Option<Built>, ghost k: nat)
    returns (ms: map<MatchId, Spec>, south: Option<Built>)
    requires k == Rounds(sides) && IsSoFar(sides, ms0, EastDone(k))
    requires west.Some? <==> TreeOf(sides, West).Some?
    requires west.Some? ==> IsBuilt(sides, West, west.value) && k > 1
    ensures IsSoFar(sides, ms, EastDone(k) + {South} + {Southwest})
    ensures south.Some? <==> TreeOf(sides, South).Some?
    ensures south.Some? ==> IsBuilt(sides, South, south.value)
  {
    EastOnly(k);
    var southwest;
    ms, south := FeedSideways(sides, ms0, South, West, west, 1, EastDone(k));
    ms, southwest := FeedSideways(sides, ms, Southwest, West, west, 2, EastDone(k) + {South});
  }

  method Generate(sides: seq<Team>) returns (plan: CompassPlan)
    ensures IsCompass(sides, plan)
  {
    var east := Bracket.Generate(sides);
    var ms := TagEast(sides, east);
    var west, north;
    ms, west, north := FeedEast(sides, ms, east.size, east.rounds);
    ms := FeedSecond(sides, ms, west, north, Rounds(sides));
    plan := CompassPlan(east.size, ms);
  }
}
