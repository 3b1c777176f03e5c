/** compass.go's buildConsolationTree and consolation.go's GenerateConsolation: the tree the
    losers of one round play down in, with byes skipped and rounds renumbered. */
module ConsolationTree {
  import opened Powers
  import opened Collapse
  import opened Coordinates
  import opened Draws
  import Relabel

  /** One emitted match, at its renumbered round, and the seat its winner takes.
      `feedsRound == 0` means the tree's final. */
  datatype ConsNode = ConsNode(round: nat, slot: nat, feedsRound: nat, feedsSlot: nat, feedsTeam: nat)

  /** Where a dropper enters the tree. */
  datatype ConsDrop = ConsDrop(round: nat, slot: nat, team: nat)

  /** `matches` is keyed by the coordinates before renumbering, `drops` by source slot. */
  datatype ConsTree = ConsTree(rounds: nat, structRounds: nat, matches: map<Coord, ConsNode>, drops: map<nat, ConsDrop>)

  // --- closed form --------------------------------------------------------------------------

  /** The match a producer's team plays next, once matches before (lr, j) have been handled. */
  predicate HandledBy(l: Landing, lr: nat, j: nat) {
    l.Lands? && Before(l.spot.round, l.spot.slot, lr, j)
  }

  function NodeSoFar(sh: Shape, c: Coord, lr: nat, j: nat): ConsNode
    requires sh.Valid() && Emitted(sh, c.round, c.slot)
  {
    var f := FeedFor(sh, Winner(c.round, c.slot));
    if HandledBy(f, lr, j) then ConsNode(c.round, c.slot, f.spot.round, f.spot.slot, f.spot.team)
    else ConsNode(c.round, c.slot, 0, 0, 0)
  }

  predicate Dropper(sh: Shape, s: nat)
    requires sh.Valid()
  {
    Producer(sh, Loser(Source(1, s)))
  }

  predicate DroppedSoFar(sh: Shape, s: nat, lr: nat, j: nat)
    requires sh.Valid()
  {
    Dropper(sh, s) && HandledBy(FeedFor(sh, Loser(Source(1, s))), lr, j)
  }

  ghost predicate NodeRight(sh: Shape, nodes: map<Coord, ConsNode>, c: Coord, lr: nat, j: nat)
    requires sh.Valid()
  {
    && (c in nodes <==> Emitted(sh, c.round, c.slot) && Before(c.round, c.slot, lr, j))
    && (c in nodes ==> nodes[c] == NodeSoFar(sh, c, lr, j))
  }

  ghost predicate NodesSoFar(sh: Shape, nodes: map<Coord, ConsNode>, lr: nat, j: nat)
    requires sh.Valid()
  {
    forall c: Coord :: NodeRight(sh, nodes, c, lr, j)
  }

  ghost predicate DropsSoFar(sh: Shape, drops: map<nat, ConsDrop>, lr: nat, j: nat)
    requires sh.Valid()
  {
    forall s: nat :: DropRight(sh, drops, s, lr, j)
  }

  /** How a producer's landing changes when match (lr, j) is handled. */
  lemma HandleStep(sh: Shape, t: Token, lr: nat, j: nat)
    requires sh.Valid() && ValidMatch(sh, lr, j) && Producer(sh, t)
    ensures Emitted(sh, lr, j) && t == In(sh, Spot(lr, j, 1)) ==> FeedFor(sh, t) == Lands(Spot(lr, j, 1))
    ensures Emitted(sh, lr, j) && t == In(sh, Spot(lr, j, 2)) ==> FeedFor(sh, t) == Lands(Spot(lr, j, 2))
    ensures HandledBy(FeedFor(sh, t), lr, j + 1) <==>
              HandledBy(FeedFor(sh, t), lr, j)
              || (Emitted(sh, lr, j) && (t == In(sh, Spot(lr, j, 1)) || t == In(sh, Spot(lr, j, 2))))
  {
    FeedIsRight(sh, t);
    if Emitted(sh, lr, j) {
      EachSideFedOnce(sh, Spot(lr, j, 1));
      EachSideFedOnce(sh, Spot(lr, j, 2));
    }
  }

  // --- the flow -----------------------------------------------------------------------------

  /** Note who plays on one side of match (lr, j): a dropper's drop, or an earlier winner's feed. */
  function RecordNode(nodes: map<Coord, ConsNode>, t: Token, x: Spot): map<Coord, ConsNode> {
    if t.Winner? && Coord(t.round, t.slot) in nodes then
      nodes[Coord(t.round, t.slot) :=
              nodes[Coord(t.round, t.slot)].(feedsRound := x.round, feedsSlot := x.slot, feedsTeam := x.team)]
    else nodes
  }

  function RecordDrop(drops: map<nat, ConsDrop>, t: Token, x: Spot): map<nat, ConsDrop> {
    if t.Loser? then drops[t.source.slot := ConsDrop(x.round, x.slot, x.team)] else drops
  }

  /** The nodes once match (lr, j) has been handled. */
  function NodesAfter(sh: Shape, nodes: map<Coord, ConsNode>, lr: nat, j: nat): map<Coord, ConsNode>
    requires sh.Valid() && ValidMatch(sh, lr, j)
  {
    if Emitted(sh, lr, j) then
      RecordNode(RecordNode(nodes[Coord(lr, j) := ConsNode(lr, j, 0, 0, 0)],
                            In(sh, Spot(lr, j, 1)), Spot(lr, j, 1)),
                 In(sh, Spot(lr, j, 2)), Spot(lr, j, 2))
    else nodes
  }

  function DropsAfter(sh: Shape, drops: map<nat, ConsDrop>, lr: nat, j: nat): map<nat, ConsDrop>
    requires sh.Valid() && ValidMatch(sh, lr, j)
  {
    if Emitted(sh, lr, j) then
      RecordDrop(RecordDrop(drops, In(sh, Spot(lr, j, 1)), Spot(lr, j, 1)), In(sh, Spot(lr, j, 2)), Spot(lr, j, 2))
    else drops
  }

  /** What recording does to one node. */
  lemma RecordsOneNode(nodes: map<Coord, ConsNode>, t: Token, x: Spot, c: Coord)
    requires c in nodes
    ensures RecordNode(nodes, t, x).Keys == nodes.Keys
    ensures RecordNode(nodes, t, x)[c] ==
            if t == Winner(c.round, c.slot)
            then nodes[c].(feedsRound := x.round, feedsSlot := x.slot, feedsTeam := x.team) else nodes[c]
  {
    assert c == Coord(c.round, c.slot);
  }

  lemma NodeAfterAt(sh: Shape, nodes: map<Coord, ConsNode>, lr: nat, j: nat, c: Coord)
    requires sh.Valid() && Emitted(sh, lr, j) && Coord(lr, j) !in nodes
    requires c in nodes ==> Emitted(sh, c.round, c.slot) && nodes[c] == NodeSoFar(sh, c, lr, j)
    requires c in nodes || c == Coord(lr, j)
    ensures c in NodesAfter(sh, nodes, lr, j)
    ensures NodesAfter(sh, nodes, lr, j)[c] == NodeSoFar(sh, c, lr, j + 1)
  {
    var a, b := In(sh, Spot(lr, j, 1)), In(sh, Spot(lr, j, 2));
    SidesDiffer(sh, lr, j);
    var n0 := nodes[Coord(lr, j) := ConsNode(lr, j, 0, 0, 0)];
    RecordsOneNode(n0, a, Spot(lr, j, 1), c);
    RecordsOneNode(RecordNode(n0, a, Spot(lr, j, 1)), b, Spot(lr, j, 2), c);
    HandleStep(sh, Winner(c.round, c.slot), lr, j);
    if c == Coord(lr, j) {
      OccupantIsEarlier(sh, Spot(lr, j, 1));
      OccupantIsEarlier(sh, Spot(lr, j, 2));
      FeedIsRight(sh, Winner(lr, j));
    }
  }

  lemma NodesAfterKeys(sh: Shape, nodes: map<Coord, ConsNode>, lr: nat, j: nat)
    requires sh.Valid() && ValidMatch(sh, lr, j)
    ensures NodesAfter(sh, nodes, lr, j).Keys == nodes.Keys + if Emitted(sh, lr, j) then {Coord(lr, j)} else {}
  {
  }

  lemma NodeStep(sh: Shape, nodes: map<Coord, ConsNode>, c: Coord, lr: nat, j: nat)
    requires sh.Valid() && ValidMatch(sh, lr, j) && NodeRight(sh, nodes, c, lr, j) && Coord(lr, j) !in nodes
    ensures NodeRight(sh, NodesAfter(sh, nodes, lr, j), c, lr, j + 1)
  {
    NodesAfterKeys(sh, nodes, lr, j);
    if Emitted(sh, lr, j) && (c in nodes || c == Coord(lr, j)) {
      NodeAfterAt(sh, nodes, lr, j, c);
    } else if c in nodes {
      HandleStep(sh, Winner(c.round, c.slot), lr, j);
    }
  }

  lemma NodesStep(sh: Shape, nodes: map<Coord, ConsNode>, lr: nat, j: nat)
    requires sh.Valid() && ValidMatch(sh, lr, j) && NodesSoFar(sh, nodes, lr, j)
    ensures NodesSoFar(sh, NodesAfter(sh, nodes, lr, j), lr, j + 1)
  {
    var after, next := NodesAfter(sh, nodes, lr, j), j + 1;
    assert NodeRight(sh, nodes, Coord(lr, j), lr, j);
    forall c: Coord ensures NodeRight(sh, after, c, lr, next) {
      assert NodeRight(sh, nodes, c, lr, j);
      NodeStep(sh, nodes, c, lr, j);
    }
  }

  /** What recording does to one drop. */
  lemma RecordsOneDrop(drops: map<nat, ConsDrop>, t: Token, x: Spot, s: nat)
    requires t.Loser? ==> t.source.round == 1
    ensures s in RecordDrop(drops, t, x) <==> s in drops || t == Loser(Source(1, s))
    ensures s in RecordDrop(drops, t, x) ==>
              RecordDrop(drops, t, x)[s] ==
              if t == Loser(Source(1, s)) then ConsDrop(x.round, x.slot, x.team) else drops[s]
  {
  }

  ghost predicate DropRight(sh: Shape, drops: map<nat, ConsDrop>, s: nat, lr: nat, j: nat)
    requires sh.Valid()
  {
    && (s in drops <==> DroppedSoFar(sh, s, lr, j))
    && (s in drops ==>
          var x := FeedFor(sh, Loser(Source(1, s))).spot;
          drops[s] == ConsDrop(x.round, x.slot, x.team))
  }

  lemma DropAfterAt(sh: Shape, drops: map<nat, ConsDrop>, lr: nat, j: nat, s: nat)
    requires sh.Valid() && sh.Lane? && ValidMatch(sh, lr, j) && DropRight(sh, drops, s, lr, j)
    ensures DropRight(sh, DropsAfter(sh, drops, lr, j), s, lr, j + 1)
  {
    var a, b := In(sh, Spot(lr, j, 1)), In(sh, Spot(lr, j, 2));
    if Emitted(sh, lr, j) {
      SidesDiffer(sh, lr, j);
      OccupantIsEarlier(sh, Spot(lr, j, 1));
      OccupantIsEarlier(sh, Spot(lr, j, 2));
      RecordsOneDrop(drops, a, Spot(lr, j, 1), s);
      RecordsOneDrop(RecordDrop(drops, a, Spot(lr, j, 1)), b, Spot(lr, j, 2), s);
    }
    if Dropper(sh, s) {
      HandleStep(sh, Loser(Source(1, s)), lr, j);
    }
  }

  lemma DropsStep(sh: Shape, drops: map<nat, ConsDrop>, lr: nat, j: nat)
    requires sh.Valid() && sh.Lane? && ValidMatch(sh, lr, j) && DropsSoFar(sh, drops, lr, j)
    ensures DropsSoFar(sh, DropsAfter(sh, drops, lr, j), lr, j + 1)
  {
    var after, next := DropsAfter(sh, drops, lr, j), j + 1;
    forall s: nat ensures DropRight(sh, after, s, lr, next) {
      assert DropRight(sh, drops, s, lr, j);
      DropAfterAt(sh, drops, lr, j, s);
    }
  }

  // --- the token lane -----------------------------------------------------------------------

  /** The token in lane position `i` after `r` rounds. */
  function LaneToken(sh: Shape, r: nat, i: nat): Token
    requires sh.Valid() && sh.Lane? && r <= sh.depth && i < Pow2(sh.depth - r)
  {
    if r == 0 then (if sh.alive[i] then Loser(Source(1, i)) else Bye) else OutOf(sh, r, i)
  }

  lemma LaneFeeds(sh: Shape, r: nat, j: nat)
    requires sh.Valid() && sh.Lane? && 1 <= r <= sh.depth && j < Pow2(sh.depth - r)
    ensures Pow2(sh.depth - (r - 1)) == 2 * Pow2(sh.depth - r) && ValidMatch(sh, r, j)
    ensures In(sh, Spot(r, j, 1)) == LaneToken(sh, r - 1, 2 * j)
    ensures In(sh, Spot(r, j, 2)) == LaneToken(sh, r - 1, 2 * j + 1)
  {
  }

  /** How many tokens of a lane are real. */
  function Live(tokens: seq<Token>): nat {
    if tokens == [] then 0 else Live(tokens[..|tokens| - 1]) + if tokens[|tokens| - 1] == Bye then 0 else 1
  }

  lemma {:induction false} LiveOfTail(tokens: seq<Token>, i: nat)
    requires i < |tokens|
    ensures Live(tokens[i..]) == (if tokens[i] == Bye then 0 else 1) + Live(tokens[i + 1..])
    decreases |tokens| - i
  {
    var tail, rest := tokens[i..], tokens[i + 1..];
    if i == |tokens| - 1 {
      assert tail == [tokens[i]] && tail[..0] == [];
    } else {
      var front := tokens[..|tokens| - 1];
      LiveOfTail(front, i);
      assert tail[..|tail| - 1] == front[i..] && rest[..|rest| - 1] == front[i + 1..];
    }
  }

  lemma LivePush(tokens: seq<Token>, t: Token)
    ensures Live(tokens + [t]) == Live(tokens) + if t == Bye then 0 else 1
  {
    assert (tokens + [t])[..|tokens|] == tokens;
  }

  function Droppers(alive: seq<bool>): nat {
    if alive == [] then 0 else Droppers(alive[..|alive| - 1]) + if alive[|alive| - 1] then 1 else 0
  }

  lemma {:induction false} DroppersAreLive(alive: seq<bool>, tokens: seq<Token>)
    requires |alive| == |tokens| && forall i | 0 <= i < |alive| :: alive[i] <==> tokens[i] != Bye
    ensures Droppers(alive) == Live(tokens)
  {
    if alive != [] {
      DroppersAreLive(alive[..|alive| - 1], tokens[..|tokens| - 1]);
    }
  }

  /** What one round of the lane leaves: the tokens of the next lane, and the matches emitted. */
  ghost predicate RoundSoFar(sh: Shape, cur: seq<Token>, next: seq<Token>, nodes: map<Coord, ConsNode>,
                             drops: map<nat, ConsDrop>, r: nat, j: nat)
    requires sh.Valid() && sh.Lane? && 1 <= r <= sh.depth
  {
    && |cur| == 2 * Pow2(sh.depth - r) && |next| == j <= Pow2(sh.depth - r)
    && (forall i | 0 <= i < |cur| :: i < Pow2(sh.depth - (r - 1)) && cur[i] == LaneToken(sh, r - 1, i))
    && (forall i | 0 <= i < |next| :: next[i] == LaneToken(sh, r, i))
    && NodesSoFar(sh, nodes, r, j) && DropsSoFar(sh, drops, r, j)
    && Live(next) + Live(cur[2 * j..]) + |nodes| == Droppers(sh.alive)
  }

  /** One pair handled: its match, if it is one, with its drops and feeds, and the token that goes on. */
  method HandlePair(ghost sh: Shape, a: Token, b: Token, nodes0: map<Coord, ConsNode>, drops0: map<nat, ConsDrop>,
                    r: nat, j: nat)
    returns (out: Token, nodes: map<Coord, ConsNode>, drops: map<nat, ConsDrop>)
    requires sh.Valid() && ValidMatch(sh, r, j) && a == In(sh, Spot(r, j, 1)) && b == In(sh, Spot(r, j, 2))
    ensures out == OutOf(sh, r, j)
    ensures nodes == NodesAfter(sh, nodes0, r, j) && drops == DropsAfter(sh, drops0, r, j)
  {
    nodes, drops := nodes0, drops0;
    out := Bye;
    if a == Bye && b == Bye {
    } else if a == Bye {
      out := b;
    } else if b == Bye {
      out := a;
    } else {
      nodes := nodes[Coord(r, j) := ConsNode(r, j, 0, 0, 0)];
      nodes, drops := RecordNode(nodes, a, Spot(r, j, 1)), RecordDrop(drops, a, Spot(r, j, 1));
      nodes, drops := RecordNode(nodes, b, Spot(r, j, 2)), RecordDrop(drops, b, Spot(r, j, 2));
      out := Winner(r, j);
    }
  }

  /** A pair of real tokens becomes one token and one match; otherwise nothing real is lost or gained. */
  lemma PairCounts(sh: Shape, cur: seq<Token>, before: seq<Token>, nodes0: map<Coord, ConsNode>, r: nat, j: nat)
    requires sh.Valid() && ValidMatch(sh, r, j) && Coord(r, j) !in nodes0 && 2 * j + 1 < |cur|
    requires cur[2 * j] == In(sh, Spot(r, j, 1)) && cur[2 * j + 1] == In(sh, Spot(r, j, 2))
    ensures Live(before + [OutOf(sh, r, j)]) + Live(cur[2 * (j + 1)..]) + |NodesAfter(sh, nodes0, r, j)|
      == Live(before) + Live(cur[2 * j..]) + |nodes0|
  {
    NodesAfterCount(sh, nodes0, r, j);
    LiveOfTail(cur, 2 * j);
    LiveOfTail(cur, 2 * j + 1);
    LivePush(before, OutOf(sh, r, j));
  }

  lemma NodesAfterCount(sh: Shape, nodes0: map<Coord, ConsNode>, r: nat, j: nat)
    requires sh.Valid() && ValidMatch(sh, r, j) && Coord(r, j) !in nodes0
    ensures |NodesAfter(sh, nodes0, r, j)| == |nodes0| + if Emitted(sh, r, j) then 1 else 0
  {
    var after := NodesAfter(sh, nodes0, r, j);
    NodesAfterKeys(sh, nodes0, r, j);
    assert |after| == |after.Keys| && |nodes0| == |nodes0.Keys|;
  }

  /** Two neighbouring tokens meet, or a lone one skips up. */
  method MeetPair(ghost sh: Shape, cur: seq<Token>, before: seq<Token>, nodes0: map<Coord, ConsNode>,
                  drops0: map<nat, ConsDrop>, r: nat, j: nat)
    returns (next: seq<Token>, nodes: map<Coord, ConsNode>, drops: map<nat, ConsDrop>)
    requires sh.Valid() && sh.Lane? && 1 <= r <= sh.depth && j < Pow2(sh.depth - r)
    requires RoundSoFar(sh, cur, before, nodes0, drops0, r, j)
    ensures RoundSoFar(sh, cur, next, nodes, drops, r, j + 1)
  {
    LaneFeeds(sh, r, j);
    NodesStep(sh, nodes0, r, j);
    DropsStep(sh, drops0, r, j);
    assert NodeRight(sh, nodes0, Coord(r, j), r, j);
    PairCounts(sh, cur, before, nodes0, r, j);
    var out;
    out, nodes, drops := HandlePair(sh, cur[2 * j], cur[2 * j + 1], nodes0, drops0, r, j);
    next := before + [out];
  }

  lemma NextRound(sh: Shape, nodes: map<Coord, ConsNode>, drops: map<nat, ConsDrop>, r: nat)
    requires sh.Valid() && sh.Lane? && 1 <= r <= sh.depth
    requires NodesSoFar(sh, nodes, r, Pow2(sh.depth - r)) && DropsSoFar(sh, drops, r, Pow2(sh.depth - r))
    ensures NodesSoFar(sh, nodes, r + 1, 0) && DropsSoFar(sh, drops, r + 1, 0)
  {
    var w, n, z := Pow2(sh.depth - r), r + 1, 0;
    forall c: Coord ensures NodeRight(sh, nodes, c, n, z) {
      assert NodeRight(sh, nodes, c, r, w);
      if Emitted(sh, c.round, c.slot) {
        FeedIsRight(sh, Winner(c.round, c.slot));
      }
    }
    forall s: nat ensures DropRight(sh, drops, s, n, z) {
      assert DropRight(sh, drops, s, r, w);
      if Dropper(sh, s) {
        FeedIsRight(sh, Loser(Source(1, s)));
      }
    }
  }

  lemma NothingYet(sh: Shape)
    requires sh.Valid()
    ensures NodesSoFar(sh, map[], 1, 0) && DropsSoFar(sh, map[], 1, 0)
  {
    var nodes: map<Coord, ConsNode>, drops: map<nat, ConsDrop>, z := map[], map[], 0;
    forall s: nat ensures DropRight(sh, drops, s, 1, z) {
      if Dropper(sh, s) {
        FeedIsRight(sh, Loser(Source(1, s)));
      }
    }
  }

  /** The token flow up a lane of 2^depth positions: d droppers play exactly d - 1 matches. */
  method FlowLane(alive: seq<bool>, depth: nat) returns (nodes: map<Coord, ConsNode>, drops: map<nat, ConsDrop>)
    requires depth >= 1 && |alive| == Pow2(depth)
    ensures var sh := Lane(depth, alive);
            NodesSoFar(sh, nodes, depth + 1, 0) && DropsSoFar(sh, drops, depth + 1, 0)
    ensures |nodes| == if Droppers(alive) == 0 then 0 else Droppers(alive) - 1
  {
    ghost var sh := Lane(depth, alive);
    var cur: seq<Token> := [];
    for i := 0 to |alive|
      invariant |cur| == i && forall x | 0 <= x < i :: cur[x] == if alive[x] then Loser(Source(1, x)) else Bye
    {
      cur := cur + [if alive[i] then Loser(Source(1, i)) else Bye];
    }
    DroppersAreLive(alive, cur);
    NothingYet(sh);
    nodes, drops := map[], map[];
    for r := 1 to depth + 1
      invariant |cur| == Pow2(depth - (r - 1))
      invariant forall i | 0 <= i < |cur| :: cur[i] == LaneToken(sh, r - 1, i)
      invariant NodesSoFar(sh, nodes, r, 0) && DropsSoFar(sh, drops, r, 0)
      invariant Live(cur) + |nodes| == Droppers(alive)
    {
      cur, nodes, drops := FlowRound(sh, cur, nodes, drops, r);
    }
    LaneTop(sh, cur, nodes);
  }

  /** One round: the lane halves. */
  method FlowRound(ghost sh: Shape, cur: seq<Token>, nodes0: map<Coord, ConsNode>, drops0: map<nat, ConsDrop>, r: nat)
    returns (next: seq<Token>, nodes: map<Coord, ConsNode>, drops: map<nat, ConsDrop>)
    requires sh.Valid() && sh.Lane? && 1 <= r <= sh.depth && |cur| == Pow2(sh.depth - (r - 1))
    requires forall i | 0 <= i < |cur| :: cur[i] == LaneToken(sh, r - 1, i)
    requires NodesSoFar(sh, nodes0, r, 0) && DropsSoFar(sh, drops0, r, 0)
    requires Live(cur) + |nodes0| == Droppers(sh.alive)
    ensures |next| == Pow2(sh.depth - r)
    ensures forall i | 0 <= i < |next| :: next[i] == LaneToken(sh, r, i)
    ensures NodesSoFar(sh, nodes, r + 1, 0) && DropsSoFar(sh, drops, r + 1, 0)
    ensures Live(next) + |nodes| == Droppers(sh.alive)
  {
    next, nodes, drops := [], nodes0, drops0;
    assert Pow2(sh.depth - (r - 1)) == 2 * Pow2(sh.depth - r);
    assert cur[0..] == cur;
    for j := 0 to |cur| / 2
      invariant RoundSoFar(sh, cur, next, nodes, drops, r, j)
    {
      next, nodes, drops := MeetPair(sh, cur, next, nodes, drops, r, j);
    }
    assert cur[|cur|..] == [];
    NextRound(sh, nodes, drops, r);
  }

  lemma LaneTop(sh: Shape, cur: seq<Token>, nodes: map<Coord, ConsNode>)
    requires sh.Valid() && sh.Lane? && |cur| == 1 && cur[0] == LaneToken(sh, sh.depth, 0)
    requires NodesSoFar(sh, nodes, sh.depth + 1, 0)
    requires Live(cur) + |nodes| == Droppers(sh.alive)
    ensures |nodes| == if Droppers(sh.alive) == 0 then 0 else Droppers(sh.alive) - 1
  {
    assert cur[..0] == [];
    if cur[0] == Bye {
      forall c | c in nodes ensures false {
        assert NodeRight(sh, nodes, c, sh.depth + 1, 0);
        ChampionHasWon(sh, c.round, c.slot);
      }
      assert nodes == map[];
    }
  }

  // --- renumbering --------------------------------------------------------------------------

  function RoundsOf(nodes: map<Coord, ConsNode>): set<nat> {
    set c | c in nodes :: c.round
  }

  function RenumberNode(present: set<nat>, n: ConsNode): ConsNode {
    n.(round := Relabel.Rank(present, n.round),
       feedsRound := if n.feedsRound != 0 then Relabel.Rank(present, n.feedsRound) else 0)
  }

  function RenumberDrop(present: set<nat>, d: ConsDrop): ConsDrop {
    d.(round := Relabel.Rank(present, d.round))
  }

  /** Every round the flow wrote down is the round of an emitted match. */
  ghost predicate RoundsPresent(nodes: map<Coord, ConsNode>, drops: map<nat, ConsDrop>) {
    && (forall c | c in nodes :: nodes[c].round in RoundsOf(nodes)
          && (nodes[c].feedsRound != 0 ==> nodes[c].feedsRound in RoundsOf(nodes)))
    && (forall s | s in drops :: drops[s].round in RoundsOf(nodes))
  }

  /** Every round written down has a new number. */
  predicate NodeMapped(remap: map<nat, nat>, n: ConsNode) {
    n.round in remap && (n.feedsRound != 0 ==> n.feedsRound in remap)
  }

  function MapNode(remap: map<nat, nat>, n: ConsNode): ConsNode
    requires NodeMapped(remap, n)
  {
    n.(round := remap[n.round], feedsRound := if n.feedsRound != 0 then remap[n.feedsRound] else 0)
  }

  method RenumberNodes(nodes0: map<Coord, ConsNode>, remap: map<nat, nat>) returns (nodes: map<Coord, ConsNode>)
    requires forall c | c in nodes0 :: NodeMapped(remap, nodes0[c])
    ensures nodes.Keys == nodes0.Keys
    ensures forall c | c in nodes :: nodes[c] == MapNode(remap, nodes0[c])
  {
    nodes := nodes0;
    var rest := nodes0.Keys;
    while rest != {}
      invariant rest <= nodes0.Keys && nodes.Keys == nodes0.Keys
      invariant forall c | c in nodes && c in rest :: nodes[c] == nodes0[c]
      invariant forall c | c in nodes && c !in rest :: nodes[c] == MapNode(remap, nodes0[c])
      decreases rest
    {
      var c :| c in rest;
      var n := nodes[c];
      n := n.(round := remap[n.round]);
      if n.feedsRound != 0 {
        n := n.(feedsRound := remap[n.feedsRound]);
      }
      nodes := nodes[c := n];
      rest := rest - {c};
    }
  }

  method RenumberDrops(drops0: map<nat, ConsDrop>, remap: map<nat, nat>) returns (drops: map<nat, ConsDrop>)
    requires forall s | s in drops0 :: drops0[s].round in remap
    ensures drops.Keys == drops0.Keys
    ensures forall s | s in drops :: drops[s] == drops0[s].(round := remap[drops0[s].round])
  {
    drops := drops0;
    var rest := drops0.Keys;
    while rest != {}
      invariant rest <= drops0.Keys && drops.Keys == drops0.Keys
      invariant forall s | s in drops && s in rest :: drops[s] == drops0[s]
      invariant forall s | s in drops && s !in rest :: drops[s] == drops0[s].(round := remap[drops0[s].round])
      decreases rest
    {
      var s :| s in rest;
      drops := drops[s := drops[s].(round := remap[drops[s].round])];
      rest := rest - {s};
    }
  }

  // --- the trees ----------------------------------------------------------------------------

  /** The feed of a landing in tree `present`, at its renumbered round. */
  ghost predicate IsTree(sh: Shape, tree: ConsTree)
    requires sh.Valid() && sh.Lane?
  {
    var present := RoundsOf(tree.matches);
    && tree.structRounds == sh.depth && tree.rounds == |present|
    && (forall c {:trigger c in tree.matches} :: c in tree.matches <==> Emitted(sh, c.round, c.slot))
    && (forall c | c in tree.matches ::
          tree.matches[c] == RenumberNode(present, NodeSoFar(sh, c, sh.depth + 1, 0)))
    && (forall s {:trigger s in tree.drops} ::
          s in tree.drops <==> Dropper(sh, s) && FeedFor(sh, Loser(Source(1, s))).Lands?)
    && (forall s | s in tree.drops ::
          var x := FeedFor(sh, Loser(Source(1, s))).spot;
          tree.drops[s] == ConsDrop(Relabel.Rank(present, x.round), x.slot, x.team))
  }

  /** The name of match (r, j) of the tree tagged `g`, at its renumbered round. */
  function NameIn(g: Group, sh: Shape, r: nat, j: nat): MatchId
    requires sh.Valid() && sh.Lane?
  {
    MatchId(g, Relabel.Rank(EmittedRounds(sh), r), j)
  }

  /** A landing in that tree as a feed; the top leads nowhere. */
  function LandingIn(g: Group, sh: Shape, l: Landing): Feed
    requires sh.Valid() && sh.Lane?
  {
    match l
    case Lands(x) => To(Entry(NameIn(g, sh, x.round, x.slot), x.team))
    case Top => NoFeed
  }

  /** Renumbering gives every match of a tree its own name. */
  lemma NameInjective(g: Group, sh: Shape, r: nat, j: nat, r': nat, j': nat)
    requires sh.Valid() && sh.Lane? && Emitted(sh, r, j) && Emitted(sh, r', j')
    requires NameIn(g, sh, r, j) == NameIn(g, sh, r', j')
    ensures r == r' && j == j'
  {
    EmittedRoundPresent(sh, r, j);
    EmittedRoundPresent(sh, r', j');
    Relabel.RankKeepsOrder(EmittedRounds(sh), r, r');
  }

  lemma RoundsAgree(sh: Shape, tree: ConsTree)
    requires sh.Valid() && sh.Lane? && IsTree(sh, tree)
    ensures RoundsOf(tree.matches) == EmittedRounds(sh)
  {
    forall r ensures r in RoundsOf(tree.matches) <==> r in EmittedRounds(sh) {
      if r in RoundsOf(tree.matches) {
        var c :| c in tree.matches && c.round == r;
        EmittedRoundPresent(sh, c.round, c.slot);
      }
      if r in EmittedRounds(sh) {
        var j: nat :| 0 <= j < Pow2(sh.depth) && Emitted(sh, r, j);
        assert Coord(r, j) in tree.matches;
      }
    }
  }

  lemma FlowIsPresent(sh: Shape, nodes: map<Coord, ConsNode>, drops: map<nat, ConsDrop>)
    requires sh.Valid() && sh.Lane?
    requires NodesSoFar(sh, nodes, sh.depth + 1, 0) && DropsSoFar(sh, drops, sh.depth + 1, 0)
    ensures RoundsPresent(nodes, drops)
  {
    var n, z := sh.depth + 1, 0;
    forall c | c in nodes
      ensures nodes[c].round in RoundsOf(nodes) && (nodes[c].feedsRound != 0 ==> nodes[c].feedsRound in RoundsOf(nodes))
    {
      assert NodeRight(sh, nodes, c, n, z);
      FeedIsRight(sh, Winner(c.round, c.slot));
      if nodes[c].feedsRound != 0 {
        var x := FeedFor(sh, Winner(c.round, c.slot)).spot;
        assert NodeRight(sh, nodes, Coord(x.round, x.slot), n, z);
      }
    }
    forall s | s in drops ensures drops[s].round in RoundsOf(nodes) {
      assert DropRight(sh, drops, s, n, z);
      FeedIsRight(sh, Loser(Source(1, s)));
      var x := FeedFor(sh, Loser(Source(1, s))).spot;
      assert NodeRight(sh, nodes, Coord(x.round, x.slot), n, z);
    }
  }

  lemma FlowIsTree(sh: Shape, nodes: map<Coord, ConsNode>, drops: map<nat, ConsDrop>, tree: ConsTree)
    requires sh.Valid() && sh.Lane?
    requires NodesSoFar(sh, nodes, sh.depth + 1, 0) && DropsSoFar(sh, drops, sh.depth + 1, 0)
    requires tree.structRounds == sh.depth && tree.rounds == |RoundsOf(nodes)|
    requires tree.matches.Keys == nodes.Keys && tree.drops.Keys == drops.Keys
    requires forall c | c in nodes :: tree.matches[c] == RenumberNode(RoundsOf(nodes), nodes[c])
    requires forall s | s in drops :: tree.drops[s] == RenumberDrop(RoundsOf(nodes), drops[s])
    ensures IsTree(sh, tree)
  {
    var n, z := sh.depth + 1, 0;
    assert RoundsOf(tree.matches) == RoundsOf(nodes);
    forall c: Coord ensures c in tree.matches <==> Emitted(sh, c.round, c.slot)
    {
      assert NodeRight(sh, nodes, c, n, z);
    }
    forall c | c in tree.matches
      ensures tree.matches[c] == RenumberNode(RoundsOf(nodes), NodeSoFar(sh, c, sh.depth + 1, 0))
    {
      assert NodeRight(sh, nodes, c, n, z);
    }
    forall s: nat
      ensures s in tree.drops <==> Dropper(sh, s) && FeedFor(sh, Loser(Source(1, s))).Lands?
      ensures s in tree.drops ==>
        var x := FeedFor(sh, Loser(Source(1, s))).spot;
        tree.drops[s] == ConsDrop(Relabel.Rank(RoundsOf(nodes), x.round), x.slot, x.team)
    {
      assert DropRight(sh, drops, s, n, z);
      if Dropper(sh, s) {
        FeedIsRight(sh, Loser(Source(1, s)));
      }
    }
  }

  /** Lane positions that hold a dropper: real sources, padded with byes to a power of two. */
  function LaneOf(isBye: seq<bool>): (sh: Shape)
    requires |isBye| >= 2
    ensures sh.Valid()
  {
    var depth := CeilLog2(|isBye|);
    Lane(depth, seq(Pow2(depth), i requires 0 <= i => i < |isBye| && !isBye[i]))
  }

  /** Renumber the emitted rounds, and every feed and drop into them, onto 1..N. */
  method RenumberTree(nodes: map<Coord, ConsNode>, drops: map<nat, ConsDrop>, depth: nat) returns (tree: ConsTree)
    requires RoundsPresent(nodes, drops)
    ensures tree.structRounds == depth && tree.rounds == |RoundsOf(nodes)|
    ensures tree.matches.Keys == nodes.Keys && tree.drops.Keys == drops.Keys
    ensures forall c | c in nodes :: tree.matches[c] == RenumberNode(RoundsOf(nodes), nodes[c])
    ensures forall s | s in drops :: tree.drops[s] == RenumberDrop(RoundsOf(nodes), drops[s])
    ensures |tree.matches| == |nodes|
  {
    var present := RoundsOf(nodes);
    var remap := Relabel.Number(present);
    PresentIsMapped(nodes, drops, remap);
    var matches := RenumberNodes(nodes, remap);
    var entries := RenumberDrops(drops, remap);
    tree := ConsTree(|present|, depth, matches, entries);
    assert |matches.Keys| == |matches| && |nodes.Keys| == |nodes|;
  }

  /** Run the flow up a lane and renumber what it emitted. */
  method FlowAndRenumber(alive: seq<bool>, depth: nat) returns (tree: ConsTree)
    requires depth >= 1 && |alive| == Pow2(depth)
    ensures IsTree(Lane(depth, alive), tree)
    ensures |tree.matches| == if Droppers(alive) == 0 then 0 else Droppers(alive) - 1
  {
    ghost var sh := Lane(depth, alive);
    var nodes, drops := FlowLane(alive, depth);
    FlowIsPresent(sh, nodes, drops);
    tree := RenumberTree(nodes, drops, depth);
    FlowIsTree(sh, nodes, drops, tree);
  }

  lemma PresentIsMapped(nodes: map<Coord, ConsNode>, drops: map<nat, ConsDrop>, remap: map<nat, nat>)
    requires RoundsPresent(nodes, drops) && remap.Keys == RoundsOf(nodes)
    requires forall r | r in remap :: remap[r] == Relabel.Rank(RoundsOf(nodes), r)
    ensures forall c | c in nodes ::
              NodeMapped(remap, nodes[c]) && MapNode(remap, nodes[c]) == RenumberNode(RoundsOf(nodes), nodes[c])
    ensures forall s | s in drops ::
              drops[s].round in remap
              && drops[s].(round := remap[drops[s].round]) == RenumberDrop(RoundsOf(nodes), drops[s])
  {
    forall c | c in nodes
      ensures NodeMapped(remap, nodes[c]) && MapNode(remap, nodes[c]) == RenumberNode(RoundsOf(nodes), nodes[c])
    {
      NodeIsMapped(RoundsOf(nodes), nodes[c], remap);
    }
    forall s | s in drops
      ensures drops[s].round in remap
      ensures drops[s].(round := remap[drops[s].round]) == RenumberDrop(RoundsOf(nodes), drops[s])
    {
      assert drops[s].round in RoundsOf(nodes);
    }
  }

  lemma NodeIsMapped(present: set<nat>, n: ConsNode, remap: map<nat, nat>)
    requires n.round in present && (n.feedsRound != 0 ==> n.feedsRound in present) && remap.Keys == present
    requires forall r | r in remap :: remap[r] == Relabel.Rank(present, r)
    ensures NodeMapped(remap, n) && MapNode(remap, n) == RenumberNode(present, n)
  {
  }

  /** buildConsolationTree: nothing when fewer than two sources have a loser. */
  method Build(isBye: seq<bool>) returns (tree: Option<ConsTree>)
    ensures tree.Some? <==> |isBye| >= 2 && Droppers(LaneOf(isBye).alive) >= 2
    ensures tree.Some? ==> IsTree(LaneOf(isBye), tree.value)
    ensures tree.Some? ==> |tree.value.matches| == Droppers(LaneOf(isBye).alive) - 1
  {
    var count := |isBye|;
    if count < 2 {
      return None;
    }
    var lane := NextPow2(count);
    var structuralRounds := ILog2(lane);
    ghost var sh := LaneOf(isBye);
    ILog2OfPower(sh.depth, structuralRounds);
    var alive, realCount := FillLane(isBye, lane);
    if realCount < 2 {
      return None;
    }
    var built := FlowAndRenumber(alive, structuralRounds);
    tree := Some(built);
  }

  /** Seed the lane: one position per source, byes beyond the last one. */
  method FillLane(isBye: seq<bool>, lane: nat) returns (alive: seq<bool>, realCount: nat)
    requires |isBye| >= 2 && lane == Pow2(CeilLog2(|isBye|))
    ensures alive == LaneOf(isBye).alive && realCount == Droppers(alive)
  {
    ghost var all := LaneOf(isBye).alive;
    alive := [];
    realCount := 0;
    for i := 0 to lane
      invariant alive == all[..i] && realCount == Droppers(alive)
    {
      var dropper := i < |isBye| && !isBye[i];
      assert (alive + [dropper])[..i] == alive;
      assert dropper == all[i];
      alive := alive + [dropper];
      if dropper {
        realCount := realCount + 1;
      }
    }
    assert all[..lane] == all;
  }

  /** GenerateConsolation: the back-draw of a bracket of `size`, whose round-1 match `i` was a bye
      when `isBye[i]`. Below four entrants there is none. */
  method GenerateConsolation(size: nat, isBye: seq<bool>, ghost k: nat) returns (tree: ConsTree)
    requires size == Pow2(k) && |isBye| == size / 2
    ensures size < 4 ==> tree == ConsTree(0, 0, map[], map[])
    ensures size >= 4 ==> IsTree(LaneOf(isBye), tree)
    ensures size >= 4 ==>
              var d := Droppers(LaneOf(isBye).alive);
              |tree.matches| == if d == 0 then 0 else d - 1
  {
    var entrants := size / 2;
    if entrants < 2 {
      return ConsTree(0, 0, map[], map[]);
    }
    Halving(k, entrants);
    var structuralRounds := ILog2(entrants);
    ILog2OfPower(k - 1, structuralRounds);
    var alive, realCount := FillLane(isBye, entrants);
    tree := FlowAndRenumber(alive, structuralRounds);
  }

  lemma Halving(k: nat, half: nat)
    requires Pow2(k) / 2 == half >= 2
    ensures k >= 2 && half == Pow2(k - 1) && CeilLog2(half) == k - 1
  {
    assert k >= 1;
    assert Pow2(k) == 2 * Pow2(k - 1);
    assert k >= 2;
    CeilLog2Unique(half, k - 1);
  }

  // --- what the finished tree is ------------------------------------------------------------

  /** What brings a team into a seat of the tree. */
  datatype Filler = ByDrop(source: nat) | ByWinner(c: Coord)

  predicate Fills(tree: ConsTree, f: Filler, round: nat, slot: nat, team: nat) {
    match f
    case ByDrop(s) => s in tree.drops && tree.drops[s] == ConsDrop(round, slot, team)
    case ByWinner(c) =>
      && c in tree.matches && tree.matches[c].feedsRound != 0
      && tree.matches[c].feedsRound == round && tree.matches[c].feedsSlot == slot && tree.matches[c].feedsTeam == team
  }

  function FillerOf(t: Token): Filler
    requires t != Bye
  {
    if t.Loser? then ByDrop(t.source.slot) else ByWinner(Coord(t.round, t.slot))
  }

  function TokenOf(f: Filler): Token {
    match f
    case ByDrop(s) => Loser(Source(1, s))
    case ByWinner(c) => Winner(c.round, c.slot)
  }

  lemma FillerLands(sh: Shape, tree: ConsTree, f: Filler, c: Coord, team: nat)
    requires sh.Valid() && sh.Lane? && IsTree(sh, tree) && c in tree.matches
    requires Fills(tree, f, tree.matches[c].round, c.slot, team)
    ensures Producer(sh, TokenOf(f)) && FeedFor(sh, TokenOf(f)) == Lands(Spot(c.round, c.slot, team))
  {
    var present := RoundsOf(tree.matches);
    FeedIsRight(sh, TokenOf(f));
    var x := FeedFor(sh, TokenOf(f)).spot;
    assert Coord(x.round, x.slot) in tree.matches;
    Relabel.RankKeepsOrder(present, x.round, c.round);
  }

  lemma LandingFills(sh: Shape, tree: ConsTree, t: Token)
    requires sh.Valid() && sh.Lane? && IsTree(sh, tree) && Producer(sh, t) && FeedFor(sh, t).Lands?
    ensures var x := FeedFor(sh, t).spot;
            && Coord(x.round, x.slot) in tree.matches
            && Fills(tree, FillerOf(t), tree.matches[Coord(x.round, x.slot)].round, x.slot, x.team)
  {
    var present := RoundsOf(tree.matches);
    FeedIsRight(sh, t);
    var x := FeedFor(sh, t).spot;
    assert Coord(x.round, x.slot) in tree.matches;
    Relabel.RankKeepsOrder(present, x.round, x.round);
    if t.Loser? {
      assert t.source == Source(1, t.source.slot);
    } else {
      WinnerFills(sh, tree, t.round, t.slot);
    }
  }

  lemma WinnerFills(sh: Shape, tree: ConsTree, r: nat, j: nat)
    requires sh.Valid() && sh.Lane? && IsTree(sh, tree) && Emitted(sh, r, j) && FeedFor(sh, Winner(r, j)).Lands?
    ensures var x := FeedFor(sh, Winner(r, j)).spot;
            && Coord(r, j) in tree.matches
            && tree.matches[Coord(r, j)].feedsRound == Relabel.Rank(RoundsOf(tree.matches), x.round)
            && tree.matches[Coord(r, j)].feedsSlot == x.slot && tree.matches[Coord(r, j)].feedsTeam == x.team
  {
    var c := Coord(r, j);
    FeedIsRight(sh, Winner(r, j));
    assert tree.matches[c] == RenumberNode(RoundsOf(tree.matches), NodeSoFar(sh, c, sh.depth + 1, 0));
  }

  /** Every side of every match of the finished tree is filled by exactly one drop or feed. */
  lemma EverySideFilledOnce(sh: Shape, tree: ConsTree, c: Coord, team: nat)
    requires sh.Valid() && sh.Lane? && IsTree(sh, tree) && c in tree.matches && (team == 1 || team == 2)
    ensures exists f :: Fills(tree, f, tree.matches[c].round, c.slot, team)
                        && forall g :: Fills(tree, g, tree.matches[c].round, c.slot, team) ==> g == f
  {
    var x := Spot(c.round, c.slot, team);
    EachSideFedOnce(sh, x);
    LandingFills(sh, tree, In(sh, x));
    assert Coord(x.round, x.slot) == c;
    var f := FillerOf(In(sh, x));
    forall g | Fills(tree, g, tree.matches[c].round, c.slot, team) ensures g == f {
      FillerLands(sh, tree, g, c, team);
      assert TokenOf(g) == In(sh, x);
    }
  }

  /** Does the tree list this drop, or this winner's feed? */
  predicate Listed(tree: ConsTree, f: Filler) {
    match f
    case ByDrop(s) => s in tree.drops
    case ByWinner(c) => c in tree.matches && tree.matches[c].feedsRound != 0
  }

  /** The other way round: every drop and every feed names a side of a match of the tree. */
  lemma EveryFeedHitsAMatch(sh: Shape, tree: ConsTree, f: Filler) returns (c: Coord, team: nat)
    requires sh.Valid() && sh.Lane? && IsTree(sh, tree) && Listed(tree, f)
    ensures c in tree.matches && (team == 1 || team == 2) && Fills(tree, f, tree.matches[c].round, c.slot, team)
  {
    var t := TokenOf(f);
    FeedIsRight(sh, t);
    LandingFills(sh, tree, t);
    var x := FeedFor(sh, t).spot;
    c, team := Coord(x.round, x.slot), x.team;
  }

  /** A feed goes to a strictly later round, also after renumbering. */
  lemma FeedsGoForward(sh: Shape, tree: ConsTree, c: Coord)
    requires sh.Valid() && sh.Lane? && IsTree(sh, tree) && c in tree.matches
    ensures tree.matches[c].feedsRound != 0 ==> tree.matches[c].feedsRound > tree.matches[c].round
  {
    var present := RoundsOf(tree.matches);
    var t := Winner(c.round, c.slot);
    FeedIsRight(sh, t);
    if FeedFor(sh, t).Lands? {
      var x := FeedFor(sh, t).spot;
      assert Coord(x.round, x.slot) in tree.matches;
      Relabel.RankKeepsOrder(present, c.round, x.round);
    }
  }

  /** The renumbered rounds are exactly 1..N. */
  lemma RoundsAreContiguous(sh: Shape, tree: ConsTree, n: nat)
    requires sh.Valid() && sh.Lane? && IsTree(sh, tree)
    ensures 1 <= n <= tree.rounds <==> n in set c | c in tree.matches :: tree.matches[c].round
  {
    var present := RoundsOf(tree.matches);
    if 1 <= n <= tree.rounds {
      var r := Relabel.NoGaps(present, n);
      var c :| c in tree.matches && c.round == r;
      assert tree.matches[c].round == n;
    }
    forall c | c in tree.matches && tree.matches[c].round == n ensures 1 <= n <= tree.rounds {
      Relabel.RankKeepsOrder(present, c.round, c.round);
    }
  }

  lemma {:induction false} TwoDroppers(alive: seq<bool>) returns (a: nat, b: nat)
    requires Droppers(alive) >= 2
    ensures a < |alive| && b < |alive| && a != b && alive[a] && alive[b]
    decreases alive
  {
    var front, n := alive[..|alive| - 1], |alive| - 1;
    if Droppers(front) >= 2 {
      a, b := TwoDroppers(front);
    } else {
      a := OneDropper(front);
      b := n;
    }
  }

  lemma {:induction false} OneDropper(alive: seq<bool>) returns (a: nat)
    requires Droppers(alive) >= 1
    ensures a < |alive| && alive[a]
    decreases alive
  {
    if alive[|alive| - 1] {
      a := |alive| - 1;
    } else {
      a := OneDropper(alive[..|alive| - 1]);
    }
  }

  /** With two droppers or more, every dropper enters the tree. */
  lemma EveryDropperEnters(sh: Shape, tree: ConsTree, s: nat)
    requires sh.Valid() && sh.Lane? && IsTree(sh, tree) && Droppers(sh.alive) >= 2
    ensures s in tree.drops <==> s < |sh.alive| && sh.alive[s]
  {
    var a, b := TwoDroppers(sh.alive);
    if Dropper(sh, s) {
      EveryDropperPlays(sh, Source(1, s), Source(1, if s == a then b else a));
    }
  }

  /** The team in a seat of the tree is a dropper exactly when the tree records that drop there:
      no drop is recorded at two seats. */
  lemma EntersAtOneSeat(sh: Shape, tree: ConsTree, s: nat, c: Coord, team: nat)
    requires sh.Valid() && sh.Lane? && IsTree(sh, tree) && c in tree.matches && (team == 1 || team == 2)
    ensures In(sh, Spot(c.round, c.slot, team)) == Loser(Source(1, s))
            <==> s in tree.drops && tree.drops[s] == ConsDrop(tree.matches[c].round, c.slot, team)
  {
    var x := Spot(c.round, c.slot, team);
    EachSideFedOnce(sh, x);
    if In(sh, x) == Loser(Source(1, s)) {
      LandingFills(sh, tree, In(sh, x));
      assert Coord(x.round, x.slot) == c;
    }
    if Fills(tree, ByDrop(s), tree.matches[c].round, c.slot, team) {
      FillerLands(sh, tree, ByDrop(s), c, team);
    }
  }

  lemma RecordedOnce(sh: Shape, s: nat, x: Spot, y: Spot)
    requires sh.Valid() && ValidSpot(sh, x) && ValidSpot(sh, y)
    requires Emitted(sh, x.round, x.slot) && Emitted(sh, y.round, y.slot)
    requires In(sh, x) == Loser(Source(1, s)) == In(sh, y)
    ensures x == y
  {
    EachSideFedOnce(sh, x);
    EachSideFedOnce(sh, y);
  }

  /** Every match of the tree rests on two sources with a loser. */
  lemma {:induction false} TwoSources(sh: Shape, r: nat, j: nat) returns (a: nat, b: nat)
    requires sh.Valid() && sh.Lane? && Emitted(sh, r, j)
    ensures a < |sh.alive| && b < |sh.alive| && a != b && sh.alive[a] && sh.alive[b]
    decreases r
  {
    var x, y := Spot(r, j, 1), Spot(r, j, 2);
    SidesDiffer(sh, r, j);
    OccupantIsEarlier(sh, x);
    OccupantIsEarlier(sh, y);
    LaneSourcesOpen(sh, x);
    LaneSourcesOpen(sh, y);
    if In(sh, x).Winner? {
      a, b := TwoSources(sh, In(sh, x).round, In(sh, x).slot);
    } else if In(sh, y).Winner? {
      a, b := TwoSources(sh, In(sh, y).round, In(sh, y).slot);
    } else {
      a, b := In(sh, x).source.slot, In(sh, y).source.slot;
      LoserIsDropper(sh, a);
      LoserIsDropper(sh, b);
    }
  }

  lemma {:induction false} TwoAreCounted(alive: seq<bool>, a: nat, b: nat)
    requires a < b < |alive| && alive[a] && alive[b]
    ensures Droppers(alive) >= 2
    decreases alive
  {
    var n := |alive| - 1;
    if b < n {
      TwoAreCounted(alive[..n], a, b);
    } else {
      OneIsCounted(alive[..n], a);
    }
  }

  lemma {:induction false} OneIsCounted(alive: seq<bool>, a: nat)
    requires a < |alive| && alive[a]
    ensures Droppers(alive) >= 1
    decreases alive
  {
    if a < |alive| - 1 {
      OneIsCounted(alive[..|alive| - 1], a);
    }
  }

  lemma NoneIsAlive(alive: seq<bool>)
    requires Droppers(alive) == 0
    ensures forall s | 0 <= s < |alive| :: !alive[s]
  {
    forall s | 0 <= s < |alive| ensures !alive[s] {
      if alive[s] {
        OneIsCounted(alive, s);
      }
    }
  }

  /** Below two droppers the tree is empty: a lone dropper is out. */
  lemma LoneDropperIsOut(sh: Shape, tree: ConsTree, s: nat)
    requires sh.Valid() && sh.Lane? && IsTree(sh, tree) && Droppers(sh.alive) < 2
    ensures tree.matches == map[] && s !in tree.drops
  {
    forall c | c in tree.matches ensures false {
      NothingEmitted(sh, c.round, c.slot);
    }
    if s in tree.drops {
      var t := Loser(Source(1, s));
      FeedIsRight(sh, t);
      NothingEmitted(sh, FeedFor(sh, t).spot.round, FeedFor(sh, t).spot.slot);
    }
  }

  lemma NothingEmitted(sh: Shape, r: nat, j: nat)
    requires sh.Valid() && sh.Lane? && Droppers(sh.alive) < 2
    ensures !Emitted(sh, r, j)
  {
    if Emitted(sh, r, j) {
      var a, b := TwoSources(sh, r, j);
      TwoAreCounted(sh.alive, if a < b then a else b, if a < b then b else a);
    }
  }

  /** So the droppers all enter the tree if and only if they are not just one. */
  lemma AllEnterUnlessAlone(sh: Shape, tree: ConsTree)
    requires sh.Valid() && sh.Lane? && IsTree(sh, tree)
    ensures (forall s: nat | s < |sh.alive| && sh.alive[s] :: s in tree.drops) <==> Droppers(sh.alive) != 1
  {
    if Droppers(sh.alive) >= 2 {
      forall s: nat | s < |sh.alive| && sh.alive[s] ensures s in tree.drops {
        EveryDropperEnters(sh, tree, s);
      }
    } else if Droppers(sh.alive) == 1 {
      var s := OneDropper(sh.alive);
      LoneDropperIsOut(sh, tree, s);
    } else {
      NoneIsAlive(sh.alive);
    }
  }

  /** With two droppers or more, exactly one match of the tree is its final. */
  lemma OneFinal(sh: Shape, tree: ConsTree) returns (final: Coord)
    requires sh.Valid() && sh.Lane? && IsTree(sh, tree) && Droppers(sh.alive) >= 2
    ensures final in tree.matches
    ensures forall c | c in tree.matches :: tree.matches[c].feedsRound == 0 <==> c == final
  {
    var a, b := TwoDroppers(sh.alive);
    EveryDropperPlays(sh, Source(1, a), Source(1, b));
    var top := Champion(sh);
    ChampionIsProducer(sh);
    final := Coord(top.round, top.slot);
    forall c | c in tree.matches ensures tree.matches[c].feedsRound == 0 <==> c == final {
      FinalIsChampion(sh, tree, c);
    }
  }

  lemma ChampionIsProducer(sh: Shape)
    requires sh.Valid() && Champion(sh) != Bye
    ensures Producer(sh, Champion(sh))
  {
    TopWidth(sh);
    var r := sh.Rounds();
    if !Emitted(sh, r, 0) {
      InIsProducer(sh, if In(sh, Spot(r, 0, 1)) != Bye then Spot(r, 0, 1) else Spot(r, 0, 2));
    }
  }

  lemma FinalIsChampion(sh: Shape, tree: ConsTree, c: Coord)
    requires sh.Valid() && sh.Lane? && IsTree(sh, tree) && c in tree.matches
    ensures tree.matches[c].feedsRound == 0 <==> Champion(sh) == Winner(c.round, c.slot)
  {
    var t := Winner(c.round, c.slot);
    ChampionFedOut(sh, t);
    FeedIsRight(sh, t);
    if FeedFor(sh, t).Lands? {
      var x := FeedFor(sh, t).spot;
      assert Coord(x.round, x.slot) in tree.matches;
      Relabel.RankKeepsOrder(RoundsOf(tree.matches), x.round, x.round);
    }
  }
}
