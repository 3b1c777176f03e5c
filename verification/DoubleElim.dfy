/** double_elim.go: a winners bracket, a losers bracket fed by its losers, and a grand final. */
module DoubleElim {
  import opened Coordinates
  import opened Draws
  import opened Powers
  import opened Knockout
  import opened Collapse
  import Bracket
  import Relabel
  import SingleElimination

  const GRAND_FINAL := MatchId(GrandFinal, 1, 0)

  // --- the closed form ------------------------------------------------------------------

  /** Which round-1 winners matches drop a loser: those a bye does not resolve. */
  function Droppers(sides: seq<Team>): seq<bool> {
    seq(Pow2(Rounds(sides) - 1), s requires 0 <= s => Bracket.ByeWinner(sides, s).None?)
  }

  function LoserShape(sides: seq<Team>): (sh: Shape)
    requires Rounds(sides) >= 2
    ensures sh.Valid()
  {
    Ladder(Rounds(sides), Droppers(sides))
  }

  /** A landing in the losers bracket, as a feed; out at the top is team 2 of the grand final. */
  function AsFeed(l: Landing): Feed {
    match l
    case Lands(x) => To(Entry(MatchId(Losers, x.round, x.slot), x.team))
    case Top => To(Entry(GRAND_FINAL, 2))
  }

  /** A bracket match of the winners tier before its loser is wired. */
  function WinnersSpec(sides: seq<Team>, r: nat, s: nat): Spec {
    Tagged(Bracket.MatchAt(sides, r, s), Winners, To(Entry(GRAND_FINAL, 1)))
  }

  /** The feed of a producer once every losers match before (lr, j) has been handled. */
  function FeedSoFar(sh: Shape, t: Token, lr: nat, j: nat): Feed
    requires sh.Valid() && Producer(sh, t)
  {
    var done := match FeedFor(sh, t)
                case Lands(x) => Before(x.round, x.slot, lr, j)
                case Top => Before(sh.Rounds(), 0, lr, j);
    if done then AsFeed(FeedFor(sh, t)) else NoFeed
  }

  function LoserFeedSoFar(sides: seq<Team>, r: nat, s: nat, lr: nat, j: nat): Feed
    requires Rounds(sides) >= 2
  {
    if Alive(sides, r, s) then
      FeedSoFar(LoserShape(sides), Loser(Source(r, s)), lr, j)
    else NoFeed
  }

  /** The plan once every losers match before (lr, j) has been handled. */
  ghost predicate IsSoFar(sides: seq<Team>, ms: map<MatchId, Spec>, lr: nat, j: nat)
    requires Rounds(sides) >= 2
  {
    var sh := LoserShape(sides);
    && (forall id {:trigger id in ms} :: id in ms <==>
          || (id.group == Winners && Bracket.ValidCoord(Rounds(sides), id.round, id.slot))
          || (id.group == Losers && Emitted(sh, id.round, id.slot) && Before(id.round, id.slot, lr, j)))
    && (forall id | id in ms && id.group == Winners ::
          ms[id] == WinnersSpec(sides, id.round, id.slot).(lose := LoserFeedSoFar(sides, id.round, id.slot, lr, j)))
    && (forall id | id in ms && id.group == Losers ::
          ms[id] == Spec(Bracket.Tbd, Bracket.Tbd, None, FeedSoFar(sh, Token.Winner(id.round, id.slot), lr, j), NoFeed))
  }

  lemma AliveIsProducer(sides: seq<Team>, r: nat, s: nat)
    requires Rounds(sides) >= 2
    ensures Alive(sides, r, s) <==> Producer(LoserShape(sides), Loser(Source(r, s)))
  {
  }

  // --- one step of the flow ---------------------------------------------------------------

  /** How the feed of a producer changes when match (lr, j) is handled. */
  lemma FeedStep(sh: Shape, t: Token, lr: nat, j: nat)
    requires sh.Valid() && ValidMatch(sh, lr, j) && Producer(sh, t)
    ensures FeedSoFar(sh, t, lr, j + 1) ==
            if Emitted(sh, lr, j) && t == In(sh, Spot(lr, j, 1)) then AsFeed(Lands(Spot(lr, j, 1)))
            else if Emitted(sh, lr, j) && t == In(sh, Spot(lr, j, 2)) then AsFeed(Lands(Spot(lr, j, 2)))
            else if lr == sh.Rounds() && t == OutOf(sh, lr, j) then AsFeed(Top)
            else FeedSoFar(sh, t, lr, j)
  {
    TopWidth(sh);
    ChampionFedOut(sh, t);
    FeedIsRight(sh, t);
    if Emitted(sh, lr, j) {
      EachSideFedOnce(sh, Spot(lr, j, 1));
      EachSideFedOnce(sh, Spot(lr, j, 2));
    }
  }

  lemma RowDone(sh: Shape, t: Token, lr: nat)
    requires sh.Valid() && 1 <= lr <= sh.Rounds() && Producer(sh, t)
    ensures FeedSoFar(sh, t, lr, sh.Width(lr)) == FeedSoFar(sh, t, lr + 1, 0)
  {
    TopWidth(sh);
    FeedIsRight(sh, t);
  }

  // --- the generator ------------------------------------------------------------------------

  datatype DoubleElimPlan = DoubleElimPlan(size: nat, wbRounds: nat, lbRounds: nat, matches: map<MatchId, Spec>)

  /** Matches of losers round `lr` for a field of `n`, before any collapse. */
  function LbMatchCount(n: nat, lr: nat): nat {
    n / Pow2((lr + 1) / 2 + 1)
  }

  lemma LbMatchCountIsWidth(sides: seq<Team>, lr: nat)
    requires Rounds(sides) >= 2 && 1 <= lr <= LoserShape(sides).Rounds()
    ensures LbMatchCount(Pow2(Rounds(sides)), lr) == LoserShape(sides).Width(lr)
  {
    Pow2Quotient(Rounds(sides), (lr + 1) / 2 + 1);
  }

  /** The tokens waiting in a match's two seats; a seat nobody has reached reads as a bye. */
  type Incoming = map<Coord, (Token, Token)>

  function Waiting(incoming: Incoming, e: Spot): Token {
    var c := Coord(e.round, e.slot);
    if c !in incoming then Bye else if e.team == 1 then incoming[c].0 else incoming[c].1
  }

  function SetIn(incoming: Incoming, e: Spot, t: Token): Incoming {
    var c := Coord(e.round, e.slot);
    var v := if c in incoming then incoming[c] else (Bye, Bye);
    incoming[c := if e.team == 1 then (t, v.1) else (v.0, t)]
  }

  /** Connect a token's producing match to a feed. */
  function Wire(ms: map<MatchId, Spec>, t: Token, feed: Feed): map<MatchId, Spec> {
    match t
    case Bye => ms
    case Loser(s) =>
      var id := MatchId(Winners, s.round, s.slot);
      if id in ms then ms[id := ms[id].(lose := feed)] else ms
    case Winner(r, j) =>
      var id := MatchId(Losers, r, j);
      if id in ms then ms[id := ms[id].(win := feed)] else ms
  }

  /** Seats that hold their final token before the flow reaches match (lr, j). */
  predicate Settled(sh: Shape, e: Spot, lr: nat, j: nat)
    requires sh.Valid() && ValidSpot(sh, e)
  {
    match FeederOf(sh, e)
    case FromSource(_) => true
    case FromMatch(r, s) => Before(r, s, lr, j)
  }

  ghost predicate IncomingSoFar(sh: Shape, incoming: Incoming, lr: nat, j: nat)
    requires sh.Valid()
  {
    forall e | ValidSpot(sh, e) && Settled(sh, e, lr, j) :: Waiting(incoming, e) == In(sh, e)
  }

  /** The seats of the rounds before (lr, j) that a source fills hold its token. */
  ghost predicate DropsSoFar(sh: Shape, incoming: Incoming, lr: nat, j: nat)
    requires sh.Valid()
  {
    forall e | ValidSpot(sh, e) && FeederOf(sh, e).FromSource? && Before(e.round, e.slot, lr, j) ::
      Waiting(incoming, e) == In(sh, e)
  }

  /** The sources of one match's seats. */
  lemma DropsInto(sh: Shape, lr: nat, j: nat)
    requires sh.Valid() && sh.Ladder? && ValidMatch(sh, lr, j)
    ensures lr == 1 ==> forall t | t == 1 || t == 2 ::
              FeederOf(sh, Spot(1, j, t)) == FromSource(Source(1, 2 * j + t - 1)) && ValidSource(sh, Source(1, 2 * j + t - 1))
    ensures lr > 1 ==> FeederOf(sh, Spot(lr, j, 1)).FromMatch?
    ensures lr > 1 && lr % 2 == 1 ==> FeederOf(sh, Spot(lr, j, 2)).FromMatch?
    ensures lr % 2 == 0 ==>
              var s := Source(lr / 2 + 1, ComeAround(lr / 2 + 1, sh.Width(lr), j));
              FeederOf(sh, Spot(lr, j, 2)) == FromSource(s) && ValidSource(sh, s)
  {
    if lr == 1 {
      FeederIsHome(sh, Spot(1, j, 1));
      FeederIsHome(sh, Spot(1, j, 2));
    } else if lr % 2 == 0 {
      MajorTakesLoser(sh, lr, j);
    }
  }

  lemma MajorTakesLoser(sh: Shape, lr: nat, j: nat)
    requires sh.Valid() && sh.Ladder? && ValidMatch(sh, lr, j) && lr % 2 == 0
    ensures var s := Source(lr / 2 + 1, ComeAround(lr / 2 + 1, sh.Width(lr), j));
            FeederOf(sh, Spot(lr, j, 2)) == FromSource(s) && ValidSource(sh, s)
  {
    assert lr != 1;
    FeederIsHome(sh, Spot(lr, j, 2));
  }

  /** Losers round 1 takes two neighbouring winners-round-1 losers. */
  method DropOpening(ghost sides: seq<Team>, ms: map<MatchId, Spec>, before: Incoming, j: nat) returns (incoming: Incoming)
    requires Rounds(sides) >= 2 && IsSoFar(sides, ms, 1, 0)
    requires ValidMatch(LoserShape(sides), 1, j) && DropsSoFar(LoserShape(sides), before, 1, j)
    ensures DropsSoFar(LoserShape(sides), incoming, 1, j + 1)
  {
    DropsInto(LoserShape(sides), 1, j);
    var t1 := LoserToken(sides, ms, 1, 2 * j);
    var t2 := LoserToken(sides, ms, 1, 2 * j + 1);
    incoming := SetIn(SetIn(before, Spot(1, j, 1), t1), Spot(1, j, 2), t2);
    DropsStep(LoserShape(sides), before, incoming, 1, j);
  }

  /** With one match's seats set and no other touched, the drops reach one match further. */
  lemma DropsStep(sh: Shape, before: Incoming, after: Incoming, lr: nat, j: nat)
    requires sh.Valid() && ValidMatch(sh, lr, j) && DropsSoFar(sh, before, lr, j)
    requires forall e: Spot | e.round != lr || e.slot != j :: Waiting(after, e) == Waiting(before, e)
    requires forall t | t == 1 || t == 2 ::
      FeederOf(sh, Spot(lr, j, t)).FromSource? ==> Waiting(after, Spot(lr, j, t)) == In(sh, Spot(lr, j, t))
    ensures DropsSoFar(sh, after, lr, j + 1)
  {
    forall e | ValidSpot(sh, e) && FeederOf(sh, e).FromSource? && Before(e.round, e.slot, lr, j + 1)
      ensures Waiting(after, e) == In(sh, e)
    {
      if e.round == lr && e.slot == j {
        assert e == Spot(lr, j, e.team);
      }
    }
  }

  /** A major round takes one winners-round loser in each match, come-around. */
  method DropMajor(ghost sides: seq<Team>, ms: map<MatchId, Spec>, before: Incoming, lr: nat, j: nat, cnt: nat)
    returns (incoming: Incoming)
    requires Rounds(sides) >= 2 && IsSoFar(sides, ms, 1, 0) && lr % 2 == 0
    requires ValidMatch(LoserShape(sides), lr, j) && cnt == LoserShape(sides).Width(lr)
    requires DropsSoFar(LoserShape(sides), before, lr, j)
    ensures DropsSoFar(LoserShape(sides), incoming, lr, j + 1)
  {
    DropsInto(LoserShape(sides), lr, j);
    var r := lr / 2 + 1;
    var src := cnt - 1 - j;
    if r % 2 == 1 && cnt > 1 {
      src := (j + cnt / 2) % cnt;
    }
    assert src == ComeAround(r, cnt, j);
    var t := LoserToken(sides, ms, r, src);
    incoming := SetIn(before, Spot(lr, j, 2), t);
    DropsStep(LoserShape(sides), before, incoming, lr, j);
  }

  /** Put the drops into one match's seats in place. */
  method DropInto(ghost sides: seq<Team>, ms: map<MatchId, Spec>, before: Incoming, lr: nat, j: nat, cnt: nat)
    returns (incoming: Incoming)
    requires Rounds(sides) >= 2 && IsSoFar(sides, ms, 1, 0)
    requires ValidMatch(LoserShape(sides), lr, j) && cnt == LoserShape(sides).Width(lr)
    requires DropsSoFar(LoserShape(sides), before, lr, j)
    ensures DropsSoFar(LoserShape(sides), incoming, lr, j + 1)
  {
    incoming := before;
    if lr == 1 {
      incoming := DropOpening(sides, ms, before, j);
    } else if lr % 2 == 0 {
      incoming := DropMajor(sides, ms, before, lr, j, cnt);
    } else {
      DropsInto(LoserShape(sides), lr, j);
    }
  }

  /** Seed losers round 1, and put every later drop of a winners-round loser in place. */
  method SeedIncoming(ghost sides: seq<Team>, ms: map<MatchId, Spec>, n: nat, lbRounds: nat) returns (incoming: Incoming)
    requires Rounds(sides) >= 2 && n == Pow2(Rounds(sides)) && lbRounds == LoserShape(sides).Rounds()
    requires IsSoFar(sides, ms, 1, 0)
    ensures IncomingSoFar(LoserShape(sides), incoming, 1, 0)
  {
    ghost var sh := LoserShape(sides);
    incoming := map[];
    for lr := 1 to lbRounds + 1
      invariant DropsSoFar(sh, incoming, lr, 0)
    {
      var cnt := LbMatchCount(n, lr);
      LbMatchCountIsWidth(sides, lr);
      for j := 0 to cnt
        invariant DropsSoFar(sh, incoming, lr, j)
      {
        incoming := DropInto(sides, ms, incoming, lr, j, cnt);
      }
      assert DropsSoFar(sh, incoming, lr + 1, 0);
    }
    DropsAreIncoming(sh, incoming);
  }

  lemma DropsAreIncoming(sh: Shape, incoming: Incoming)
    requires sh.Valid() && DropsSoFar(sh, incoming, sh.Rounds() + 1, 0)
    ensures IncomingSoFar(sh, incoming, 1, 0)
  {
    forall e | ValidSpot(sh, e) && Settled(sh, e, 1, 0) ensures Waiting(incoming, e) == In(sh, e) {
      if FeederOf(sh, e).FromMatch? {
        FeederIsBelow(sh, e);
      }
    }
  }

  /** A first-round match has a loser exactly when no bye resolved it. */
  lemma OpeningSource(sides: seq<Team>, ms: map<MatchId, Spec>, slot: nat)
    requires Rounds(sides) >= 2 && IsSoFar(sides, ms, 1, 0) && ValidSource(LoserShape(sides), Source(1, slot))
    ensures MatchId(Winners, 1, slot) in ms
    ensures ms[MatchId(Winners, 1, slot)].resolvedWinner.None? <==> RealSource(LoserShape(sides), Source(1, slot))
  {
    var id := MatchId(Winners, 1, slot);
    assert Bracket.ValidCoord(Rounds(sides), id.round, id.slot);
    assert id in ms;
  }

  /** The loser a winners match will drop; a match a bye resolved has none. */
  method LoserToken(ghost sides: seq<Team>, ms: map<MatchId, Spec>, round: nat, slot: nat) returns (t: Token)
    requires Rounds(sides) >= 2 && IsSoFar(sides, ms, 1, 0)
    requires ValidSource(LoserShape(sides), Source(round, slot))
    ensures t == if RealSource(LoserShape(sides), Source(round, slot)) then Loser(Source(round, slot)) else Bye
  {
    if round == 1 {
      OpeningSource(sides, ms, slot);
    }
    if round == 1 && ms[MatchId(Winners, 1, slot)].resolvedWinner.Some? {
      t := Bye;
    } else {
      t := Loser(Source(round, slot));
    }
  }

  /** What handling match (lr, j) does to the plan: emit it and wire its two producers, or
      skip it; and at the top, wire whoever comes out to the grand final. */
  function Handled(sh: Shape, ms: map<MatchId, Spec>, lr: nat, j: nat): map<MatchId, Spec>
    requires sh.Valid() && ValidMatch(sh, lr, j)
  {
    var t1, t2 := In(sh, Spot(lr, j, 1)), In(sh, Spot(lr, j, 2));
    var played :=
      if t1 != Bye && t2 != Bye then
        Wire(Wire(ms[MatchId(Losers, lr, j) := Spec(Bracket.Tbd, Bracket.Tbd, None, NoFeed, NoFeed)],
                  t1, AsFeed(Lands(Spot(lr, j, 1)))), t2, AsFeed(Lands(Spot(lr, j, 2))))
      else ms;
    if lr == sh.Rounds() then Wire(played, OutOf(sh, lr, j), AsFeed(Top)) else played
  }

  /** The feed a wiring leaves on producer `t`'s match. */
  function WiredTo(ms: map<MatchId, Spec>, t: Token): Feed {
    match t
    case Bye => NoFeed
    case Loser(s) => var id := MatchId(Winners, s.round, s.slot); if id in ms then ms[id].lose else NoFeed
    case Winner(r, j) => var id := MatchId(Losers, r, j); if id in ms then ms[id].win else NoFeed
  }

  function MatchOf(t: Token): MatchId
    requires t != Bye
  {
    match t
    case Loser(s) => MatchId(Winners, s.round, s.slot)
    case Winner(r, j) => MatchId(Losers, r, j)
  }

  /** The producers waiting at match (lr, j) are matches of the plan. */
  predicate OccupantsIn(sh: Shape, ms: map<MatchId, Spec>, lr: nat, j: nat)
    requires sh.Valid() && ValidMatch(sh, lr, j)
  {
    && (In(sh, Spot(lr, j, 1)) != Bye ==> MatchOf(In(sh, Spot(lr, j, 1))) in ms)
    && (In(sh, Spot(lr, j, 2)) != Bye ==> MatchOf(In(sh, Spot(lr, j, 2))) in ms)
  }

  /** Wiring one producer changes that producer's feed and nobody else's. */
  lemma WireSets(ms: map<MatchId, Spec>, t: Token, feed: Feed, u: Token)
    requires t != Bye && MatchOf(t) in ms && u != Bye
    ensures WiredTo(Wire(ms, t, feed), u) == if u == t then feed else WiredTo(ms, u)
    ensures Wire(ms, t, feed).Keys == ms.Keys
  {
  }

  lemma HandledWires(sh: Shape, ms: map<MatchId, Spec>, lr: nat, j: nat, t: Token)
    requires sh.Valid() && ValidMatch(sh, lr, j) && Producer(sh, t)
    requires MatchOf(t) in ms
    requires MatchId(Losers, lr, j) !in ms
    requires OccupantsIn(sh, ms, lr, j)
    ensures WiredTo(Handled(sh, ms, lr, j), t) ==
            if Emitted(sh, lr, j) && t == In(sh, Spot(lr, j, 1)) then AsFeed(Lands(Spot(lr, j, 1)))
            else if Emitted(sh, lr, j) && t == In(sh, Spot(lr, j, 2)) then AsFeed(Lands(Spot(lr, j, 2)))
            else if lr == sh.Rounds() && t == OutOf(sh, lr, j) then AsFeed(Top)
            else WiredTo(ms, t)
  {
    var t1, t2 := In(sh, Spot(lr, j, 1)), In(sh, Spot(lr, j, 2));
    var f1, f2 := AsFeed(Lands(Spot(lr, j, 1))), AsFeed(Lands(Spot(lr, j, 2)));
    var played := ms;
    if t1 != Bye && t2 != Bye {
      SidesDiffer(sh, lr, j);
      var ms0 := ms[MatchId(Losers, lr, j) := Spec(Bracket.Tbd, Bracket.Tbd, None, NoFeed, NoFeed)];
      assert WiredTo(ms0, t) == WiredTo(ms, t);
      WireSets(ms0, t1, f1, t);
      WireSets(Wire(ms0, t1, f1), t2, f2, t);
      played := Wire(Wire(ms0, t1, f1), t2, f2);
    }
    if lr == sh.Rounds() && OutOf(sh, lr, j) != Bye {
      WireSets(played, OutOf(sh, lr, j), AsFeed(Top), t);
    }
  }

  /** Whoever waits at a match has its producing match in the plan already. */
  lemma OccupantsAreThere(sides: seq<Team>, ms: map<MatchId, Spec>, lr: nat, j: nat)
    requires Rounds(sides) >= 2 && IsSoFar(sides, ms, lr, j) && ValidMatch(LoserShape(sides), lr, j)
    ensures OccupantsIn(LoserShape(sides), ms, lr, j)
  {
    OccupantIsThere(sides, ms, lr, j, 1);
    OccupantIsThere(sides, ms, lr, j, 2);
  }

  lemma OccupantIsThere(sides: seq<Team>, ms: map<MatchId, Spec>, lr: nat, j: nat, team: nat)
    requires Rounds(sides) >= 2 && IsSoFar(sides, ms, lr, j) && ValidMatch(LoserShape(sides), lr, j)
    requires team == 1 || team == 2
    ensures
      var t := In(LoserShape(sides), Spot(lr, j, team));
      t != Bye ==> MatchOf(t) in ms
  {
    var sh, e := LoserShape(sides), Spot(lr, j, team);
    if In(sh, e) != Bye {
      InIsProducer(sh, e);
      OccupantIsEarlier(sh, e);
    }
  }

  lemma HandledKeys(sh: Shape, ms: map<MatchId, Spec>, lr: nat, j: nat)
    requires sh.Valid() && ValidMatch(sh, lr, j)
    ensures Handled(sh, ms, lr, j).Keys == ms.Keys + if Emitted(sh, lr, j) then {MatchId(Losers, lr, j)} else {}
  {
  }

  /** Handling touches nothing of a match but the feed it wires. */
  lemma HandledKeepsRest(sh: Shape, ms: map<MatchId, Spec>, lr: nat, j: nat, id: MatchId)
    requires sh.Valid() && ValidMatch(sh, lr, j) && id in ms && id != MatchId(Losers, lr, j)
    ensures id in Handled(sh, ms, lr, j)
    ensures id.group == Winners ==> Handled(sh, ms, lr, j)[id] == ms[id].(lose := Handled(sh, ms, lr, j)[id].lose)
    ensures id.group == Losers ==> Handled(sh, ms, lr, j)[id] == ms[id].(win := Handled(sh, ms, lr, j)[id].win)
  {
    HandledKeys(sh, ms, lr, j);
  }

  lemma HandledIsSoFar(sides: seq<Team>, ms: map<MatchId, Spec>, lr: nat, j: nat)
    requires Rounds(sides) >= 2 && ValidMatch(LoserShape(sides), lr, j) && IsSoFar(sides, ms, lr, j)
    ensures IsSoFar(sides, Handled(LoserShape(sides), ms, lr, j), lr, j + 1)
  {
    var sh := LoserShape(sides);
    var out := Handled(sh, ms, lr, j);
    HandledKeys(sh, ms, lr, j);
    forall id | id in out && id.group == Winners
      ensures out[id] == WinnersSpec(sides, id.round, id.slot).(lose := LoserFeedSoFar(sides, id.round, id.slot, lr, j + 1))
    {
      HandledKeepsRest(sh, ms, lr, j, id);
      HandledWinnersFeed(sides, ms, lr, j, id);
    }
    forall id | id in out && id.group == Losers
      ensures out[id] == Spec(Bracket.Tbd, Bracket.Tbd, None, FeedSoFar(sh, Token.Winner(id.round, id.slot), lr, j + 1), NoFeed)
    {
      if id == MatchId(Losers, lr, j) {
        EmittedFeed(sides, ms, lr, j);
      } else {
        HandledKeepsRest(sh, ms, lr, j, id);
        HandledLosersFeed(sides, ms, lr, j, id);
      }
    }
  }

  lemma HandledWinnersFeed(sides: seq<Team>, ms: map<MatchId, Spec>, lr: nat, j: nat, id: MatchId)
    requires Rounds(sides) >= 2 && ValidMatch(LoserShape(sides), lr, j) && IsSoFar(sides, ms, lr, j)
    requires id in ms && id.group == Winners
    ensures id in Handled(LoserShape(sides), ms, lr, j)
    ensures Handled(LoserShape(sides), ms, lr, j)[id].lose == LoserFeedSoFar(sides, id.round, id.slot, lr, j + 1)
  {
    var sh := LoserShape(sides);
    HandledKeys(sh, ms, lr, j);
    OccupantsAreThere(sides, ms, lr, j);
    var t := Loser(Source(id.round, id.slot));
    AliveIsProducer(sides, id.round, id.slot);
    if Alive(sides, id.round, id.slot) {
      FeedStep(sh, t, lr, j);
      HandledWires(sh, ms, lr, j, t);
      assert WiredTo(ms, t) == ms[id].lose;
    } else {
      NotWired(sh, ms, lr, j, id);
    }
  }

  /** A match nobody's loser comes from is left alone. */
  lemma NotWired(sh: Shape, ms: map<MatchId, Spec>, lr: nat, j: nat, id: MatchId)
    requires sh.Valid() && ValidMatch(sh, lr, j) && id in ms && id.group == Winners
    requires !Producer(sh, Loser(Source(id.round, id.slot)))
    ensures id in Handled(sh, ms, lr, j) && Handled(sh, ms, lr, j)[id] == ms[id]
  {
    var x, y := Spot(lr, j, 1), Spot(lr, j, 2);
    NotThisLoser(sh, x, id);
    NotThisLoser(sh, y, id);
    var t1, t2, f1, f2 := In(sh, x), In(sh, y), AsFeed(Lands(x)), AsFeed(Lands(y));
    var played := ms;
    if t1 != Bye && t2 != Bye {
      var ms0 := ms[MatchId(Losers, lr, j) := Spec(Bracket.Tbd, Bracket.Tbd, None, NoFeed, NoFeed)];
      WireKeeps(ms0, t1, f1, id);
      WireKeeps(Wire(ms0, t1, f1), t2, f2, id);
      played := Wire(Wire(ms0, t1, f1), t2, f2);
    }
    WireKeeps(played, OutOf(sh, lr, j), AsFeed(Top), id);
  }

  lemma WireKeeps(ms: map<MatchId, Spec>, t: Token, feed: Feed, id: MatchId)
    requires id in ms && id.group == Winners && t != Loser(Source(id.round, id.slot))
    ensures id in Wire(ms, t, feed) && Wire(ms, t, feed)[id] == ms[id]
  {
  }

  lemma NotThisLoser(sh: Shape, x: Spot, id: MatchId)
    requires sh.Valid() && ValidSpot(sh, x) && !Producer(sh, Loser(Source(id.round, id.slot)))
    ensures In(sh, x) != Loser(Source(id.round, id.slot))
  {
    if In(sh, x) != Bye {
      InIsProducer(sh, x);
    }
  }

  lemma HandledLosersFeed(sides: seq<Team>, ms: map<MatchId, Spec>, lr: nat, j: nat, id: MatchId)
    requires Rounds(sides) >= 2 && ValidMatch(LoserShape(sides), lr, j) && IsSoFar(sides, ms, lr, j)
    requires id in ms && id.group == Losers
    ensures id in Handled(LoserShape(sides), ms, lr, j)
    ensures Handled(LoserShape(sides), ms, lr, j)[id].win
            == FeedSoFar(LoserShape(sides), Token.Winner(id.round, id.slot), lr, j + 1)
  {
    var sh := LoserShape(sides);
    HandledKeys(sh, ms, lr, j);
    OccupantsAreThere(sides, ms, lr, j);
    var t := Token.Winner(id.round, id.slot);
    FeedStep(sh, t, lr, j);
    HandledWires(sh, ms, lr, j, t);
    assert WiredTo(ms, t) == ms[id].win;
  }

  /** The match just emitted is not wired yet, unless it is the last of all. */
  lemma EmittedFeed(sides: seq<Team>, ms: map<MatchId, Spec>, lr: nat, j: nat)
    requires Rounds(sides) >= 2 && Emitted(LoserShape(sides), lr, j) && IsSoFar(sides, ms, lr, j)
    ensures MatchId(Losers, lr, j) in Handled(LoserShape(sides), ms, lr, j)
    ensures Handled(LoserShape(sides), ms, lr, j)[MatchId(Losers, lr, j)]
         == Spec(Bracket.Tbd, Bracket.Tbd, None, FeedSoFar(LoserShape(sides), Token.Winner(lr, j), lr, j + 1), NoFeed)
  {
    var sh := LoserShape(sides);
    var t := Token.Winner(lr, j);
    FeedStep(sh, t, lr, j);
    OccupantIsEarlier(sh, Spot(lr, j, 1));
    OccupantIsEarlier(sh, Spot(lr, j, 2));
    FeedIsRight(sh, t);
  }

  lemma RowIsSoFar(sides: seq<Team>, ms: map<MatchId, Spec>, lr: nat)
    requires Rounds(sides) >= 2 && 1 <= lr <= LoserShape(sides).Rounds()
    requires IsSoFar(sides, ms, lr, LoserShape(sides).Width(lr))
    ensures IsSoFar(sides, ms, lr + 1, 0)
  {
    var sh := LoserShape(sides);
    forall id | id in ms && id.group == Winners
      ensures ms[id] == WinnersSpec(sides, id.round, id.slot).(lose := LoserFeedSoFar(sides, id.round, id.slot, lr + 1, 0))
    {
      AliveIsProducer(sides, id.round, id.slot);
      if Alive(sides, id.round, id.slot) {
        RowDone(sh, Loser(Source(id.round, id.slot)), lr);
      }
    }
    forall id | id in ms && id.group == Losers
      ensures ms[id] == Spec(Bracket.Tbd, Bracket.Tbd, None, FeedSoFar(sh, Token.Winner(id.round, id.slot), lr + 1, 0), NoFeed)
    {
      RowDone(sh, Token.Winner(id.round, id.slot), lr);
    }
  }

  /** Once match (lr, j) has passed its output on, its seat upstairs is settled too. */
  lemma IncomingStep(sh: Shape, incoming: Incoming, lr: nat, j: nat)
    requires sh.Valid() && ValidMatch(sh, lr, j) && IncomingSoFar(sh, incoming, lr, j)
    ensures lr < sh.Rounds() ==> IncomingSoFar(sh, SetIn(incoming, Up(sh, lr, j), OutOf(sh, lr, j)), lr, j + 1)
    ensures lr == sh.Rounds() ==> IncomingSoFar(sh, incoming, lr, j + 1)
  {
    var after := if lr < sh.Rounds() then SetIn(incoming, Up(sh, lr, j), OutOf(sh, lr, j)) else incoming;
    forall e | ValidSpot(sh, e) && Settled(sh, e, lr, j + 1) ensures Waiting(after, e) == In(sh, e) {
      if FeederOf(sh, e).FromMatch? {
        FeederIsBelow(sh, e);
        if FeederOf(sh, e) == FromMatch(lr, j) {
          assert e == Up(sh, lr, j);
        }
      } else if lr < sh.Rounds() {
        UpIsFedByMatch(sh, lr, j);
      }
    }
  }

  lemma IncomingRow(sh: Shape, incoming: Incoming, lr: nat)
    requires sh.Valid() && 1 <= lr <= sh.Rounds() && IncomingSoFar(sh, incoming, lr, sh.Width(lr))
    ensures IncomingSoFar(sh, incoming, lr + 1, 0)
  {
    forall e | ValidSpot(sh, e) && Settled(sh, e, lr + 1, 0) ensures Waiting(incoming, e) == In(sh, e) {
      if FeederOf(sh, e).FromMatch? {
        FeederIsBelow(sh, e);
      }
    }
  }

  /** Handle one match: emit it if two real teams meet, and pass its output on. */
  method HandleMatch(ghost sh: Shape, plan: map<MatchId, Spec>, waiting: Incoming, lr: nat, j: nat, lbRounds: nat)
    returns (ms: map<MatchId, Spec>, incoming: Incoming)
    requires sh.Valid() && sh.Ladder? && ValidMatch(sh, lr, j) && lbRounds == sh.Rounds()
    requires Waiting(waiting, Spot(lr, j, 1)) == In(sh, Spot(lr, j, 1))
    requires Waiting(waiting, Spot(lr, j, 2)) == In(sh, Spot(lr, j, 2))
    ensures ms == Handled(sh, plan, lr, j)
    ensures incoming == if lr < lbRounds then SetIn(waiting, Up(sh, lr, j), OutOf(sh, lr, j)) else waiting
  {
    ms, incoming := plan, waiting;
    var t1, t2 := Waiting(incoming, Spot(lr, j, 1)), Waiting(incoming, Spot(lr, j, 2));
    var out := Bye;
    if t1 != Bye && t2 != Bye {
      ms := ms[MatchId(Losers, lr, j) := Spec(Bracket.Tbd, Bracket.Tbd, None, NoFeed, NoFeed)];
      ms := Wire(ms, t1, AsFeed(Lands(Spot(lr, j, 1))));
      ms := Wire(ms, t2, AsFeed(Lands(Spot(lr, j, 2))));
      out := Token.Winner(lr, j);
    } else if t1 != Bye {
      out := t1;
    } else if t2 != Bye {
      out := t2;
    }
    if lr == lbRounds {
      if out != Bye {
        ms := Wire(ms, out, AsFeed(Top));
      }
    } else if lr % 2 == 1 {
      incoming := SetIn(incoming, Spot(lr + 1, j, 1), out);
    } else {
      incoming := SetIn(incoming, Spot(lr + 1, j / 2, j % 2 + 1), out);
    }
  }

  /** One losers match of the token flow. */
  method FlowMatch(ghost sides: seq<Team>, plan: map<MatchId, Spec>, waiting: Incoming, lr: nat, j: nat, lbRounds: nat)
    returns (ms: map<MatchId, Spec>, incoming: Incoming)
    requires Rounds(sides) >= 2 && lbRounds == LoserShape(sides).Rounds() && ValidMatch(LoserShape(sides), lr, j)
    requires IsSoFar(sides, plan, lr, j) && IncomingSoFar(LoserShape(sides), waiting, lr, j)
    ensures IsSoFar(sides, ms, lr, j + 1) && IncomingSoFar(LoserShape(sides), incoming, lr, j + 1)
  {
    ghost var sh := LoserShape(sides);
    SeatsSettled(sh, lr, j);
    ms, incoming := HandleMatch(sh, plan, waiting, lr, j, lbRounds);
    HandledIsSoFar(sides, plan, lr, j);
    IncomingStep(sh, waiting, lr, j);
  }

  /** One losers round of the token flow. */
  method FlowRound(ghost sides: seq<Team>, plan: map<MatchId, Spec>, waiting: Incoming, lr: nat, cnt: nat, lbRounds: nat)
    returns (ms: map<MatchId, Spec>, incoming: Incoming)
    requires Rounds(sides) >= 2 && 1 <= lr <= lbRounds == LoserShape(sides).Rounds()
    requires cnt == LoserShape(sides).Width(lr)
    requires IsSoFar(sides, plan, lr, 0) && IncomingSoFar(LoserShape(sides), waiting, lr, 0)
    ensures IsSoFar(sides, ms, lr, cnt) && IncomingSoFar(LoserShape(sides), incoming, lr, cnt)
  {
    ms, incoming := plan, waiting;
    for j := 0 to cnt
      invariant IsSoFar(sides, ms, lr, j) && IncomingSoFar(LoserShape(sides), incoming, lr, j)
    {
      ms, incoming := FlowMatch(sides, ms, incoming, lr, j, lbRounds);
    }
  }

  /** The token flow through the losers bracket. */
  method FlowLosers(ghost sides: seq<Team>, winners: map<MatchId, Spec>, seeded: Incoming, n: nat, lbRounds: nat)
    returns (ms: map<MatchId, Spec>)
    requires Rounds(sides) >= 2 && n == Pow2(Rounds(sides)) && lbRounds == LoserShape(sides).Rounds()
    requires IsSoFar(sides, winners, 1, 0) && IncomingSoFar(LoserShape(sides), seeded, 1, 0)
    ensures IsSoFar(sides, ms, lbRounds + 1, 0)
  {
    ms := winners;
    var incoming := seeded;
    for lr := 1 to lbRounds + 1
      invariant IsSoFar(sides, ms, lr, 0) && IncomingSoFar(LoserShape(sides), incoming, lr, 0)
    {
      LbMatchCountIsWidth(sides, lr);
      ms, incoming := FlowRound(sides, ms, incoming, lr, LbMatchCount(n, lr), lbRounds);
      RowIsSoFar(sides, ms, lr);
      IncomingRow(LoserShape(sides), incoming, lr);
    }
  }

  lemma SeatsSettled(sh: Shape, lr: nat, j: nat)
    requires sh.Valid() && ValidMatch(sh, lr, j)
    ensures Settled(sh, Spot(lr, j, 1), lr, j) && Settled(sh, Spot(lr, j, 2), lr, j)
  {
  }

  // --- renumbering --------------------------------------------------------------------------

  function LosersRounds(ms: map<MatchId, Spec>): set<nat> {
    set id | id in ms && id.group == Losers :: id.round
  }

  function RenameId(present: set<nat>, id: MatchId): MatchId {
    if id.group == Losers then id.(round := Relabel.Rank(present, id.round)) else id
  }

  function RenameEntry(present: set<nat>, e: Entry): Entry {
    e.(node := RenameId(present, e.node))
  }

  function RenameFeed(present: set<nat>, feed: Feed): Feed {
    if feed.To? then To(RenameEntry(present, feed.entry)) else NoFeed
  }

  function RenameSpec(present: set<nat>, spec: Spec): Spec {
    spec.(win := RenameFeed(present, spec.win), lose := RenameFeed(present, spec.lose))
  }

  /** `out` is `ms` with its losers rounds, and every feed into them, renumbered. */
  ghost predicate Renumbered(ms: map<MatchId, Spec>, out: map<MatchId, Spec>, present: set<nat>) {
    && (forall id | id in ms :: RenameId(present, id) in out && out[RenameId(present, id)] == RenameSpec(present, ms[id]))
    && (forall o | o in out :: exists id :: id in ms && o == RenameId(present, id))
  }

  /** Every feed into the losers tier names a losers round that is present. */
  ghost predicate FeedsPresent(ms: map<MatchId, Spec>) {
    forall id | id in ms :: FeedPresent(ms[id].win, LosersRounds(ms)) && FeedPresent(ms[id].lose, LosersRounds(ms))
  }

  predicate FeedPresent(feed: Feed, present: set<nat>) {
    feed.To? && feed.entry.node.group == Losers ==> feed.entry.node.round in present
  }

  lemma RenameIsInjective(present: set<nat>, a: MatchId, b: MatchId)
    requires a.group == Losers ==> a.round in present
    requires b.group == Losers ==> b.round in present
    requires RenameId(present, a) == RenameId(present, b)
    ensures a == b
  {
    if a.group == Losers && b.group == Losers {
      Relabel.RankKeepsOrder(present, a.round, b.round);
    }
  }

  function Mapped(remap: map<nat, nat>, feed: Feed): Feed {
    if feed.To? && feed.entry.node.group == Losers && feed.entry.node.round in remap then
      To(feed.entry.(node := feed.entry.node.(round := remap[feed.entry.node.round])))
    else feed
  }

  /** renumberLBRounds: compact the losers rounds and every feed that targets them. */
  method Renumber(ms: map<MatchId, Spec>) returns (out: map<MatchId, Spec>)
    requires FeedsPresent(ms)
    ensures Renumbered(ms, out, LosersRounds(ms))
  {
    var present := LosersRounds(ms);
    var remap := Relabel.Number(present);
    out := map[];
    var rest := ms.Keys;
    while rest != {}
      invariant rest <= ms.Keys
      invariant forall id | id in ms && id !in rest ::
                  RenameId(present, id) in out && out[RenameId(present, id)] == RenameSpec(present, ms[id])
      invariant forall o | o in out :: exists id :: id in ms && id !in rest && o == RenameId(present, id)
      decreases rest
    {
      var id :| id in rest;
      var spec := ms[id].(win := Mapped(remap, ms[id].win), lose := Mapped(remap, ms[id].lose));
      var renamed := id;
      if id.group == Losers {
        assert id.round in present;
        renamed := id.(round := remap[id.round]);
      }
      assert renamed == RenameId(present, id) && spec == RenameSpec(present, ms[id]);
      forall x | x in ms && x !in rest ensures RenameId(present, x) != renamed {
        if RenameId(present, x) == renamed {
          RenameIsInjective(present, x, id);
        }
      }
      out := out[renamed := spec];
      rest := rest - {id};
    }
  }

  /** lbRoundCount: the last losers round. */
  method LbRoundCount(ms: map<MatchId, Spec>) returns (max: nat)
    ensures forall id | id in ms && id.group == Losers :: id.round <= max
    ensures max == 0 || exists id :: id in ms && id.group == Losers && id.round == max
  {
    max := 0;
    var rest := ms.Keys;
    while rest != {}
      invariant rest <= ms.Keys
      invariant forall id | id in ms && id.group == Losers && id !in rest :: id.round <= max
      invariant max == 0 || exists id :: id in ms && id.group == Losers && id.round == max
      decreases rest
    {
      var id :| id in rest;
      if id.group == Losers && id.round > max {
        max := id.round;
      }
      rest := rest - {id};
    }
  }

  // --- the whole plan -------------------------------------------------------------------------

  const FINAL_SPEC := Spec(Bracket.Tbd, Bracket.Tbd, None, NoFeed, NoFeed)

  /** The plan before renumbering: winners, emitted losers matches, and the grand final. */
  ghost predicate IsStructural(sides: seq<Team>, ms: map<MatchId, Spec>)
    requires Rounds(sides) >= 2
  {
    && GRAND_FINAL in ms && ms[GRAND_FINAL] == FINAL_SPEC
    && IsSoFar(sides, ms - {GRAND_FINAL}, LoserShape(sides).Rounds() + 1, 0)
  }

  /** With two entrants the only match feeds both seats of the grand final. */
  function TwoTeamPlan(sides: seq<Team>): map<MatchId, Spec> {
    var spec := WinnersSpec(sides, 1, 0);
    map[MatchId(Winners, 1, 0) := if spec.resolvedWinner.None? then spec.(lose := To(Entry(GRAND_FINAL, 2))) else spec,
        GRAND_FINAL := FINAL_SPEC]
  }

  ghost predicate IsDoubleElim(sides: seq<Team>, plan: DoubleElimPlan) {
    && plan.size == Pow2(Rounds(sides)) && plan.wbRounds == Rounds(sides)
    && if Rounds(sides) == 1 then plan.matches == TwoTeamPlan(sides) && plan.lbRounds == 0
       else exists ms :: IsStructural(sides, ms) && Renumbered(ms, plan.matches, LosersRounds(ms))
                         && plan.lbRounds == |LosersRounds(ms)|
  }

  lemma DoneFeed(sh: Shape, t: Token)
    requires sh.Valid() && Producer(sh, t)
    ensures FeedSoFar(sh, t, sh.Rounds() + 1, 0) == AsFeed(FeedFor(sh, t))
    ensures FeedFor(sh, t).Lands? ==> Emitted(sh, FeedFor(sh, t).spot.round, FeedFor(sh, t).spot.slot)
  {
    FeedIsRight(sh, t);
  }

  lemma FeedOfProducerPresent(sides: seq<Team>, flow: map<MatchId, Spec>, t: Token)
    requires Rounds(sides) >= 2 && IsSoFar(sides, flow, LoserShape(sides).Rounds() + 1, 0)
    requires Producer(LoserShape(sides), t)
    ensures FeedPresent(FeedSoFar(LoserShape(sides), t, LoserShape(sides).Rounds() + 1, 0), LosersRounds(flow))
  {
    var sh := LoserShape(sides);
    DoneFeed(sh, t);
    if FeedFor(sh, t).Lands? {
      var x := FeedFor(sh, t).spot;
      assert MatchId(Losers, x.round, x.slot) in flow;
    }
  }

  lemma StructuralFeedsPresent(sides: seq<Team>, flow: map<MatchId, Spec>)
    requires Rounds(sides) >= 2 && IsSoFar(sides, flow, LoserShape(sides).Rounds() + 1, 0)
    ensures FeedsPresent(flow)
  {
    forall id | id in flow
      ensures FeedPresent(flow[id].win, LosersRounds(flow)) && FeedPresent(flow[id].lose, LosersRounds(flow))
    {
      if id.group == Losers {
        FeedOfProducerPresent(sides, flow, Token.Winner(id.round, id.slot));
      } else {
        AliveIsProducer(sides, id.round, id.slot);
        if Alive(sides, id.round, id.slot) {
          FeedOfProducerPresent(sides, flow, Loser(Source(id.round, id.slot)));
        }
      }
    }
  }

  lemma NothingWiredYet(sides: seq<Team>, ms: map<MatchId, Spec>)
    requires Rounds(sides) >= 2
    requires SingleElimination.AreSpecs(sides, Winners, To(Entry(GRAND_FINAL, 1)), ms)
    ensures IsSoFar(sides, ms, 1, 0)
  {
    var sh := LoserShape(sides);
    forall id | id in ms
      ensures id.group == Winners && Bracket.ValidCoord(Rounds(sides), id.round, id.slot)
      ensures ms[id] == WinnersSpec(sides, id.round, id.slot).(lose := LoserFeedSoFar(sides, id.round, id.slot, 1, 0))
    {
      if Alive(sides, id.round, id.slot) {
        AliveIsProducer(sides, id.round, id.slot);
        NotFedYet(sh, Loser(Source(id.round, id.slot)));
      }
    }
  }

  lemma NotFedYet(sh: Shape, t: Token)
    requires sh.Valid() && Producer(sh, t)
    ensures FeedSoFar(sh, t, 1, 0) == NoFeed
  {
    FeedIsRight(sh, t);
  }

  lemma StructuralIsPresent(sides: seq<Team>, ms: map<MatchId, Spec>)
    requires Rounds(sides) >= 2 && IsStructural(sides, ms)
    ensures FeedsPresent(ms)
  {
    var flow := ms - {GRAND_FINAL};
    StructuralFeedsPresent(sides, flow);
    assert LosersRounds(flow) == LosersRounds(ms) by {
      forall r ensures r in LosersRounds(flow) <==> r in LosersRounds(ms) {
        if r in LosersRounds(ms) {
          var id :| id in ms && id.group == Losers && id.round == r;
          assert id in flow;
        }
      }
    }
    forall id | id in ms
      ensures FeedPresent(ms[id].win, LosersRounds(ms)) && FeedPresent(ms[id].lose, LosersRounds(ms))
    {
      if id != GRAND_FINAL {
        assert id in flow && flow[id] == ms[id];
      }
    }
  }

  /** The last losers round after renumbering is the number of rounds present. */
  lemma LastRoundIsCount(ms: map<MatchId, Spec>, out: map<MatchId, Spec>, max: nat)
    requires Renumbered(ms, out, LosersRounds(ms))
    requires forall id | id in out && id.group == Losers :: id.round <= max
    requires max == 0 || exists id :: id in out && id.group == Losers && id.round == max
    ensures max == |LosersRounds(ms)|
  {
    var present := LosersRounds(ms);
    if present != {} {
      LastRoundReached(ms, out, max);
    }
    if max != 0 {
      var o :| o in out && o.group == Losers && o.round == max;
      RoundWithinCount(ms, out, o);
    }
  }

  lemma LastRoundReached(ms: map<MatchId, Spec>, out: map<MatchId, Spec>, max: nat)
    requires Renumbered(ms, out, LosersRounds(ms)) && LosersRounds(ms) != {}
    requires forall id | id in out && id.group == Losers :: id.round <= max
    ensures |LosersRounds(ms)| <= max
  {
    var present := LosersRounds(ms);
    var r := Relabel.NoGaps(present, |present|);
    var id :| id in ms && id.group == Losers && id.round == r;
    assert RenameId(present, id) in out;
  }

  lemma RoundWithinCount(ms: map<MatchId, Spec>, out: map<MatchId, Spec>, o: MatchId)
    requires Renumbered(ms, out, LosersRounds(ms)) && o in out && o.group == Losers
    ensures 1 <= o.round <= |LosersRounds(ms)|
  {
    var present := LosersRounds(ms);
    var id :| id in ms && o == RenameId(present, id);
    assert id.round in present;
    Relabel.RankKeepsOrder(present, id.round, id.round);
  }

  method Generate(sides: seq<Team>) returns (plan: DoubleElimPlan)
    ensures IsDoubleElim(sides, plan)
  {
    var wb := Bracket.Generate(sides);
    var n, k := wb.size, wb.rounds;
    var ms := TagWinners(sides, wb);
    if k == 1 {
      ms := AddTwoTeamFinal(sides, ms);
      plan := DoubleElimPlan(n, k, 0, ms);
    } else {
      var out, last := AddLosers(sides, ms, n, k);
      plan := DoubleElimPlan(n, k, last, out);
    }
  }

  /** Two entrants: no losers bracket, the loser drops straight to the grand final. */
  method AddTwoTeamFinal(ghost sides: seq<Team>, winners: map<MatchId, Spec>) returns (ms: map<MatchId, Spec>)
    requires Rounds(sides) == 1 && SingleElimination.AreSpecs(sides, Winners, To(Entry(GRAND_FINAL, 1)), winners)
    ensures ms == TwoTeamPlan(sides)
  {
    ms := winners;
    var id := MatchId(Winners, 1, 0);
    if ms[id].resolvedWinner.None? {
      ms := ms[id := ms[id].(lose := To(Entry(GRAND_FINAL, 2)))];
    }
    ms := ms[GRAND_FINAL := FINAL_SPEC];
  }

  /** Three entrants or more: the losers bracket, the grand final, and the renumbering. */
  method AddLosers(ghost sides: seq<Team>, winners: map<MatchId, Spec>, n: nat, k: nat)
    returns (out: map<MatchId, Spec>, last: nat)
    requires k == Rounds(sides) >= 2 && n == Pow2(k)
    requires SingleElimination.AreSpecs(sides, Winners, To(Entry(GRAND_FINAL, 1)), winners)
    ensures exists ms :: IsStructural(sides, ms) && Renumbered(ms, out, LosersRounds(ms)) && last == |LosersRounds(ms)|
  {
    var ms := FlowAll(sides, winners, n, k);
    out, last := CloseGaps(sides, ms);
  }

  method FlowAll(ghost sides: seq<Team>, winners: map<MatchId, Spec>, n: nat, k: nat) returns (ms: map<MatchId, Spec>)
    requires k == Rounds(sides) >= 2 && n == Pow2(k)
    requires SingleElimination.AreSpecs(sides, Winners, To(Entry(GRAND_FINAL, 1)), winners)
    ensures IsStructural(sides, ms)
  {
    NothingWiredYet(sides, winners);
    var lbRounds := 2 * (k - 1);
    var flow := SeedAndFlow(sides, winners, n, lbRounds);
    WithFinalIsStructural(sides, flow);
    ms := flow[GRAND_FINAL := FINAL_SPEC];
  }

  method SeedAndFlow(ghost sides: seq<Team>, winners: map<MatchId, Spec>, n: nat, lbRounds: nat)
    returns (flow: map<MatchId, Spec>)
    requires Rounds(sides) >= 2 && n == Pow2(Rounds(sides)) && lbRounds == LoserShape(sides).Rounds()
    requires IsSoFar(sides, winners, 1, 0)
    ensures IsSoFar(sides, flow, lbRounds + 1, 0)
  {
    var incoming := SeedIncoming(sides, winners, n, lbRounds);
    flow := FlowLosers(sides, winners, incoming, n, lbRounds);
  }

  method CloseGaps(ghost sides: seq<Team>, ms: map<MatchId, Spec>) returns (out: map<MatchId, Spec>, last: nat)
    requires Rounds(sides) >= 2 && IsStructural(sides, ms)
    ensures Renumbered(ms, out, LosersRounds(ms)) && last == |LosersRounds(ms)|
  {
    StructuralIsPresent(sides, ms);
    out := Renumber(ms);
    last := LbRoundCount(out);
    LastRoundIsCount(ms, out, last);
  }

  lemma WithFinalIsStructural(sides: seq<Team>, flow: map<MatchId, Spec>)
    requires Rounds(sides) >= 2 && IsSoFar(sides, flow, LoserShape(sides).Rounds() + 1, 0)
    ensures IsStructural(sides, flow[GRAND_FINAL := FINAL_SPEC])
  {
    assert GRAND_FINAL !in flow;
    assert flow[GRAND_FINAL := FINAL_SPEC] - {GRAND_FINAL} == flow;
  }

  /** Reuse the single-elimination structure as the winners tier. */
  method TagWinners(ghost sides: seq<Team>, wb: Bracket.BracketPlan) returns (ms: map<MatchId, Spec>)
    requires Bracket.IsBracket(sides, wb)
    ensures SingleElimination.AreSpecs(sides, Winners, To(Entry(GRAND_FINAL, 1)), ms)
  {
    ms := SingleElimination.Tag(wb, Winners, To(Entry(GRAND_FINAL, 1)));
    SingleElimination.SpecsAreSpecs(sides, wb, Winners, To(Entry(GRAND_FINAL, 1)));
  }
}
