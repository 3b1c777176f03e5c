/** The bye-aware token flow that double_elim.go, consolation.go and compass.go share.

    A tree of matches has fixed coordinates, but byes leave some seats without anyone to
    fill them. A team with nobody to meet skips on; only a match that will have two real
    teams is emitted, and the feed of whoever produces a team must name the match that
    team really plays next. This module says what the flow computes, for both tree shapes
    the source builds, and proves that the feeds are right under every bye pattern. */
module Collapse {
  import opened Powers

  /** `Lane`: a plain knock-out tree over 2^depth sources.
      `Ladder`: a losers bracket for 2^k entrants, whose rounds alternate between pairing
      its own winners and taking in the losers of the next winners round. */
  datatype Shape = Lane(depth: nat, alive: seq<bool>) | Ladder(k: nat, alive: seq<bool>)
  {
    /** `alive` says which of the opening sources produce a team. */
    predicate Valid() {
      match this
      case Lane(depth, alive) => depth >= 1 && |alive| == Pow2(depth)
      case Ladder(k, alive) => k >= 2 && |alive| == Pow2(k - 1)
    }

    function Rounds(): nat
      requires Valid()
    {
      match this
      case Lane(depth, _) => depth
      case Ladder(k, _) => 2 * (k - 1)
    }

    /** Matches in round `r` before any collapse. */
    function Width(r: nat): nat
      requires Valid() && 1 <= r <= Rounds()
    {
      match this
      case Lane(depth, _) => Pow2(depth - r)
      case Ladder(k, _) => Pow2(k - 1 - (r + 1) / 2)
    }
  }

  /** Where a team comes into the tree from: slot `slot` of the opening sources (round 1),
      or the loser of slot `slot` of winners round `round`. */
  datatype Source = Source(round: nat, slot: nat)

  /** A seat of the tree: team 1 or 2 of match (round, slot). */
  datatype Spot = Spot(round: nat, slot: nat, team: nat)

  /** What fills a seat: nobody (a bye), a source's loser, or the winner of a tree match. */
  datatype Token = Bye | Loser(source: Source) | Winner(round: nat, slot: nat)

  datatype Feeder = FromSource(source: Source) | FromMatch(round: nat, slot: nat)

  /** Where a token ends up: in a match it really plays, or out at the top of the tree. */
  datatype Landing = Lands(spot: Spot) | Top

  predicate ValidMatch(sh: Shape, r: nat, j: nat)
    requires sh.Valid()
  {
    1 <= r <= sh.Rounds() && j < sh.Width(r)
  }

  predicate ValidSpot(sh: Shape, e: Spot)
    requires sh.Valid()
  {
    ValidMatch(sh, e.round, e.slot) && (e.team == 1 || e.team == 2)
  }

  predicate ValidSource(sh: Shape, s: Source)
    requires sh.Valid()
  {
    match sh
    case Lane(depth, _) => s.round == 1 && s.slot < Pow2(depth)
    case Ladder(k, _) => 1 <= s.round <= k && s.slot < Pow2(k - s.round)
  }

  /** Whether a source has a loser to drop: only opening sources can be byes. */
  predicate RealSource(sh: Shape, s: Source)
    requires sh.Valid() && ValidSource(sh, s)
  {
    s.round == 1 ==> sh.alive[s.slot]
  }

  /** The come-around permutation: the losers of winners round `r` (`cnt` of them) drop in
      reversed order on even rounds and shifted by half on odd ones. */
  function ComeAround(r: nat, cnt: nat, j: nat): (src: nat)
    requires j < cnt
    ensures src < cnt
  {
    if r % 2 == 1 && cnt > 1 then (j + cnt / 2) % cnt else cnt - 1 - j
  }

  /** Who fills a seat before any collapse. */
  function FeederOf(sh: Shape, e: Spot): Feeder
    requires sh.Valid() && ValidSpot(sh, e)
  {
    if e.round == 1 then FromSource(Source(1, 2 * e.slot + e.team - 1))
    else if sh.Ladder? && e.round % 2 == 0 then
      if e.team == 1 then FromMatch(e.round - 1, e.slot)
      else FromSource(Source(e.round / 2 + 1, ComeAround(e.round / 2 + 1, sh.Width(e.round), e.slot)))
    else FromMatch(e.round - 1, 2 * e.slot + e.team - 1)
  }

  /** The seat a match's output goes to. */
  function Up(sh: Shape, r: nat, j: nat): Spot
    requires sh.Valid()
  {
    if sh.Ladder? && r % 2 == 1 then Spot(r + 1, j, 1) else Spot(r + 1, j / 2, j % 2 + 1)
  }

  /** The seat a source drops into. */
  function Home(sh: Shape, s: Source): Spot
    requires sh.Valid() && ValidSource(sh, s)
  {
    if s.round == 1 then Spot(1, s.slot / 2, s.slot % 2 + 1)
    else Spot(2 * (s.round - 1), ComeAround(s.round, Pow2(sh.k - s.round), s.slot), 2)
  }

  // --- the tree's geometry -------------------------------------------------------

  lemma WidthStep(sh: Shape, r: nat)
    requires sh.Valid() && 2 <= r <= sh.Rounds()
    ensures sh.Width(r - 1) == if sh.Ladder? && r % 2 == 0 then sh.Width(r) else 2 * sh.Width(r)
  {
    if sh.Ladder? {
      if r % 2 == 0 {
        assert (r + 1) / 2 == r / 2;
      } else {
        assert r / 2 == (r + 1) / 2 - 1;
      }
    }
  }

  lemma OpeningWidth(sh: Shape)
    requires sh.Valid()
    ensures 2 * sh.Width(1) == |sh.alive|
  {
  }

  lemma TopWidth(sh: Shape)
    requires sh.Valid()
    ensures sh.Width(sh.Rounds()) == 1
  {
  }

  lemma DropWidth(sh: Shape, r: nat)
    requires sh.Valid() && sh.Ladder? && 2 <= r <= sh.k
    ensures sh.Width(2 * (r - 1)) == Pow2(sh.k - r)
  {
    assert (2 * (r - 1) + 1) / 2 == r - 1;
  }

  lemma WrapOnce(x: nat, c: nat)
    requires 0 < c && x < 2 * c
    ensures x % c == if x < c then x else x - c
  {
    if x >= c {
      assert x == c * 1 + (x - c);
      assert x / c == 1;
    }
  }

  /** The come-around permutation undoes itself, so each round's drops are a bijection. */
  lemma ComeAroundInvolution(r: nat, m: nat, j: nat)
    requires j < Pow2(m)
    ensures ComeAround(r, Pow2(m), ComeAround(r, Pow2(m), j)) == j
  {
    var cnt := Pow2(m);
    if r % 2 == 1 && cnt > 1 {
      var half := cnt / 2;
      assert cnt == 2 * half;
      var src := ComeAround(r, cnt, j);
      WrapOnce(j + half, cnt);
      WrapOnce(src + half, cnt);
    }
  }

  lemma HomeIsFedBySource(sh: Shape, s: Source)
    requires sh.Valid() && ValidSource(sh, s)
    ensures ValidSpot(sh, Home(sh, s)) && FeederOf(sh, Home(sh, s)) == FromSource(s)
  {
    OpeningWidth(sh);
    if s.round == 1 {
      assert sh.Ladder? ==> Pow2(sh.k - 1) == |sh.alive|;
    } else {
      DropWidth(sh, s.round);
      ComeAroundInvolution(s.round, sh.k - s.round, s.slot);
    }
  }

  lemma FeederIsHome(sh: Shape, e: Spot)
    requires sh.Valid() && ValidSpot(sh, e) && FeederOf(sh, e).FromSource?
    ensures ValidSource(sh, FeederOf(sh, e).source) && Home(sh, FeederOf(sh, e).source) == e
  {
    OpeningWidth(sh);
    if e.round > 1 {
      var r := e.round / 2 + 1;
      assert e.round == 2 * (r - 1);
      DropWidth(sh, r);
      ComeAroundInvolution(r, sh.k - r, e.slot);
    }
  }

  lemma UpIsFedByMatch(sh: Shape, r: nat, j: nat)
    requires sh.Valid() && ValidMatch(sh, r, j) && r < sh.Rounds()
    ensures ValidSpot(sh, Up(sh, r, j)) && FeederOf(sh, Up(sh, r, j)) == FromMatch(r, j)
  {
    WidthStep(sh, r + 1);
  }

  lemma FeederIsBelow(sh: Shape, e: Spot)
    requires sh.Valid() && ValidSpot(sh, e) && FeederOf(sh, e).FromMatch?
    ensures var f := FeederOf(sh, e);
            f.round == e.round - 1 && ValidMatch(sh, f.round, f.slot) && Up(sh, f.round, f.slot) == e
  {
    WidthStep(sh, e.round);
  }

  // --- the flow --------------------------------------------------------------------

  /** What a match passes on, given what sits on its two sides. */
  function Meet(a: Token, b: Token, r: nat, j: nat): Token {
    if a != Bye && b != Bye then Winner(r, j) else if a != Bye then a else b
  }

  /** Who sits in a seat once every bye below it has been skipped. */
  function In(sh: Shape, e: Spot): Token
    requires sh.Valid() && ValidSpot(sh, e)
    decreases e.round, 0
  {
    match FeederOf(sh, e)
    case FromSource(s) => FeederIsHome(sh, e); if RealSource(sh, s) then Loser(s) else Bye
    case FromMatch(r, j) => FeederIsBelow(sh, e); OutOf(sh, r, j)
  }

  /** Who comes out of a match, played or skipped. */
  function OutOf(sh: Shape, r: nat, j: nat): Token
    requires sh.Valid() && ValidMatch(sh, r, j)
    decreases r, 1
  {
    Meet(In(sh, Spot(r, j, 1)), In(sh, Spot(r, j, 2)), r, j)
  }

  /** A match that two real teams will play. */
  predicate Emitted(sh: Shape, r: nat, j: nat)
    requires sh.Valid()
  {
    ValidMatch(sh, r, j) && In(sh, Spot(r, j, 1)) != Bye && In(sh, Spot(r, j, 2)) != Bye
  }

  /** A token somebody really stands behind. */
  predicate Producer(sh: Shape, t: Token)
    requires sh.Valid()
  {
    match t
    case Bye => false
    case Loser(s) => ValidSource(sh, s) && RealSource(sh, s)
    case Winner(r, j) => Emitted(sh, r, j)
  }

  function OtherSide(e: Spot): Spot {
    Spot(e.round, e.slot, if e.team == 1 then 2 else 1)
  }

  /** The match a team sitting in seat `e` will really play. */
  function Dest(sh: Shape, e: Spot): Landing
    requires sh.Valid() && ValidSpot(sh, e)
    decreases sh.Rounds() - e.round
  {
    if In(sh, OtherSide(e)) != Bye then Lands(e)
    else if e.round == sh.Rounds() then Top
    else UpIsFedByMatch(sh, e.round, e.slot); Dest(sh, Up(sh, e.round, e.slot))
  }

  /** The feed of a producer: the match its team plays next. */
  function FeedFor(sh: Shape, t: Token): Landing
    requires sh.Valid() && Producer(sh, t)
  {
    match t
    case Loser(s) => HomeIsFedBySource(sh, s); Dest(sh, Home(sh, s))
    case Winner(r, j) =>
      if r == sh.Rounds() then Top else UpIsFedByMatch(sh, r, j); Dest(sh, Up(sh, r, j))
  }

  /** The token that comes out at the top of the whole tree. */
  function Champion(sh: Shape): Token
    requires sh.Valid()
  {
    TopWidth(sh);
    OutOf(sh, sh.Rounds(), 0)
  }

  lemma {:induction false} InIsProducer(sh: Shape, e: Spot)
    requires sh.Valid() && ValidSpot(sh, e) && In(sh, e) != Bye
    ensures Producer(sh, In(sh, e))
    decreases e.round
  {
    match FeederOf(sh, e)
    case FromSource(s) => FeederIsHome(sh, e);
    case FromMatch(r, j) =>
      FeederIsBelow(sh, e);
      if !Emitted(sh, r, j) {
        InIsProducer(sh, if In(sh, Spot(r, j, 1)) != Bye then Spot(r, j, 1) else Spot(r, j, 2));
      }
  }

  /** Upwards: whoever sits in seat `e` has the feed that leads where seat `e` leads. */
  lemma {:induction false} FeedOfOccupant(sh: Shape, e: Spot)
    requires sh.Valid() && ValidSpot(sh, e) && In(sh, e) != Bye
    ensures Producer(sh, In(sh, e)) && FeedFor(sh, In(sh, e)) == Dest(sh, e)
    decreases e.round
  {
    InIsProducer(sh, e);
    match FeederOf(sh, e)
    case FromSource(s) => FeederIsHome(sh, e);
    case FromMatch(r, j) =>
      FeederIsBelow(sh, e);
      if !Emitted(sh, r, j) {
        var below := if In(sh, Spot(r, j, 1)) != Bye then Spot(r, j, 1) else Spot(r, j, 2);
        FeedOfOccupant(sh, below);
        assert In(sh, OtherSide(below)) == Bye;
      }
  }

  /** Downwards: the match seat `e` leads to is a real one, and the same team sits there;
      a seat that leads out of the tree holds the team that comes out. */
  lemma {:induction false} OccupantOfDest(sh: Shape, e: Spot)
    requires sh.Valid() && ValidSpot(sh, e) && In(sh, e) != Bye
    ensures match Dest(sh, e)
            case Lands(x) => ValidSpot(sh, x) && Emitted(sh, x.round, x.slot) && In(sh, x) == In(sh, e)
                             && x.round >= e.round
            case Top => Champion(sh) == In(sh, e)
    decreases sh.Rounds() - e.round
  {
    TopWidth(sh);
    assert {e, OtherSide(e)} == {Spot(e.round, e.slot, 1), Spot(e.round, e.slot, 2)};
    if In(sh, OtherSide(e)) == Bye {
      assert OutOf(sh, e.round, e.slot) == In(sh, e);
      if e.round < sh.Rounds() {
        UpIsFedByMatch(sh, e.round, e.slot);
        OccupantOfDest(sh, Up(sh, e.round, e.slot));
      }
    }
  }

  /** A producer's feed names a real match that the producer's team sits in, later than the
      producer; a producer whose team comes out of the tree is its champion. */
  lemma FeedIsRight(sh: Shape, t: Token)
    requires sh.Valid() && Producer(sh, t)
    ensures match FeedFor(sh, t)
            case Lands(x) => ValidSpot(sh, x) && Emitted(sh, x.round, x.slot) && In(sh, x) == t
                             && (t.Winner? ==> x.round > t.round)
            case Top => t == Champion(sh)
  {
    match t
    case Loser(s) =>
      HomeIsFedBySource(sh, s);
      OccupantOfDest(sh, Home(sh, s));
    case Winner(r, j) =>
      TopWidth(sh);
      if r < sh.Rounds() {
        UpIsFedByMatch(sh, r, j);
        OccupantOfDest(sh, Up(sh, r, j));
      }
  }

  /** Each side of each emitted match has exactly one producing feed: the team the flow put
      there is fed there, and no other producer's feed names that seat. */
  lemma EachSideFedOnce(sh: Shape, x: Spot)
    requires sh.Valid() && ValidSpot(sh, x) && Emitted(sh, x.round, x.slot)
    ensures Producer(sh, In(sh, x)) && FeedFor(sh, In(sh, x)) == Lands(x)
    ensures forall t | Producer(sh, t) && FeedFor(sh, t) == Lands(x) :: t == In(sh, x)
  {
    assert {x, OtherSide(x)} == {Spot(x.round, x.slot, 1), Spot(x.round, x.slot, 2)};
    FeedOfOccupant(sh, x);
    forall t | Producer(sh, t) && FeedFor(sh, t) == Lands(x) ensures t == In(sh, x) {
      FeedIsRight(sh, t);
    }
  }

  /** Exactly one producer comes out at the top. */
  lemma ChampionFedOut(sh: Shape, t: Token)
    requires sh.Valid() && Producer(sh, t)
    ensures FeedFor(sh, t) == Top <==> t == Champion(sh)
  {
    FeedIsRight(sh, t);
    if t == Champion(sh) {
      TopWidth(sh);
      var a, b := Spot(sh.Rounds(), 0, 1), Spot(sh.Rounds(), 0, 2);
      if !Emitted(sh, sh.Rounds(), 0) {
        var e := if In(sh, a) != Bye then a else b;
        FeedOfOccupant(sh, e);
        assert In(sh, OtherSide(e)) == Bye;
      }
    }
  }

  /** Match (r, s) comes before match (lr, j) in the order the flow handles them. */
  predicate Before(r: nat, s: nat, lr: nat, j: nat) {
    r < lr || (r == lr && s < j)
  }

  /** The two teams of an emitted match come from different producers. */
  lemma SidesDiffer(sh: Shape, lr: nat, j: nat)
    requires sh.Valid() && Emitted(sh, lr, j)
    ensures In(sh, Spot(lr, j, 1)) != In(sh, Spot(lr, j, 2))
    ensures Producer(sh, In(sh, Spot(lr, j, 1))) && Producer(sh, In(sh, Spot(lr, j, 2)))
  {
    EachSideFedOnce(sh, Spot(lr, j, 1));
    EachSideFedOnce(sh, Spot(lr, j, 2));
  }

  /** Whoever sits in a seat was produced in an earlier round. */
  lemma {:induction false} OccupantIsEarlier(sh: Shape, e: Spot)
    requires sh.Valid() && ValidSpot(sh, e)
    ensures In(sh, e).Winner? ==> In(sh, e).round < e.round
    ensures In(sh, e).Loser? ==> ValidSource(sh, In(sh, e).source)
    decreases e.round
  {
    match FeederOf(sh, e)
    case FromSource(s) => FeederIsHome(sh, e);
    case FromMatch(r, j) =>
      FeederIsBelow(sh, e);
      OccupantIsEarlier(sh, Spot(r, j, 1));
      OccupantIsEarlier(sh, Spot(r, j, 2));
  }

  /** Once a match is really played, the team that comes out at the top has won one. */
  lemma {:induction false} ChampionHasWon(sh: Shape, r: nat, j: nat)
    requires sh.Valid() && Emitted(sh, r, j)
    ensures Champion(sh).Winner?
    decreases sh.Rounds() - r
  {
    var t := Winner(r, j);
    FeedIsRight(sh, t);
    if FeedFor(sh, t).Lands? {
      ChampionHasWon(sh, FeedFor(sh, t).spot.round, FeedFor(sh, t).spot.slot);
    }
  }

  /** With two sources that produce a team, each of them drops into a match that is played. */
  lemma EveryDropperPlays(sh: Shape, a: Source, b: Source)
    requires sh.Valid() && Producer(sh, Loser(a)) && Producer(sh, Loser(b)) && a != b
    ensures FeedFor(sh, Loser(a)).Lands? && Champion(sh).Winner?
  {
    FeedIsRight(sh, Loser(a));
    FeedIsRight(sh, Loser(b));
    var played := if FeedFor(sh, Loser(a)).Lands? then FeedFor(sh, Loser(a)) else FeedFor(sh, Loser(b));
    ChampionHasWon(sh, played.spot.round, played.spot.slot);
  }

  // --- lanes --------------------------------------------------------------------------

  /** The rounds of a tree that still have a match. */
  function EmittedRounds(sh: Shape): set<nat>
    requires sh.Valid() && sh.Lane?
  {
    set r, j | 1 <= r <= sh.depth && 0 <= j < Pow2(sh.depth) && Emitted(sh, r, j) :: r
  }

  lemma EmittedRoundPresent(sh: Shape, r: nat, j: nat)
    requires sh.Valid() && sh.Lane? && Emitted(sh, r, j)
    ensures r in EmittedRounds(sh)
  {
    Pow2Monotone(sh.depth - r, sh.depth);
  }

  lemma EmittedInRange(sh: Shape, r: nat, j: nat)
    requires sh.Valid() && sh.Lane? && Emitted(sh, r, j)
    ensures 1 <= r <= sh.depth && j < Pow2(sh.depth - r)
  {
    assert ValidMatch(sh, r, j);
  }

  /** In a lane, the droppers are the sources whose loser is a producer. */
  lemma LoserIsDropper(sh: Shape, s: nat)
    requires sh.Valid() && sh.Lane?
    ensures Producer(sh, Loser(Source(1, s))) <==> s < |sh.alive| && sh.alive[s]
  {
  }

  lemma {:induction false} LaneSourcesOpen(sh: Shape, e: Spot)
    requires sh.Valid() && sh.Lane? && ValidSpot(sh, e)
    ensures In(sh, e).Loser? ==> In(sh, e).source.round == 1
    decreases e.round
  {
    if e.round > 1 {
      FeederIsBelow(sh, e);
      var f := FeederOf(sh, e);
      LaneSourcesOpen(sh, Spot(f.round, f.slot, 1));
      LaneSourcesOpen(sh, Spot(f.round, f.slot, 2));
    }
  }
}
