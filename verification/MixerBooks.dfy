/** schedule.go: the mixer's partner and opponent counters are the schedule's own history. */
module MixerBooks {
  import opened Circle
  import opened Names
  import opened Schedule
  import opened Mixer

  /** These two, whichever way round. */
  predicate Same(a: string, b: string, x: string, y: string) {
    (a == x && b == y) || (a == y && b == x)
  }

  function One(b: bool): nat {
    if b then 1 else 0
  }

  /** Two couples share a counter exactly when they are the same two players. */
  lemma KeyIsTheCouple(a: string, b: string, x: string, y: string)
    ensures Key(a, b) == Key(x, y) <==> Same(a, b, x, y)
  {
    NotBoth(a, b);
    NotBoth(x, y);
    OneOrTheOther(a, b);
    OneOrTheOther(x, y);
  }

  lemma BumpedCount(counts: map<Couple, nat>, a: string, b: string, x: string, y: string)
    ensures Tally(Bumped(counts, a, b), x, y) == Tally(counts, x, y) + One(Same(a, b, x, y))
  {
    KeyIsTheCouple(a, b, x, y);
  }

  // ---- What a game means for two players.

  function Partnered(t: Team, x: string, y: string): nat {
    One(Same(t.first, t.second, x, y))
  }

  function Opposed(t1: Team, t2: Team, x: string, y: string): nat {
    One(Same(t1.first, t2.first, x, y)) + One(Same(t1.first, t2.second, x, y))
    + One(Same(t1.second, t2.first, x, y)) + One(Same(t1.second, t2.second, x, y))
  }

  /** How often two players stand on the same side of a game. */
  ghost function SideBySide(game: Pairing<Side>, x: string, y: string): nat {
    (if |game.a| == 2 then One(Same(game.a[0], game.a[1], x, y)) else 0)
    + (if |game.b| == 2 then One(Same(game.b[0], game.b[1], x, y)) else 0)
  }

  /** How often they face each other in it. */
  ghost function FaceToFace(game: Pairing<Side>, x: string, y: string): nat {
    if |game.a| == |game.b| == 2 then
      One(Same(game.a[0], game.b[0], x, y)) + One(Same(game.a[0], game.b[1], x, y))
      + One(Same(game.a[1], game.b[0], x, y)) + One(Same(game.a[1], game.b[1], x, y))
    else 0
  }

  ghost function Partnerships(round: RawRound, x: string, y: string): nat {
    if round == [] then 0 else SideBySide(round[0], x, y) + Partnerships(round[1..], x, y)
  }

  ghost function Oppositions(round: RawRound, x: string, y: string): nat {
    if round == [] then 0 else FaceToFace(round[0], x, y) + Oppositions(round[1..], x, y)
  }

  lemma RecordedPartners(l: Ledger, t1: Team, t2: Team, x: string, y: string)
    ensures Tally(Recorded(l, t1, t2).partners, x, y) == Tally(l.partners, x, y) + Partnered(t1, x, y) + Partnered(t2, x, y)
  {
    BumpedCount(l.partners, t1.first, t1.second, x, y);
    BumpedCount(Bumped(l.partners, t1.first, t1.second), t2.first, t2.second, x, y);
  }

  lemma RecordedOpponents(l: Ledger, t1: Team, t2: Team, x: string, y: string)
    ensures Tally(Recorded(l, t1, t2).opponents, x, y) == Tally(l.opponents, x, y) + Opposed(t1, t2, x, y)
  {
    var once := Bumped(l.opponents, t1.first, t2.first);
    var twice := Bumped(once, t1.first, t2.second);
    var thrice := Bumped(twice, t1.second, t2.first);
    BumpedCount(l.opponents, t1.first, t2.first, x, y);
    BumpedCount(once, t1.first, t2.second, x, y);
    BumpedCount(twice, t1.second, t2.first, x, y);
    BumpedCount(thrice, t1.second, t2.second, x, y);
  }

  // ---- A round.

  lemma FirstGame(t1: Team, t2: Team, later: RawRound, x: string, y: string)
    ensures
      var round := [Pairing(t1.AsSide(), t2.AsSide())] + later;
      && Partnerships(round, x, y) == Partnered(t1, x, y) + Partnered(t2, x, y) + Partnerships(later, x, y)
      && Oppositions(round, x, y) == Opposed(t1, t2, x, y) + Oppositions(later, x, y)
  {
    var round := [Pairing(t1.AsSide(), t2.AsSide())] + later;
    assert round[1..] == later;
  }

  /** The counters after some games are those before plus what the games say. */
  ghost predicate Booked(before: Ledger, round: RawRound, after: Ledger, x: string, y: string) {
    && Tally(after.partners, x, y) == Tally(before.partners, x, y) + Partnerships(round, x, y)
    && Tally(after.opponents, x, y) == Tally(before.opponents, x, y) + Oppositions(round, x, y)
  }

  lemma OneGameBooked(l: Ledger, teams: seq<Team>, x: string, y: string) returns (l2: Ledger, less: seq<Team>)
    requires |teams| % 2 == 0 && teams != []
    ensures |less| == |teams| - 2
    ensures Booked(l2, PairUp(l2, less).games, PairUp(l2, less).ledger, x, y)
      ==> Booked(l, PairUp(l, teams).games, PairUp(l, teams).ledger, x, y)
  {
    var t1, rest := teams[0], teams[1..];
    var best := BestOpponents(l, t1, rest, |rest|);
    var t2 := rest[best];
    less, l2 := Without(rest, best), Recorded(l, t1, t2);
    RecordedPartners(l, t1, t2, x, y);
    RecordedOpponents(l, t1, t2, x, y);
    FirstGame(t1, t2, PairUp(l2, less).games, x, y);
  }

  lemma {:induction false} GamesAreBooked(l: Ledger, teams: seq<Team>, x: string, y: string)
    requires |teams| % 2 == 0
    ensures Booked(l, PairUp(l, teams).games, PairUp(l, teams).ledger, x, y)
    decreases |teams|
  {
    if teams != [] {
      var l2, less := OneGameBooked(l, teams, x, y);
      GamesAreBooked(l2, less, x, y);
    }
  }

  lemma MixIsBooked(l: Ledger, players: seq<string>, x: string, y: string)
    ensures Booked(l, MixRound(l, players).games, MixRound(l, players).ledger, x, y)
  {
    var active := Active(l.games, players);
    Twos(|active|);
    if |active| >= 4 {
      GamesAreBooked(l, Teams(l, active), x, y);
    }
  }

  lemma RoundIsBooked(players: seq<string>, out: seq<RawRound>, books: seq<Ledger>, r: nat, x: string, y: string)
    requires r < |out| < |books| && PlaysRound(players, out, books, r)
    ensures Booked(books[r], out[r], books[r + 1], x, y)
  {
    MixIsBooked(books[r], players, x, y);
  }

  // ---- The whole schedule.

  ghost function PartnershipsIn(rounds: seq<RawRound>, x: string, y: string): nat {
    if rounds == [] then 0
    else
      var n := |rounds| - 1;
      PartnershipsIn(rounds[..n], x, y) + Partnerships(rounds[n], x, y)
  }

  ghost function OppositionsIn(rounds: seq<RawRound>, x: string, y: string): nat {
    if rounds == [] then 0
    else
      var n := |rounds| - 1;
      OppositionsIn(rounds[..n], x, y) + Oppositions(rounds[n], x, y)
  }

  /** The counters a round is made from say how often two players have partnered and faced each other so far. */
  lemma {:induction false} CountersAreHistory(players: seq<string>, out: seq<RawRound>, books: seq<Ledger>, r: nat,
                                              x: string, y: string)
    requires MixedBy(players, out, books) && r <= |out|
    ensures Tally(books[r].partners, x, y) == PartnershipsIn(out[..r], x, y)
    ensures Tally(books[r].opponents, x, y) == OppositionsIn(out[..r], x, y)
    decreases r
  {
    if r > 0 {
      CountersAreHistory(players, out, books, r - 1, x, y);
      assert PlaysRound(players, out, books, r - 1);
      RoundIsBooked(players, out, books, r - 1, x, y);
      assert out[..r][..r - 1] == out[..r - 1];
    }
  }
}
