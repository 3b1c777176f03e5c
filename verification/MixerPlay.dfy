/** schedule.go: what the social mixer promises after every round. */
module MixerPlay {
  import opened Circle
  import opened Names
  import opened Schedule
  import opened Mixer

  // ---- The greedy choices.

  lemma BetterPartnerChain(l: Ledger, a: string, x: string, y: string, z: string)
    requires BetterPartner(l, a, x, y) && BetterPartner(l, a, y, z)
    ensures BetterPartner(l, a, x, z)
  {
    if StrLess(x, y) && StrLess(y, z) {
      Transitive(x, y, z);
    }
  }

  /** Nobody left would have been a better partner: fewer games together, then fewer against, then by name. */
  lemma {:induction false} PartnerIsBest(l: Ledger, a: string, remaining: seq<string>, n: nat, i: nat)
    requires i < n <= |remaining|
    ensures !BetterPartner(l, a, remaining[i], remaining[BestPartner(l, a, remaining, n)])
    decreases n
  {
    var best := BestPartner(l, a, remaining, n - 1);
    var x, last := remaining[i], remaining[n - 1];
    NotBoth(last, last);
    if i < n - 1 {
      PartnerIsBest(l, a, remaining, n - 1, i);
      if BetterPartner(l, a, last, remaining[best]) && BetterPartner(l, a, x, last) {
        BetterPartnerChain(l, a, x, last, remaining[best]);
      }
    }
  }

  lemma BetterOpponentsChain(l: Ledger, t: Team, x: Team, y: Team, z: Team)
    requires BetterOpponents(l, t, x, y) && BetterOpponents(l, t, y, z)
    ensures BetterOpponents(l, t, x, z)
  {
    if StrLess(Join(x), Join(y)) && StrLess(Join(y), Join(z)) {
      Transitive(Join(x), Join(y), Join(z));
    }
  }

  /** No team left would have been better opponents: fewer meetings so far, then by name. */
  lemma {:induction false} OpponentsAreBest(l: Ledger, t: Team, rest: seq<Team>, n: nat, i: nat)
    requires i < n <= |rest|
    ensures !BetterOpponents(l, t, rest[i], rest[BestOpponents(l, t, rest, n)])
    decreases n
  {
    var best := BestOpponents(l, t, rest, n - 1);
    var x, last := rest[i], rest[n - 1];
    NotBoth(Join(last), Join(last));
    if i < n - 1 {
      OpponentsAreBest(l, t, rest, n - 1, i);
      if BetterOpponents(l, t, last, rest[best]) && BetterOpponents(l, t, x, last) {
        BetterOpponentsChain(l, t, x, last, rest[best]);
      }
    }
  }

  // ---- Who sits where.

  ghost function TeamSeats(teams: seq<Team>, x: string): nat {
    if teams == [] then 0 else teams[0].Has(x) + TeamSeats(teams[1..], x)
  }

  /** How many seats somebody has in a round. */
  ghost function RoundSeats(round: RawRound, x: string): nat {
    if round == [] then 0
    else multiset(round[0].a)[x] + multiset(round[0].b)[x] + RoundSeats(round[1..], x)
  }

  lemma {:induction false} TeamSeatsWithout(teams: seq<Team>, i: nat, x: string)
    requires i < |teams|
    ensures TeamSeats(teams, x) == teams[i].Has(x) + TeamSeats(Without(teams, i), x)
    decreases i
  {
    if i == 0 {
      assert Without(teams, 0) == teams[1..];
    } else {
      TeamSeatsWithout(teams[1..], i - 1, x);
      assert Without(teams, i)[0] == teams[0];
      assert Without(teams, i)[1..] == Without(teams[1..], i - 1);
    }
  }

  lemma WithoutMembers(rest: seq<string>, i: nat, x: string)
    requires Distinct(rest) && i < |rest|
    ensures Distinct(Without(rest, i))
    ensures x in Without(rest, i) <==> x in rest && x != rest[i]
  {
    var less := Without(rest, i);
    assert forall j | 0 <= j < |less| :: less[j] == rest[if j < i then j else j + 1];
    if x in rest && x != rest[i] {
      var j :| 0 <= j < |rest| && rest[j] == x;
      assert less[if j < i then j else j - 1] == x;
    }
  }

  /** Every player is on exactly one team. */
  lemma {:induction false} TeamsSeatEverybody(l: Ledger, remaining: seq<string>, x: string)
    requires Distinct(remaining) && |remaining| % 2 == 0
    ensures TeamSeats(Teams(l, remaining), x) == if x in remaining then 1 else 0
    decreases |remaining|
  {
    if remaining != [] {
      var a, rest := remaining[0], remaining[1..];
      var best := BestPartner(l, a, rest, |rest|);
      WithoutMembers(rest, best, x);
      TeamsSeatEverybody(l, Without(rest, best), x);
      var teams := Teams(l, remaining);
      assert teams[0] == Team(a, rest[best]) && teams[1..] == Teams(l, Without(rest, best));
      assert remaining == [a] + rest;
      assert a !in rest;
    }
  }

  lemma RecordedGames(l: Ledger, t1: Team, t2: Team, x: string)
    ensures Played(Recorded(l, t1, t2).games, x) == Played(l.games, x) + t1.Has(x) + t2.Has(x)
  {
  }

  lemma SideHas(t: Team, x: string)
    ensures multiset(t.AsSide())[x] == t.Has(x)
  {
  }

  /** What the first game of a round takes out of it: two teams, booked. */
  lemma OneGame(l: Ledger, teams: seq<Team>, x: string) returns (l2: Ledger, less: seq<Team>, both: nat)
    requires |teams| % 2 == 0 && teams != []
    ensures |less| == |teams| - 2
    ensures TeamSeats(teams, x) == both + TeamSeats(less, x)
    ensures Played(l2.games, x) == Played(l.games, x) + both
    ensures RoundSeats(PairUp(l, teams).games, x) == both + RoundSeats(PairUp(l2, less).games, x)
    ensures PairUp(l, teams).ledger == PairUp(l2, less).ledger
  {
    var t1, rest := teams[0], teams[1..];
    var best := BestOpponents(l, t1, rest, |rest|);
    var t2 := rest[best];
    less, l2, both := Without(rest, best), Recorded(l, t1, t2), t1.Has(x) + t2.Has(x);
    TeamSeatsWithout(rest, best, x);
    RecordedGames(l, t1, t2, x);
    FirstGameSeats(t1, t2, PairUp(l2, less).games, x);
  }

  lemma FirstGameSeats(t1: Team, t2: Team, later: RawRound, x: string)
    ensures RoundSeats([Pairing(t1.AsSide(), t2.AsSide())] + later, x) == t1.Has(x) + t2.Has(x) + RoundSeats(later, x)
  {
    var games := [Pairing(t1.AsSide(), t2.AsSide())] + later;
    assert games[1..] == later;
    SideHas(t1, x);
    SideHas(t2, x);
  }

  /** Every team plays once, and the ledger books exactly the games that come out. */
  ghost predicate TeamsPlayed(m: Mixed, l: Ledger, teams: seq<Team>, x: string) {
    && RoundSeats(m.games, x) == TeamSeats(teams, x)
    && Played(m.ledger.games, x) == Played(l.games, x) + TeamSeats(teams, x)
  }

  lemma {:induction false} EveryTeamPlaysOnce(l: Ledger, teams: seq<Team>, x: string)
    requires |teams| % 2 == 0
    ensures TeamsPlayed(PairUp(l, teams), l, teams, x)
    decreases |teams|
  {
    if teams != [] {
      var l2, less, both := OneGame(l, teams, x);
      EveryTeamPlaysOnce(l2, less, x);
    }
  }

  // ---- One round.

  /** The active players: as many fours as there are, all different, all players. */
  lemma ActiveIsFull(games: map<string, nat>, players: seq<string>)
    requires Distinct(players)
    ensures Distinct(Active(games, players)) && |Active(games, players)| == 4 * (|players| / 4)
    ensures forall x | x in Active(games, players) :: x in players
  {
    PoolSorted(games, players);
    SortedDistinct(games, Pool(games, players));
  }

  /** Whoever sits out has played at least as often as whoever plays. */
  lemma SittersHavePlayedMore(games: map<string, nat>, players: seq<string>, x: string, y: string)
    requires Distinct(players) && y in players
    requires x in Active(games, players) && y !in Active(games, players)
    ensures Played(games, x) <= Played(games, y)
  {
    PoolSorted(games, players);
    var pool, active := Pool(games, players), Active(games, players);
    var i :| 0 <= i < |active| && active[i] == x;
    var j :| 0 <= j < |pool| && pool[j] == y;
    assert active == pool[..|active|];
    assert Ahead(games, pool[i], pool[j]);
  }

  /** A round seats each active player exactly once and nobody else, four to a game, and books exactly that. */
  lemma MixSeatsTheActive(l: Ledger, players: seq<string>, x: string)
    requires Distinct(players)
    ensures
      var m, active := MixRound(l, players), Active(l.games, players);
      && |m.games| == |players| / 4
      && RoundSeats(m.games, x) == (if x in active then 1 else 0)
      && Played(m.ledger.games, x) == Played(l.games, x) + RoundSeats(m.games, x)
  {
    var active := Active(l.games, players);
    ActiveIsFull(l.games, players);
    if |active| >= 4 {
      Twos(|active|);
      TeamsSeatEverybody(l, active, x);
      EveryTeamPlaysOnce(l, Teams(l, active), x);
    }
  }

  /** The same, about a round of a schedule. */
  lemma RoundSeatsTheActive(players: seq<string>, out: seq<RawRound>, books: seq<Ledger>, r: nat, x: string)
    requires Distinct(players) && r < |out| < |books| && PlaysRound(players, out, books, r)
    ensures |out[r]| == |players| / 4
    ensures RoundSeats(out[r], x) == if x in Active(books[r].games, players) then 1 else 0
    ensures Played(books[r + 1].games, x) == Played(books[r].games, x) + RoundSeats(out[r], x)
  {
    MixSeatsTheActive(books[r], players, x);
  }

  /** Round `r` seats four different players for each of its games, each of them once, and nobody else. */
  lemma EveryRoundSeatsFours(players: seq<string>, out: seq<RawRound>, books: seq<Ledger>, r: nat)
    requires Distinct(players) && MixedBy(players, out, books) && r < |out|
    ensures
      var active := Active(books[r].games, players);
      && |out[r]| == |players| / 4 && |active| == 4 * |out[r]| && Distinct(active)
      && (forall x | x in active :: x in players)
      && (forall x :: RoundSeats(out[r], x) == if x in active then 1 else 0)
  {
    assert PlaysRound(players, out, books, r);
    ActiveIsFull(books[r].games, players);
    RoundSeatsTheActive(players, out, books, r, "");
    forall x
      ensures RoundSeats(out[r], x) == if x in Active(books[r].games, players) then 1 else 0
    {
      RoundSeatsTheActive(players, out, books, r, x);
    }
  }

  /** No two players are more than one game apart. */
  ghost predicate Balanced(games: map<string, nat>, players: seq<string>) {
    forall x, y | x in players && y in players :: Played(games, x) <= Played(games, y) + 1
  }

  lemma RoundKeepsBalance(players: seq<string>, out: seq<RawRound>, books: seq<Ledger>, r: nat)
    requires Distinct(players) && r < |out| < |books| && PlaysRound(players, out, books, r)
    requires Balanced(books[r].games, players)
    ensures Balanced(books[r + 1].games, players)
  {
    var active := Active(books[r].games, players);
    forall x, y | x in players && y in players
      ensures Played(books[r + 1].games, x) <= Played(books[r + 1].games, y) + 1
    {
      RoundSeatsTheActive(players, out, books, r, x);
      RoundSeatsTheActive(players, out, books, r, y);
      if x in active && y !in active {
        SittersHavePlayedMore(books[r].games, players, x, y);
      }
    }
  }

  // ---- All the rounds.

  /** How many games somebody has in a schedule. */
  ghost function GamesIn(rounds: seq<RawRound>, x: string): nat {
    if rounds == [] then 0
    else
      var n := |rounds| - 1;
      GamesIn(rounds[..n], x) + RoundSeats(rounds[n], x)
  }

  lemma {:induction false} BooksAreTheSchedule(players: seq<string>, out: seq<RawRound>, books: seq<Ledger>, r: nat, x: string)
    requires Distinct(players) && MixedBy(players, out, books) && r <= |out|
    ensures Played(books[r].games, x) == GamesIn(out[..r], x)
    decreases r
  {
    if r > 0 {
      BooksAreTheSchedule(players, out, books, r - 1, x);
      assert PlaysRound(players, out, books, r - 1);
      RoundSeatsTheActive(players, out, books, r - 1, x);
      assert out[..r][..r - 1] == out[..r - 1];
    }
  }

  lemma {:induction false} AlwaysBalanced(players: seq<string>, out: seq<RawRound>, books: seq<Ledger>, r: nat)
    requires Distinct(players) && MixedBy(players, out, books) && r <= |out|
    ensures Balanced(books[r].games, players)
    decreases r
  {
    if r > 0 {
      AlwaysBalanced(players, out, books, r - 1);
      assert PlaysRound(players, out, books, r - 1);
      RoundKeepsBalance(players, out, books, r - 1);
    }
  }

  /** After every round, any two players are at most one game apart. */
  lemma NobodyPullsAhead(players: seq<string>, out: seq<RawRound>, r: nat, x: string, y: string)
    requires Distinct(players) && IsMixed(players, out) && r <= |out| && x in players && y in players
    ensures GamesIn(out[..r], x) <= GamesIn(out[..r], y) + 1
  {
    var books: seq<Ledger> :| MixedBy(players, out, books);
    AlwaysBalanced(players, out, books, r);
    BooksAreTheSchedule(players, out, books, r, x);
    BooksAreTheSchedule(players, out, books, r, y);
  }

  // ---- The average.

  ghost function TotalGames(games: map<string, nat>, players: seq<string>): nat {
    if players == [] then 0
    else
      var n := |players| - 1;
      TotalGames(games, players[..n]) + Played(games, players[n])
  }

  /** How many of the listed players are active. */
  ghost function ActiveAmong(active: seq<string>, players: seq<string>): nat {
    if players == [] then 0
    else
      var n := |players| - 1;
      ActiveAmong(active, players[..n]) + if players[n] in active then 1 else 0
  }

  lemma {:induction false} TotalGrows(all: seq<string>, out: seq<RawRound>, books: seq<Ledger>, r: nat, players: seq<string>)
    requires Distinct(all) && r < |out| < |books| && PlaysRound(all, out, books, r)
    ensures TotalGames(books[r + 1].games, players)
      == TotalGames(books[r].games, players) + ActiveAmong(Active(books[r].games, all), players)
    decreases |players|
  {
    if players != [] {
      TotalGrows(all, out, books, r, players[..|players| - 1]);
      RoundSeatsTheActive(all, out, books, r, players[|players| - 1]);
    }
  }

  /** Listed once each, the active players number as many as there are. */
  lemma {:induction false} AllActiveAreListed(active: seq<string>, players: seq<string>)
    requires Distinct(players)
    ensures ActiveAmong(active, players) == |set x | x in active && x in players|
    decreases |players|
  {
    if players == [] {
      assert (set x | x in active && x in players) == {};
    } else {
      var n := |players| - 1;
      AllActiveAreListed(active, players[..n]);
      var was := set x | x in active && x in players[..n];
      var now := set x | x in active && x in players;
      assert players == players[..n] + [players[n]];
      assert players[n] !in players[..n];
      assert now == if players[n] in active then was + {players[n]} else was;
    }
  }

  lemma {:induction false} DistinctSize(s: seq<string>)
    requires Distinct(s)
    ensures |set x | x in s| == |s|
    decreases |s|
  {
    if s == [] {
      assert (set x | x in s) == {};
    } else {
      var n := |s| - 1;
      DistinctSize(s[..n]);
      assert s == s[..n] + [s[n]];
      assert s[n] !in s[..n];
      assert (set x | x in s) == (set x | x in s[..n]) + {s[n]};
    }
  }

  lemma {:induction false} NobodyHasPlayed(all: seq<string>, players: seq<string>)
    ensures TotalGames(Fresh(all).games, players) == 0
    decreases |players|
  {
    if players != [] {
      NobodyHasPlayed(all, players[..|players| - 1]);
    }
  }

  lemma RoundAddsFours(players: seq<string>, out: seq<RawRound>, books: seq<Ledger>, r: nat)
    requires Distinct(players) && r < |out| < |books| && PlaysRound(players, out, books, r)
    ensures TotalGames(books[r + 1].games, players) == TotalGames(books[r].games, players) + 4 * (|players| / 4)
  {
    var active := Active(books[r].games, players);
    TotalGrows(players, out, books, r, players);
    AllActiveAreListed(active, players);
    ActiveIsFull(books[r].games, players);
    DistinctSize(active);
    assert (set x | x in active && x in players) == (set x | x in active);
  }

  ghost function Times(a: nat, b: nat): nat {
    if b == 0 then 0 else Times(a, b - 1) + a
  }

  lemma {:induction false} TotalAfter(players: seq<string>, out: seq<RawRound>, books: seq<Ledger>, r: nat)
    requires Distinct(players) && MixedBy(players, out, books) && r <= |out|
    ensures TotalGames(books[r].games, players) == Times(4 * (|players| / 4), r)
    decreases r
  {
    if r == 0 {
      NobodyHasPlayed(players, players);
    } else {
      TotalAfter(players, out, books, r - 1);
      assert PlaysRound(players, out, books, r - 1);
      RoundAddsFours(players, out, books, r - 1);
    }
  }

  /** When nobody in a list is more than one game from `g` games, their total is close to the list's length times `g`. */
  lemma {:induction false} TotalIsClose(games: map<string, nat>, players: seq<string>, x: string)
    requires forall y | y in players :: Played(games, x) <= Played(games, y) + 1 && Played(games, y) <= Played(games, x) + 1
    ensures TotalGames(games, players) <= Times(Played(games, x), |players|) + |players| - if x in players then 1 else 0
    ensures TotalGames(games, players) >= Times(Played(games, x), |players|) - |players| + if x in players then 1 else 0
    decreases |players|
  {
    if players != [] {
      var n := |players| - 1;
      assert players == players[..n] + [players[n]];
      TotalIsClose(games, players[..n], x);
    }
  }

  lemma {:induction false} TimesIs(a: nat, b: nat)
    ensures Times(a, b) == a * b
    decreases b
  {
    if b > 0 {
      TimesIs(a, b - 1);
    }
  }

  lemma Average(g: nat, total: nat, n: nat)
    requires n > 0 && g * n - n < total < g * n + n
    ensures FloorOrCeiling(g, total, n)
  {
    if total >= g * n {
      QuotientIs(total, g, total - g * n, n);
    } else {
      assert (g - 1) * n == g * n - n;
      QuotientIs(total, g - 1, total - (g - 1) * n, n);
    }
  }

  ghost predicate FloorOrCeiling(g: nat, total: nat, n: nat)
    requires n > 0
  {
    g == total / n || (g == total / n + 1 && total % n > 0)
  }

  lemma AverageOf(games: map<string, nat>, players: seq<string>, x: string, fours: nat, r: nat)
    requires Balanced(games, players) && x in players && TotalGames(games, players) == Times(fours, r)
    ensures FloorOrCeiling(Played(games, x), fours * r, |players|)
  {
    TotalIsClose(games, players, x);
    TimesIs(fours, r);
    TimesIs(Played(games, x), |players|);
    Average(Played(games, x), fours * r, |players|);
  }

  /** After `r` rounds everybody has played the floor or the ceiling of the average. */
  lemma EverybodyPlaysTheAverage(players: seq<string>, out: seq<RawRound>, r: nat, x: string)
    requires Distinct(players) && IsMixed(players, out) && r <= |out| && x in players
    ensures FloorOrCeiling(GamesIn(out[..r], x), 4 * (|players| / 4) * r, |players|)
  {
    var books: seq<Ledger> :| MixedBy(players, out, books);
    AlwaysBalanced(players, out, books, r);
    TotalAfter(players, out, books, r);
    AverageOf(books[r].games, players, x, 4 * (|players| / 4), r);
    BooksAreTheSchedule(players, out, books, r, x);
  }
}
