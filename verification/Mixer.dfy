/** schedule.go: rotating doubles, a greedy social mixer. */
module Mixer {
  import opened Circle
  import opened Names
  import opened Schedule

  /** Two players, whichever way round. */
  datatype Couple = Couple(low: string, high: string)

  function Key(a: string, b: string): Couple {
    if StrLess(b, a) then Couple(b, a) else Couple(a, b)
  }

  datatype Team = Team(first: string, second: string)
  {
    function AsSide(): Side {
      [first, second]
    }

    function Has(x: string): nat {
      (if first == x then 1 else 0) + (if second == x then 1 else 0)
    }
  }

  /** Who has partnered and opposed whom, and how often everybody has played: counters, zero until touched. */
  datatype Ledger = Ledger(partners: map<Couple, nat>, opponents: map<Couple, nat>, games: map<string, nat>)

  function Tally(counts: map<Couple, nat>, a: string, b: string): nat {
    if Key(a, b) in counts then counts[Key(a, b)] else 0
  }

  function Bumped(counts: map<Couple, nat>, a: string, b: string): map<Couple, nat> {
    counts[Key(a, b) := Tally(counts, a, b) + 1]
  }

  function Played(games: map<string, nat>, x: string): nat {
    if x in games then games[x] else 0
  }

  function PlayedOnceMore(games: map<string, nat>, x: string): map<string, nat> {
    games[x := Played(games, x) + 1]
  }

  // ---- Who plays: fewest games first.

  predicate Ahead(games: map<string, nat>, a: string, b: string) {
    if Played(games, a) != Played(games, b) then Played(games, a) < Played(games, b) else StrLess(a, b)
  }

  function InsertPlayer(games: map<string, nat>, pool: seq<string>, x: string): seq<string> {
    if pool == [] then [x]
    else
      var n := |pool| - 1;
      if Ahead(games, x, pool[n]) then InsertPlayer(games, pool[..n], x) + [pool[n]] else pool + [x]
  }

  /** The players, fewest games first and by name among equals. */
  function Pool(games: map<string, nat>, players: seq<string>): seq<string> {
    if players == [] then []
    else
      var n := |players| - 1;
      InsertPlayer(games, Pool(games, players[..n]), players[n])
  }

  ghost predicate Sorted(games: map<string, nat>, pool: seq<string>) {
    forall i, j | 0 <= i < j < |pool| :: Ahead(games, pool[i], pool[j])
  }

  lemma AheadChain(games: map<string, nat>, a: string, b: string, c: string)
    requires Ahead(games, a, b) && Ahead(games, b, c)
    ensures Ahead(games, a, c)
  {
    if Played(games, a) == Played(games, b) == Played(games, c) {
      Transitive(a, b, c);
    }
  }

  lemma AheadOrBehind(games: map<string, nat>, a: string, b: string)
    requires a != b && !Ahead(games, a, b)
    ensures Ahead(games, b, a)
  {
    OneOrTheOther(a, b);
  }

  lemma SortedPush(games: map<string, nat>, pool: seq<string>, x: string)
    requires Sorted(games, pool) && forall y | y in pool :: Ahead(games, y, x)
    ensures Sorted(games, pool + [x])
  {
    var now := pool + [x];
    forall i, j | 0 <= i < j < |now|
      ensures Ahead(games, now[i], now[j])
    {
      if j == |pool| {
        assert now[i] in pool;
      }
    }
  }

  lemma {:induction false} InsertSorted(games: map<string, nat>, pool: seq<string>, x: string)
    requires Sorted(games, pool) && x !in pool
    ensures Sorted(games, InsertPlayer(games, pool, x))
    ensures forall y :: y in InsertPlayer(games, pool, x) <==> y in pool || y == x
    ensures |InsertPlayer(games, pool, x)| == |pool| + 1
    decreases |pool|
  {
    if pool != [] {
      var n := |pool| - 1;
      var last := pool[n];
      assert pool == pool[..n] + [last];
      if Ahead(games, x, last) {
        InsertSorted(games, pool[..n], x);
        SortedPush(games, InsertPlayer(games, pool[..n], x), last);
      } else {
        AheadOrBehind(games, x, last);
        forall y | y in pool
          ensures Ahead(games, y, x)
        {
          if y != last {
            var i :| 0 <= i < n && pool[i] == y;
            AheadChain(games, y, last, x);
          }
        }
        SortedPush(games, pool, x);
      }
    }
  }

  /** The pool is everybody, in order. */
  lemma {:induction false} PoolSorted(games: map<string, nat>, players: seq<string>)
    requires Distinct(players)
    ensures Sorted(games, Pool(games, players)) && |Pool(games, players)| == |players|
    ensures forall y :: y in Pool(games, players) <==> y in players
    decreases |players|
  {
    if players != [] {
      var n := |players| - 1;
      PoolSorted(games, players[..n]);
      assert players == players[..n] + [players[n]];
      InsertSorted(games, Pool(games, players[..n]), players[n]);
    }
  }

  lemma SortedDistinct(games: map<string, nat>, pool: seq<string>)
    requires Sorted(games, pool)
    ensures Distinct(pool)
  {
    forall i, j | 0 <= i < j < |pool|
      ensures pool[i] != pool[j]
    {
      NotBoth(pool[i], pool[j]);
    }
  }

  lemma WholeFours(n: nat)
    ensures n % 4 <= n && (n - n % 4) % 4 == 0
  {
    assert n - n % 4 == 4 * (n / 4);
  }

  function Active(games: map<string, nat>, players: seq<string>): (active: seq<string>)
    ensures |active| % 4 == 0
  {
    var pool := Pool(games, players);
    WholeFours(|pool|);
    pool[..|pool| - |pool| % 4]
  }

  // ---- Teams: fewest repeat partnerships.

  predicate LessTriple(pcA: nat, ocA: nat, candA: string, pcB: nat, ocB: nat, candB: string) {
    if pcA != pcB then pcA < pcB
    else if ocA != ocB then ocA < ocB
    else StrLess(candA, candB)
  }

  predicate BetterPartner(l: Ledger, a: string, x: string, y: string) {
    LessTriple(Tally(l.partners, a, x), Tally(l.opponents, a, x), x,
               Tally(l.partners, a, y), Tally(l.opponents, a, y), y)
  }

  function BestPartner(l: Ledger, a: string, remaining: seq<string>, n: nat): (best: nat)
    requires n <= |remaining| && remaining != []
    ensures best < |remaining|
  {
    if n == 0 then 0
    else
      var best := BestPartner(l, a, remaining, n - 1);
      if BetterPartner(l, a, remaining[n - 1], remaining[best]) then n - 1 else best
  }

  function Without<T>(s: seq<T>, i: nat): (r: seq<T>)
    requires i < |s|
    ensures |r| == |s| - 1
  {
    s[..i] + s[i + 1..]
  }

  function Teams(l: Ledger, remaining: seq<string>): (teams: seq<Team>)
    requires |remaining| % 2 == 0
    ensures |teams| == |remaining| / 2
    decreases |remaining|
  {
    if remaining == [] then []
    else
      var rest := remaining[1..];
      var best := BestPartner(l, remaining[0], rest, |rest|);
      [Team(remaining[0], rest[best])] + Teams(l, Without(rest, best))
  }

  method FindPartner(l: Ledger, a: string, remaining: seq<string>) returns (best: nat)
    requires remaining != []
    ensures best == BestPartner(l, a, remaining, |remaining|)
  {
    best := 0;
    for i := 0 to |remaining|
      invariant best == BestPartner(l, a, remaining, i)
    {
      if BetterPartner(l, a, remaining[i], remaining[best]) {
        best := i;
      }
    }
  }

  method FormTeams(l: Ledger, active: seq<string>) returns (teams: seq<Team>)
    requires |active| % 2 == 0
    ensures teams == Teams(l, active)
  {
    var remaining := active;
    teams := [];
    while |remaining| > 0
      invariant |remaining| % 2 == 0 && teams + Teams(l, remaining) == Teams(l, active)
      decreases |remaining|
    {
      ghost var was := Teams(l, remaining);
      var a := remaining[0];
      remaining := remaining[1..];
      var best := FindPartner(l, a, remaining);
      var b := remaining[best];
      remaining := remaining[..best] + remaining[best + 1..];
      assert was == [Team(a, b)] + Teams(l, remaining);
      assert teams + was == teams + [Team(a, b)] + Teams(l, remaining);
      teams := teams + [Team(a, b)];
    }
  }

  // ---- Games: fewest repeat opponents.

  function OppCost(l: Ledger, t1: Team, t2: Team): nat {
    Tally(l.opponents, t1.first, t2.first) + Tally(l.opponents, t1.first, t2.second)
    + Tally(l.opponents, t1.second, t2.first) + Tally(l.opponents, t1.second, t2.second)
  }

  function Join(t: Team): string {
    t.first + t.second
  }

  predicate BetterOpponents(l: Ledger, t1: Team, x: Team, y: Team) {
    OppCost(l, t1, x) < OppCost(l, t1, y) || (OppCost(l, t1, x) == OppCost(l, t1, y) && StrLess(Join(x), Join(y)))
  }

  function BestOpponents(l: Ledger, t1: Team, rest: seq<Team>, n: nat): (best: nat)
    requires n <= |rest| && rest != []
    ensures best < |rest|
  {
    if n == 0 then 0
    else
      var best := BestOpponents(l, t1, rest, n - 1);
      if BetterOpponents(l, t1, rest[n - 1], rest[best]) then n - 1 else best
  }

  /** The ledger after a game. */
  function Recorded(l: Ledger, t1: Team, t2: Team): Ledger {
    Ledger(Bumped(Bumped(l.partners, t1.first, t1.second), t2.first, t2.second),
           Bumped(Bumped(Bumped(Bumped(l.opponents, t1.first, t2.first), t1.first, t2.second),
                         t1.second, t2.first), t1.second, t2.second),
           PlayedOnceMore(PlayedOnceMore(PlayedOnceMore(PlayedOnceMore(l.games, t1.first), t1.second),
                                         t2.first), t2.second))
  }

  datatype Mixed = Mixed(games: RawRound, ledger: Ledger)

  function PairUp(l: Ledger, teams: seq<Team>): (m: Mixed)
    requires |teams| % 2 == 0
    ensures |m.games| == |teams| / 2
    decreases |teams|
  {
    if teams == [] then Mixed([], l)
    else
      var t1, rest := teams[0], teams[1..];
      var best := BestOpponents(l, t1, rest, |rest|);
      var later := PairUp(Recorded(l, t1, rest[best]), Without(rest, best));
      Mixed([Pairing(t1.AsSide(), rest[best].AsSide())] + later.games, later.ledger)
  }

  method FindOpponents(l: Ledger, t1: Team, trem: seq<Team>) returns (best: nat)
    requires trem != []
    ensures best == BestOpponents(l, t1, trem, |trem|)
  {
    var bestCost;
    best, bestCost := 0, OppCost(l, t1, trem[0]);
    for i := 0 to |trem|
      invariant best == BestOpponents(l, t1, trem, i) && bestCost == OppCost(l, t1, trem[best])
    {
      var c := OppCost(l, t1, trem[i]);
      if c < bestCost || (c == bestCost && StrLess(Join(trem[i]), Join(trem[best]))) {
        best, bestCost := i, c;
      }
    }
  }

  /** One game: the first team left against the best of the others. */
  method PlayNext(l0: Ledger, teams: seq<Team>) returns (game: Pairing<Side>, l: Ledger, trem: seq<Team>)
    requires |teams| % 2 == 0 && teams != []
    ensures |trem| == |teams| - 2
    ensures PairUp(l0, teams) == Mixed([game] + PairUp(l, trem).games, PairUp(l, trem).ledger)
  {
    var t1 := teams[0];
    trem := teams[1..];
    var best := FindOpponents(l0, t1, trem);
    var t2 := trem[best];
    trem := trem[..best] + trem[best + 1..];
    game := Pairing(t1.AsSide(), t2.AsSide());
    l := Recorded(l0, t1, t2);
  }

  lemma Joined(ms: RawRound, game: Pairing<Side>, later: RawRound)
    ensures ms + ([game] + later) == (ms + [game]) + later
  {
  }

  method PairTeams(l0: Ledger, teams: seq<Team>) returns (ms: RawRound, l: Ledger)
    requires |teams| % 2 == 0
    ensures Mixed(ms, l) == PairUp(l0, teams)
  {
    var trem := teams;
    ms, l := [], l0;
    ghost var all := PairUp(l0, teams);
    while |trem| > 0
      invariant |trem| % 2 == 0 && PairedSoFar(all, ms, l, trem)
      decreases |trem|
    {
      ghost var was, teamsWere := l, trem;
      var game;
      game, l, trem := PlayNext(l, trem);
      OneMorePaired(all, ms, was, teamsWere, game, l, trem);
      ms := ms + [game];
    }
    AllPaired(all, ms, l);
  }

  /** These games, and those still to come, are all the games. */
  ghost predicate PairedSoFar(all: Mixed, ms: RawRound, l: Ledger, trem: seq<Team>)
    requires |trem| % 2 == 0
  {
    ms + PairUp(l, trem).games == all.games && PairUp(l, trem).ledger == all.ledger
  }

  lemma OneMorePaired(all: Mixed, ms: RawRound, l0: Ledger, teams: seq<Team>, game: Pairing<Side>, l: Ledger, trem: seq<Team>)
    requires |teams| % 2 == 0 && |trem| % 2 == 0 && PairedSoFar(all, ms, l0, teams)
    requires PairUp(l0, teams) == Mixed([game] + PairUp(l, trem).games, PairUp(l, trem).ledger)
    ensures PairedSoFar(all, ms + [game], l, trem)
  {
    Joined(ms, game, PairUp(l, trem).games);
  }

  lemma AllPaired(all: Mixed, ms: RawRound, l: Ledger)
    requires PairedSoFar(all, ms, l, [])
    ensures all == Mixed(ms, l)
  {
    assert ms + [] == ms;
  }

  // ---- Rounds.

  /** Fours make an even number of twos. */
  lemma Twos(n: nat)
    requires n % 4 == 0
    ensures n % 2 == 0 && n / 2 % 2 == 0
  {
    assert n == 4 * (n / 4);
  }

  function Mix(l: Ledger, active: seq<string>): Mixed
    requires |active| % 4 == 0
  {
    Twos(|active|);
    if |active| < 4 then Mixed([], l) else PairUp(l, Teams(l, active))
  }

  function MixRound(l: Ledger, players: seq<string>): Mixed {
    Mix(l, Active(l.games, players))
  }

  function Fresh(players: seq<string>): Ledger {
    Ledger(map[], map[], map x | x in players :: 0)
  }

  /** Round `r` is the one the mixer makes from the books before it, and leaves the books after it. */
  ghost predicate PlaysRound(players: seq<string>, out: seq<RawRound>, books: seq<Ledger>, r: nat)
    requires r < |out| < |books|
  {
    MixRound(books[r], players) == Mixed(out[r], books[r + 1])
  }

  ghost predicate MixedBy(players: seq<string>, out: seq<RawRound>, books: seq<Ledger>) {
    && |books| == |out| + 1
    && books[0] == Fresh(players)
    && forall r | 0 <= r < |out| :: PlaysRound(players, out, books, r)
  }

  /** A schedule the mixer makes, from empty books. */
  ghost predicate IsMixed(players: seq<string>, out: seq<RawRound>) {
    exists books :: MixedBy(players, out, books)
  }

  method SortPool(games: map<string, nat>, players: seq<string>) returns (pool: seq<string>)
    ensures pool == Pool(games, players)
  {
    pool := [];
    for i := 0 to |players|
      invariant pool == Pool(games, players[..i])
    {
      assert players[..i + 1][..i] == players[..i];
      pool := InsertPlayer(games, pool, players[i]);
    }
    assert players[..|players|] == players;
  }

  /** Whoever is left over after the last full four sits out. */
  method PickActive(games: map<string, nat>, players: seq<string>) returns (active: seq<string>)
    ensures active == Active(games, players)
  {
    var pool := SortPool(games, players);
    var sit := |pool| % 4;
    active := pool[..|pool| - sit];
  }

  method PlayActive(l0: Ledger, active: seq<string>) returns (ms: RawRound, l: Ledger)
    requires |active| % 4 == 0
    ensures Mixed(ms, l) == Mix(l0, active)
  {
    if |active| < 4 {
      return [], l0;
    }
    Twos(|active|);
    var teams := FormTeams(l0, active);
    ms, l := PairTeams(l0, teams);
  }

  method PlayRound(l0: Ledger, players: seq<string>) returns (ms: RawRound, l: Ledger)
    ensures Mixed(ms, l) == MixRound(l0, players)
  {
    var active := PickActive(l0.games, players);
    ms, l := PlayActive(l0, active);
  }

  method DoublesRotating(players: seq<string>, numRounds: int) returns (out: seq<RawRound>)
    ensures |out| == if numRounds < 0 then 0 else numRounds
    ensures IsMixed(players, out)
  {
    var l := Fresh(players);
    out := [];
    ghost var books := [l];
    var r := 0;
    while r < numRounds
      invariant 0 <= r == |out| && (r <= numRounds || r == 0)
      invariant MixedBy(players, out, books) && l == books[r]
    {
      ghost var wereOut, wereBooks := out, books;
      var ms;
      ms, l := PlayRound(l, players);
      out := out + [ms];
      books := books + [l];
      OneMoreRound(players, wereOut, wereBooks, ms, l);
      r := r + 1;
    }
  }

  lemma OneMoreRound(players: seq<string>, out: seq<RawRound>, books: seq<Ledger>, ms: RawRound, l: Ledger)
    requires MixedBy(players, out, books) && MixRound(books[|out|], players) == Mixed(ms, l)
    ensures MixedBy(players, out + [ms], books + [l])
  {
    forall r | 0 <= r <= |out|
      ensures PlaysRound(players, out + [ms], books + [l], r)
    {
      assert r < |out| ==> PlaysRound(players, out, books, r);
    }
  }
}
