/** schedule.go: the mixer's choices, told from the rounds already played and not from its counters. */
module MixerChoice {
  import opened Circle
  import opened Names
  import opened Schedule
  import opened Mixer
  import opened MixerPlay
  import opened MixerBooks

  // ---- What the past says.

  /** `x` is picked before `y`: fewer games so far, or as many and first by name. */
  ghost predicate FirstUp(past: seq<RawRound>, x: string, y: string) {
    GamesIn(past, x) < GamesIn(past, y) || (GamesIn(past, x) == GamesIn(past, y) && StrLess(x, y))
  }

  /** For `a`, `b` is a fresher partner than `c`: they have partnered less often, or as often and faced each other less
      often, or as often too and `b` is first by name. */
  ghost predicate Fresher(past: seq<RawRound>, a: string, b: string, c: string) {
    var p, q := PartnershipsIn(past, a, b), PartnershipsIn(past, a, c);
    var s, t := OppositionsIn(past, a, b), OppositionsIn(past, a, c);
    p < q || (p == q && (s < t || (s == t && StrLess(b, c))))
  }

  /** How often the players of two sides have faced each other, all four oppositions added up. */
  ghost function Faced(past: seq<RawRound>, s: Side, t: Side): nat
    requires |s| == 2 && |t| == 2
  {
    OppositionsIn(past, s[0], t[0]) + OppositionsIn(past, s[0], t[1])
    + OppositionsIn(past, s[1], t[0]) + OppositionsIn(past, s[1], t[1])
  }

  /** For side `s`, `u` would be better opponents than `t`: they have faced less often, or as often and the names of
      `u`, put together, come first. */
  ghost predicate BetterFoes(past: seq<RawRound>, s: Side, u: Side, t: Side)
    requires |s| == 2 && |t| == 2 && |u| == 2
  {
    Faced(past, s, u) < Faced(past, s, t)
    || (Faced(past, s, u) == Faced(past, s, t) && StrLess(u[0] + u[1], t[0] + t[1]))
  }

  /** The counters say what the past says. */
  ghost predicate Remembers(l: Ledger, past: seq<RawRound>) {
    && (forall x, y :: Tally(l.partners, x, y) == PartnershipsIn(past, x, y))
    && (forall x, y :: Tally(l.opponents, x, y) == OppositionsIn(past, x, y))
    && (forall x :: Played(l.games, x) == GamesIn(past, x))
  }

  lemma BooksRemember(players: seq<string>, out: seq<RawRound>, books: seq<Ledger>, r: nat)
    requires Distinct(players) && MixedBy(players, out, books) && r <= |out|
    ensures Remembers(books[r], out[..r])
  {
    forall x, y
      ensures Tally(books[r].partners, x, y) == PartnershipsIn(out[..r], x, y)
      ensures Tally(books[r].opponents, x, y) == OppositionsIn(out[..r], x, y)
    {
      CountersAreHistory(players, out, books, r, x, y);
    }
    forall x ensures Played(books[r].games, x) == GamesIn(out[..r], x) {
      BooksAreTheSchedule(players, out, books, r, x);
    }
  }

  // ---- Teams.

  ghost predicate Apart(t: Team, u: Team) {
    t.first != u.first && t.first != u.second && t.second != u.first && t.second != u.second
  }

  ghost predicate AllApart(teams: seq<Team>) {
    forall i, j | 0 <= i < j < |teams| :: Apart(teams[i], teams[j])
  }

  ghost predicate AreTeams(l: Ledger, remaining: seq<string>, teams: seq<Team>) {
    |remaining| % 2 == 0 && teams == Teams(l, remaining)
  }

  /** The line without the first player and the partner picked. */
  ghost predicate Left(remaining: seq<string>, best: nat, less: seq<string>) {
    best < |remaining| - 1 && less == Without(remaining[1..], best)
  }

  /** What forming the first team takes out of the line. */
  lemma FirstTeam(l: Ledger, remaining: seq<string>, teams: seq<Team>) returns (best: nat, less: seq<string>)
    requires AreTeams(l, remaining, teams) && remaining != []
    ensures Left(remaining, best, less) && best == BestPartner(l, remaining[0], remaining[1..], |remaining| - 1)
    ensures |teams| == |remaining| / 2 && teams[0] == Team(remaining[0], remaining[1 + best])
    ensures AreTeams(l, less, teams[1..]) && |less| == |remaining| - 2
  {
    best := BestPartner(l, remaining[0], remaining[1..], |remaining| - 1);
    less := Without(remaining[1..], best);
  }

  lemma SameTeam(teams: seq<Team>, j: nat)
    requires 1 <= j < |teams|
    ensures teams[j] == teams[1..][j - 1]
  {
  }

  /** Somebody left after the first team was in the line, behind its first player, and is not its second. */
  lemma LeftAfter(remaining: seq<string>, best: nat, less: seq<string>, c: string) returns (i: nat)
    requires Left(remaining, best, less) && c in less
    ensures i < |remaining| - 1 && i != best && remaining[1 + i] == c
  {
    var j :| 0 <= j < |less| && less[j] == c;
    i := if j < best then j else j + 1;
  }

  lemma {:induction false} TeamMembers(l: Ledger, remaining: seq<string>, teams: seq<Team>, j: nat)
    requires AreTeams(l, remaining, teams) && j < |teams|
    ensures teams[j].first in remaining && teams[j].second in remaining
    decreases |remaining|, 0
  {
    var best, less := FirstTeam(l, remaining, teams);
    if j > 0 {
      LaterMembers(l, remaining, best, less, teams, j);
    }
  }

  lemma {:induction false} LaterMembers(l: Ledger, remaining: seq<string>, best: nat, less: seq<string>,
                                        teams: seq<Team>, j: nat)
    requires Left(remaining, best, less) && teams != [] && AreTeams(l, less, teams[1..]) && 1 <= j < |teams|
    ensures teams[j].first in less && teams[j].second in less
    ensures teams[j].first in remaining && teams[j].second in remaining
    decreases |less|, 1
  {
    TeamMembers(l, less, teams[1..], j - 1);
    SameTeam(teams, j);
    var a := LeftAfter(remaining, best, less, teams[j].first);
    var b := LeftAfter(remaining, best, less, teams[j].second);
  }

  lemma LessIsDistinct(remaining: seq<string>, best: nat, less: seq<string>)
    requires Distinct(remaining) && Left(remaining, best, less)
    ensures Distinct(less)
    ensures forall c | c in less :: c != remaining[0] && c != remaining[1 + best]
  {
    WithoutMembers(remaining[1..], best, "");
    forall c | c in less ensures c != remaining[0] && c != remaining[1 + best] {
      var i := LeftAfter(remaining, best, less, c);
    }
  }

  /** Nobody is on two teams. */
  lemma {:induction false} TeamsAreApart(l: Ledger, remaining: seq<string>, teams: seq<Team>)
    requires AreTeams(l, remaining, teams) && Distinct(remaining)
    ensures AllApart(teams)
    decreases |remaining|
  {
    if remaining != [] {
      var best, less := FirstTeam(l, remaining, teams);
      LessIsDistinct(remaining, best, less);
      TeamsAreApart(l, less, teams[1..]);
      forall i, j | 0 <= i < j < |teams| ensures Apart(teams[i], teams[j]) {
        SameTeam(teams, j);
        if i == 0 {
          LaterMembers(l, remaining, best, less, teams, j);
        } else {
          SameTeam(teams, i);
        }
      }
    }
  }

  predicate OnTeam(t: Team, c: string) {
    c == t.first || c == t.second
  }

  /** The first of a team prefers its second to anybody on a team formed later. */
  lemma {:induction false} TeamIsChosen(l: Ledger, remaining: seq<string>, teams: seq<Team>, i: nat, j: nat, c: string)
    requires AreTeams(l, remaining, teams) && Distinct(remaining) && i < j < |teams| && OnTeam(teams[j], c)
    ensures BetterPartner(l, teams[i].first, teams[i].second, c)
    decreases |remaining|
  {
    var best, less := FirstTeam(l, remaining, teams);
    LessIsDistinct(remaining, best, less);
    if i > 0 {
      SameTeam(teams, i);
      SameTeam(teams, j);
      TeamIsChosen(l, less, teams[1..], i - 1, j - 1, c);
    } else {
      LaterMembers(l, remaining, best, less, teams, j);
      FirstIsChosen(l, remaining, best, less, c);
    }
  }

  lemma FirstIsChosen(l: Ledger, remaining: seq<string>, best: nat, less: seq<string>, c: string)
    requires Left(remaining, best, less) && Distinct(remaining) && c in less
    requires best == BestPartner(l, remaining[0], remaining[1..], |remaining| - 1)
    ensures BetterPartner(l, remaining[0], remaining[1 + best], c)
  {
    LessIsDistinct(remaining, best, less);
    var k := LeftAfter(remaining, best, less, c);
    PartnerIsBest(l, remaining[0], remaining[1..], |remaining| - 1, k);
    BestIsBetter(l, remaining[0], remaining[1 + best], c);
  }

  lemma BestIsBetter(l: Ledger, a: string, b: string, c: string)
    requires b != c && !BetterPartner(l, a, c, b)
    ensures BetterPartner(l, a, b, c)
  {
    OneOrTheOther(b, c);
  }

  /** Teams are formed down the line. */
  lemma {:induction false} TeamsFollowTheLine(l: Ledger, remaining: seq<string>, teams: seq<Team>, i: nat, j: nat)
    requires AreTeams(l, remaining, teams) && Sorted(l.games, remaining) && i <= j < |teams|
    ensures Ahead(l.games, teams[i].first, teams[i].second)
    ensures i < j ==> Ahead(l.games, teams[i].first, teams[j].first)
    decreases |remaining|
  {
    var best, less := FirstTeam(l, remaining, teams);
    if i > 0 {
      LessIsSorted(l.games, remaining, best, less);
      SameTeam(teams, i);
      SameTeam(teams, j);
      TeamsFollowTheLine(l, less, teams[1..], i - 1, j - 1);
    } else if j > 0 {
      LaterMembers(l, remaining, best, less, teams, j);
      var k := LeftAfter(remaining, best, less, teams[j].first);
    }
  }

  lemma LessIsSorted(games: map<string, nat>, remaining: seq<string>, best: nat, less: seq<string>)
    requires Sorted(games, remaining) && Left(remaining, best, less)
    ensures Sorted(games, less)
  {
    forall i, j | 0 <= i < j < |less| ensures Ahead(games, less[i], less[j]) {
      assert less[i] == remaining[if i < best then 1 + i else 2 + i];
      assert less[j] == remaining[if j < best then 1 + j else 2 + j];
    }
  }

  // ---- Games.

  ghost predicate AreGames(l: Ledger, teams: seq<Team>, games: RawRound) {
    |teams| % 2 == 0 && games == PairUp(l, teams).games
  }

  /** The teams without the two of the first game. */
  ghost predicate LeftOver(teams: seq<Team>, best: nat, less: seq<Team>) {
    best < |teams| - 1 && less == Without(teams[1..], best)
  }

  ghost predicate BestPick(l: Ledger, teams: seq<Team>, best: nat) {
    |teams| >= 2 && best == BestOpponents(l, teams[0], teams[1..], |teams| - 1)
  }

  ghost predicate Books(l: Ledger, t1: Team, t2: Team, after: Ledger) {
    after == Recorded(l, t1, t2)
  }

  /** What the first game takes out of the teams. */
  lemma FirstPick(l: Ledger, teams: seq<Team>, games: RawRound) returns (best: nat, less: seq<Team>, l2: Ledger)
    requires AreGames(l, teams, games) && teams != []
    ensures LeftOver(teams, best, less) && BestPick(l, teams, best)
    ensures |games| == |teams| / 2 && games[0] == Pairing(teams[0].AsSide(), teams[1 + best].AsSide())
    ensures Books(l, teams[0], teams[1 + best], l2) && AreGames(l2, less, games[1..]) && |less| == |teams| - 2
  {
    best := BestOpponents(l, teams[0], teams[1..], |teams| - 1);
    less := Without(teams[1..], best);
    l2 := Recorded(l, teams[0], teams[1 + best]);
  }

  function Later(best: nat, x: nat): nat {
    if x < best then 1 + x else 2 + x
  }

  lemma LeftTeam(teams: seq<Team>, best: nat, less: seq<Team>, x: nat)
    requires LeftOver(teams, best, less) && x < |less|
    ensures Later(best, x) < |teams| && Later(best, x) != 1 + best && less[x] == teams[Later(best, x)]
  {
  }

  predicate Between(teams: seq<Team>, game: Pairing<Side>, x: nat, y: nat) {
    x < y < |teams| && game == Pairing(teams[x].AsSide(), teams[y].AsSide())
  }

  lemma StillBetween(teams: seq<Team>, best: nat, less: seq<Team>, game: Pairing<Side>, x: nat, y: nat)
    requires LeftOver(teams, best, less) && Between(less, game, x, y)
    ensures Between(teams, game, Later(best, x), Later(best, y))
  {
    LeftTeam(teams, best, less, x);
    LeftTeam(teams, best, less, y);
  }

  lemma SameGame(games: RawRound, j: nat)
    requires 1 <= j < |games|
    ensures games[j] == games[1..][j - 1]
  {
  }

  /** A game is between two of the teams, the one formed first on side A. */
  lemma {:induction false} GameOfTeams(l: Ledger, teams: seq<Team>, games: RawRound, k: nat) returns (x: nat, y: nat)
    requires AreGames(l, teams, games) && k < |games|
    ensures Between(teams, games[k], x, y)
    decreases |teams|
  {
    var best, less, l2 := FirstPick(l, teams, games);
    if k == 0 {
      x, y := 0, 1 + best;
    } else {
      SameGame(games, k);
      x, y := GameOfTeams(l2, less, games[1..], k - 1);
      StillBetween(teams, best, less, games[k], x, y);
      x, y := Later(best, x), Later(best, y);
    }
  }

  /** A game between other teams does not touch what two teams have faced each other. */
  lemma OthersUntouched(l: Ledger, t1: Team, t2: Team, t: Team, u: Team)
    requires Apart(t1, t) && Apart(t2, t)
    ensures OppCost(Recorded(l, t1, t2), t, u) == OppCost(l, t, u)
  {
    RecordedOpponents(l, t1, t2, t.first, u.first);
    RecordedOpponents(l, t1, t2, t.first, u.second);
    RecordedOpponents(l, t1, t2, t.second, u.first);
    RecordedOpponents(l, t1, t2, t.second, u.second);
  }

  lemma LessIsApart(teams: seq<Team>, best: nat, less: seq<Team>)
    requires AllApart(teams) && LeftOver(teams, best, less)
    ensures AllApart(less)
    ensures forall x | 0 <= x < |less| :: Apart(teams[0], less[x]) && Apart(teams[1 + best], less[x])
  {
    forall x | 0 <= x < |less| ensures Apart(teams[0], less[x]) && Apart(teams[1 + best], less[x]) {
      LeftTeam(teams, best, less, x);
      var y := Later(best, x);
      assert y < 1 + best ==> Apart(teams[y], teams[1 + best]);
    }
    forall x, y | 0 <= x < y < |less| ensures Apart(less[x], less[y]) {
      LeftTeam(teams, best, less, x);
      LeftTeam(teams, best, less, y);
    }
  }

  // ---- Once some games are made.

  /** The counters say the same about two teams. */
  ghost predicate SameCost(l: Ledger, l2: Ledger, t: Team, u: Team) {
    OppCost(l2, t, u) == OppCost(l, t, u)
  }

  /** The teams left when the games still to come are `games`: nobody is on two of them, they are in the order they
      were formed in, and the counters say of them what they said before the round. */
  ghost predicate StillToCome(l: Ledger, l2: Ledger, left: seq<Team>, games: RawRound) {
    && AreGames(l2, left, games) && AllApart(left) && InLine(l.games, left)
    && (forall x, y {:trigger SameCost(l, l2, left[x], left[y])} | 0 <= x < |left| && 0 <= y < |left| ::
          SameCost(l, l2, left[x], left[y]))
  }

  ghost predicate InLine(games: map<string, nat>, teams: seq<Team>) {
    forall x, y | 0 <= x < y < |teams| :: Ahead(games, teams[x].first, teams[y].first)
  }

  lemma LeftInLine(games: map<string, nat>, teams: seq<Team>, best: nat, less: seq<Team>)
    requires InLine(games, teams) && LeftOver(teams, best, less)
    ensures InLine(games, less)
  {
    forall x, y | 0 <= x < y < |less| ensures Ahead(games, less[x].first, less[y].first) {
      LeftTeam(teams, best, less, x);
      LeftTeam(teams, best, less, y);
    }
  }

  lemma LeftSameCost(l: Ledger, l2: Ledger, l3: Ledger, teams: seq<Team>, best: nat, less: seq<Team>, x: nat, y: nat)
    requires LeftOver(teams, best, less) && AllApart(teams) && Books(l2, teams[0], teams[1 + best], l3)
    requires forall x, y {:trigger SameCost(l, l2, teams[x], teams[y])} | 0 <= x < |teams| && 0 <= y < |teams| ::
               SameCost(l, l2, teams[x], teams[y])
    requires x < |less| && y < |less|
    ensures SameCost(l, l3, less[x], less[y])
  {
    LeftTeam(teams, best, less, x);
    LeftTeam(teams, best, less, y);
    LessIsApart(teams, best, less);
    OthersUntouched(l2, teams[0], teams[1 + best], less[x], less[y]);
    assert SameCost(l, l2, teams[Later(best, x)], teams[Later(best, y)]);
  }

  lemma OneGameFewer(l: Ledger, l2: Ledger, left: seq<Team>, games: RawRound) returns (l3: Ledger, less: seq<Team>)
    requires StillToCome(l, l2, left, games) && games != []
    ensures StillToCome(l, l3, less, games[1..])
  {
    var best;
    best, less, l3 := FirstPick(l2, left, games);
    LessIsApart(left, best, less);
    LeftInLine(l.games, left, best, less);
    forall x, y {:trigger SameCost(l, l3, less[x], less[y])} | 0 <= x < |less| && 0 <= y < |less|
      ensures SameCost(l, l3, less[x], less[y])
    {
      LeftSameCost(l, l2, l3, left, best, less, x, y);
    }
  }

  lemma {:induction false} AfterGames(l: Ledger, teams: seq<Team>, games: RawRound, i: nat)
    returns (l2: Ledger, left: seq<Team>)
    requires StillToCome(l, l, teams, games) && i <= |games|
    ensures StillToCome(l, l2, left, games[i..])
    decreases i
  {
    if i == 0 {
      l2, left := l, teams;
      assert games[0..] == games;
    } else {
      l2, left := AfterGames(l, teams, games, i - 1);
      assert games[i - 1..][1..] == games[i..];
      l2, left := OneGameFewer(l, l2, left, games[i - 1..]);
    }
  }

  /** Two games in the order they were made, team by team: the first team of the earlier was formed before those of the
      later, and would not rather have met either of them. */
  ghost predicate Chosen(l: Ledger, early: Pairing<Side>, late: Pairing<Side>, t: Team, u: Team, v: Team, w: Team) {
    && early == Pairing(t.AsSide(), u.AsSide()) && late == Pairing(v.AsSide(), w.AsSide())
    && Ahead(l.games, t.first, v.first)
    && (forall x {:trigger BetterOpponents(l, t, x, u)} | x == v || x == w :: !BetterOpponents(l, t, x, u))
  }

  lemma FirstIsContent(l: Ledger, l2: Ledger, left: seq<Team>, games: RawRound, best: nat, x: nat)
    requires StillToCome(l, l2, left, games) && BestPick(l2, left, best) && 1 <= x < |left|
    ensures !BetterOpponents(l, left[0], left[x], left[1 + best])
  {
    BestIsContent(l2, left, best, x);
    assert SameCost(l, l2, left[0], left[x]) && SameCost(l, l2, left[0], left[1 + best]);
    SameChoice(l, l2, left[0], left[x], left[1 + best]);
  }

  lemma BestIsContent(l: Ledger, teams: seq<Team>, best: nat, x: nat)
    requires BestPick(l, teams, best) && 1 <= x < |teams|
    ensures !BetterOpponents(l, teams[0], teams[x], teams[1 + best])
  {
    OpponentsAreBest(l, teams[0], teams[1..], |teams| - 1, x - 1);
  }

  lemma SameChoice(l: Ledger, l2: Ledger, t: Team, u: Team, v: Team)
    requires SameCost(l, l2, t, u) && SameCost(l, l2, t, v)
    ensures BetterOpponents(l, t, u, v) <==> BetterOpponents(l2, t, u, v)
  {
  }

  lemma FirstGameIsChosen(l: Ledger, l2: Ledger, left: seq<Team>, games: RawRound, k: nat)
    returns (t: Team, u: Team, v: Team, w: Team)
    requires StillToCome(l, l2, left, games) && 1 <= k < |games|
    ensures Chosen(l, games[0], games[k], t, u, v, w)
  {
    var best, less, l3 := FirstPick(l2, left, games);
    SameGame(games, k);
    var x, y := GameOfTeams(l3, less, games[1..], k - 1);
    StillBetween(left, best, less, games[k], x, y);
    t, u, v, w := ChosenAmong(l, l2, left, games, best, games[k], Later(best, x), Later(best, y));
  }

  lemma ChosenAmong(l: Ledger, l2: Ledger, left: seq<Team>, games: RawRound, best: nat, late: Pairing<Side>,
                    x: nat, y: nat)
    returns (t: Team, u: Team, v: Team, w: Team)
    requires StillToCome(l, l2, left, games) && BestPick(l2, left, best) && 1 <= x && Between(left, late, x, y)
    requires games != [] && Between(left, games[0], 0, 1 + best)
    ensures Chosen(l, games[0], late, t, u, v, w)
  {
    FirstIsContent(l, l2, left, games, best, x);
    FirstIsContent(l, l2, left, games, best, y);
    t, u, v, w := left[0], left[1 + best], left[x], left[y];
  }

  lemma GameIsChosen(l: Ledger, teams: seq<Team>, games: RawRound, i: nat, j: nat)
    returns (t: Team, u: Team, v: Team, w: Team)
    requires StillToCome(l, l, teams, games) && i < j < |games|
    ensures Chosen(l, games[i], games[j], t, u, v, w)
  {
    var l2, left := AfterGames(l, teams, games, i);
    t, u, v, w := FirstGameIsChosen(l, l2, left, games[i..], j - i);
  }

  // ---- A round of the schedule.

  /** The sides of a round, game by game. */
  function SideAt(round: RawRound, k: nat): Side
    requires k < 2 * |round|
  {
    if k % 2 == 0 then round[k / 2].a else round[k / 2].b
  }

  /** The round as the mixer made it: its teams, from a line sorted by the past. */
  ghost predicate MadeFrom(past: seq<RawRound>, round: RawRound, l: Ledger, active: seq<string>, teams: seq<Team>) {
    && Remembers(l, past) && Sorted(l.games, active) && Distinct(active)
    && AreTeams(l, active, teams) && AreGames(l, teams, round)
  }

  lemma HowItWasMade(players: seq<string>, out: seq<RawRound>, r: nat)
    returns (l: Ledger, active: seq<string>, teams: seq<Team>)
    requires Distinct(players) && IsMixed(players, out) && r < |out| && out[r] != []
    ensures MadeFrom(out[..r], out[r], l, active, teams)
  {
    var books: seq<Ledger> :| MixedBy(players, out, books);
    l := books[r];
    active := Active(l.games, players);
    BooksRemember(players, out, books, r);
    ActiveIsSorted(l.games, players);
    assert PlaysRound(players, out, books, r);
    teams := MixIsTeams(l, active, out[r]);
  }

  lemma ActiveIsSorted(games: map<string, nat>, players: seq<string>)
    requires Distinct(players)
    ensures Sorted(games, Active(games, players)) && Distinct(Active(games, players))
  {
    PoolSorted(games, players);
    SortedDistinct(games, Active(games, players));
  }

  lemma MixIsTeams(l: Ledger, active: seq<string>, round: RawRound) returns (teams: seq<Team>)
    requires |active| % 4 == 0 && Mix(l, active).games == round && round != []
    ensures AreTeams(l, active, teams) && AreGames(l, teams, round)
  {
    Twos(|active|);
    teams := Teams(l, active);
  }

  lemma SideIsTeam(l: Ledger, teams: seq<Team>, round: RawRound, k: nat) returns (x: nat)
    requires AreGames(l, teams, round) && k < 2 * |round|
    ensures x < |teams| && SideAt(round, k) == teams[x].AsSide()
  {
    var y, z := GameOfTeams(l, teams, round, k / 2);
    x := if k % 2 == 0 then y else z;
  }

  lemma UpIsAhead(l: Ledger, past: seq<RawRound>, x: string, y: string)
    requires Remembers(l, past)
    ensures FirstUp(past, x, y) <==> Ahead(l.games, x, y)
  {
  }

  lemma FresherIsBetter(l: Ledger, past: seq<RawRound>, a: string, b: string, c: string)
    requires Remembers(l, past)
    ensures Fresher(past, a, b, c) <==> BetterPartner(l, a, b, c)
  {
  }

  lemma FoesAreOpponents(l: Ledger, past: seq<RawRound>, t: Team, u: Team, v: Team)
    requires Remembers(l, past)
    ensures BetterFoes(past, t.AsSide(), u.AsSide(), v.AsSide()) <==> BetterOpponents(l, t, u, v)
  {
  }

  /** Who plays: of two players the one sitting out has played more often so far, or as often and comes later by name. */
  lemma WhoSitsOut(players: seq<string>, out: seq<RawRound>, r: nat, x: string, y: string)
    requires Distinct(players) && IsMixed(players, out) && r < |out| && y in players
    requires RoundSeats(out[r], x) > 0 && RoundSeats(out[r], y) == 0
    ensures FirstUp(out[..r], x, y)
  {
    var books: seq<Ledger> :| MixedBy(players, out, books);
    BooksRemember(players, out, books, r);
    EveryRoundSeatsFours(players, out, books, r);
    SitterIsBehind(books[r].games, players, x, y);
    UpIsAhead(books[r], out[..r], x, y);
  }

  lemma SitterIsBehind(games: map<string, nat>, players: seq<string>, x: string, y: string)
    requires Distinct(players) && y in players
    requires x in Active(games, players) && y !in Active(games, players)
    ensures Ahead(games, x, y)
  {
    PoolSorted(games, players);
    var pool, active := Pool(games, players), Active(games, players);
    var i :| 0 <= i < |active| && active[i] == x;
    var j :| 0 <= j < |pool| && pool[j] == y;
    assert active == pool[..|active|];
    assert Ahead(games, pool[i], pool[j]);
  }

  /** Partners: of two sides of a round, the one whose first player was up first chose first; whoever is on the other
      side was still left then, and would not have been a fresher partner. */
  lemma PartnersAreFresh(players: seq<string>, out: seq<RawRound>, r: nat, k: nat, m: nat, c: string)
    requires Distinct(players) && IsMixed(players, out) && r < |out| && k < 2 * |out[r]| && m < 2 * |out[r]|
    requires |SideAt(out[r], k)| == 2 && |SideAt(out[r], m)| == 2
    requires FirstUp(out[..r], SideAt(out[r], k)[0], SideAt(out[r], m)[0]) && c in SideAt(out[r], m)
    ensures Fresher(out[..r], SideAt(out[r], k)[0], SideAt(out[r], k)[1], c)
  {
    var l, active, teams := HowItWasMade(players, out, r);
    var x := SideIsTeam(l, teams, out[r], k);
    var y := SideIsTeam(l, teams, out[r], m);
    FirstUpIsFormedFirst(out[..r], l, active, teams, x, y);
    TeamIsChosen(l, active, teams, x, y, c);
    FresherIsBetter(l, out[..r], teams[x].first, teams[x].second, c);
  }

  lemma FirstUpIsFormedFirst(past: seq<RawRound>, l: Ledger, active: seq<string>, teams: seq<Team>, x: nat, y: nat)
    requires Remembers(l, past) && Sorted(l.games, active) && AreTeams(l, active, teams) && x < |teams| && y < |teams|
    requires FirstUp(past, teams[x].first, teams[y].first)
    ensures x < y
  {
    UpIsAhead(l, past, teams[x].first, teams[y].first);
    NotBoth(teams[x].first, teams[y].first);
    if y < x {
      TeamsFollowTheLine(l, active, teams, y, x);
    }
  }

  /** Every side is a pair whose first player was up before the second. */
  lemma SidesInOrder(players: seq<string>, out: seq<RawRound>, r: nat, k: nat)
    requires Distinct(players) && IsMixed(players, out) && r < |out| && k < 2 * |out[r]|
    ensures |SideAt(out[r], k)| == 2 && FirstUp(out[..r], SideAt(out[r], k)[0], SideAt(out[r], k)[1])
  {
    var l, active, teams := HowItWasMade(players, out, r);
    var x := SideIsTeam(l, teams, out[r], k);
    TeamsFollowTheLine(l, active, teams, x, x);
    UpIsAhead(l, out[..r], teams[x].first, teams[x].second);
  }

  /** In every game side A was formed before side B: its first player was up first. */
  lemma SideAIsUpFirst(players: seq<string>, out: seq<RawRound>, r: nat, i: nat)
    requires Distinct(players) && IsMixed(players, out) && r < |out| && i < |out[r]|
    ensures |out[r][i].a| == 2 && |out[r][i].b| == 2 && FirstUp(out[..r], out[r][i].a[0], out[r][i].b[0])
  {
    var l, active, teams := HowItWasMade(players, out, r);
    var x, y := GameOfTeams(l, teams, out[r], i);
    TeamsFollowTheLine(l, active, teams, x, y);
    UpIsAhead(l, out[..r], teams[x].first, teams[y].first);
  }

  /** Opponents: of two games of a round, side A of the earlier was up first and chose its opponents when both sides of
      the later were still left; neither would have been better. */
  ghost predicate ChoseFirst(past: seq<RawRound>, early: Pairing<Side>, late: Pairing<Side>) {
    && |early.a| == |early.b| == |late.a| == |late.b| == 2
    && FirstUp(past, early.a[0], late.a[0])
    && !BetterFoes(past, early.a, late.a, early.b) && !BetterFoes(past, early.a, late.b, early.b)
  }

  lemma OpponentsAreFresh(players: seq<string>, out: seq<RawRound>, r: nat, i: nat, j: nat)
    requires Distinct(players) && IsMixed(players, out) && r < |out| && i < j < |out[r]|
    ensures ChoseFirst(out[..r], out[r][i], out[r][j])
  {
    var l, active, teams := HowItWasMade(players, out, r);
    NoGameYet(l, active, teams, out[r]);
    var t, u, v, w := GameIsChosen(l, teams, out[r], i, j);
    UpIsAhead(l, out[..r], t.first, v.first);
    FoesAreOpponents(l, out[..r], t, v, u);
    FoesAreOpponents(l, out[..r], t, w, u);
  }

  lemma NoGameYet(l: Ledger, active: seq<string>, teams: seq<Team>, round: RawRound)
    requires AreTeams(l, active, teams) && AreGames(l, teams, round) && Distinct(active) && Sorted(l.games, active)
    ensures StillToCome(l, l, teams, round)
  {
    TeamsAreApart(l, active, teams);
    forall x, y | 0 <= x < y < |teams| ensures Ahead(l.games, teams[x].first, teams[y].first) {
      TeamsFollowTheLine(l, active, teams, x, y);
    }
  }
}
