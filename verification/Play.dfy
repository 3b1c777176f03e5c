/** Playing out a wired plan: a finished match sends its winner and its loser to the
    seats its feeds name (service.go's advanceAfterScore), in any order the organizers
    call the matches. */
module Play {
  import opened Draws

  datatype Game = Game(node: MatchId, winner: Team, loser: Team)

  /** Where a team is: in the seat of a match not played yet, or out of the draw after a result. */
  datatype Place = At(entry: Entry) | Gone(last: Result)

  datatype State = State(
    seats: map<Entry, Team>,
    played: set<MatchId>,
    log: seq<Game>,
    place: map<Team, Place>)

  /** One match being called, and whether its first side wins. */
  datatype Call = Call(node: MatchId, firstWins: bool)

  function Seats(plan: Plan): set<Entry> {
    set id, t | id in plan.Keys && t in {1, 2} :: Entry(id, t)
  }

  function SeededSeats(plan: Plan): (s: set<Entry>)
    ensures forall e :: e in s <==> IsSeeded(plan, e)
  {
    set e | e in Seats(plan) && IsSeeded(plan, e)
  }

  function SeedAt(plan: Plan, e: Entry): Team
    requires IsSeeded(plan, e)
  {
    plan[e.node].Seed(e.team).value
  }

  function Entrants(plan: Plan): set<Team> {
    set e | e in SeededSeats(plan) :: SeedAt(plan, e)
  }

  /** The seat a team starts in. */
  ghost function FirstSeat(plan: Plan, p: Team): (e: Entry)
    requires p in Entrants(plan)
    ensures IsSeeded(plan, e) && SeedAt(plan, e) == p
  {
    var e :| e in SeededSeats(plan) && SeedAt(plan, e) == p;
    e
  }

  ghost function Start(plan: Plan): State {
    State(map e | e in SeededSeats(plan) :: SeedAt(plan, e), {}, [],
          map p | p in Entrants(plan) :: At(FirstSeat(plan, p)))
  }

  predicate Ready(plan: Plan, st: State, id: MatchId) {
    id in plan && id !in st.played && Entry(id, 1) in st.seats && Entry(id, 2) in st.seats
  }

  function Deliver(seats: map<Entry, Team>, feed: Feed, p: Team): map<Entry, Team> {
    if feed.To? then seats[feed.entry := p] else seats
  }

  /** The places of a match's two teams once its result is in. */
  function NextPlace(feed: Feed, r: Result): Place {
    if feed.To? then At(feed.entry) else Gone(r)
  }

  /** Record a result of match `id` and send its two teams on. */
  function Record(st: State, id: MatchId, winner: Team, loser: Team, win: Feed, lose: Feed): State {
    State(
      Deliver(Deliver(st.seats, win, winner), lose, loser),
      st.played + {id},
      st.log + [Game(id, winner, loser)],
      st.place[winner := NextPlace(win, Result(id, true))]
              [loser := NextPlace(lose, Result(id, false))])
  }

  function PlayGame(plan: Plan, st: State, c: Call): State
    requires Ready(plan, st, c.node)
  {
    var a, b := st.seats[Entry(c.node, 1)], st.seats[Entry(c.node, 2)];
    if c.firstWins
    then Record(st, c.node, a, b, plan[c.node].win, plan[c.node].lose)
    else Record(st, c.node, b, a, plan[c.node].win, plan[c.node].lose)
  }

  /** Every call names a match that is ready when it is called. */
  predicate Legal(plan: Plan, st: State, calls: seq<Call>)
    decreases calls
  {
    calls == [] ||
    (Ready(plan, st, calls[0].node) && Legal(plan, PlayGame(plan, st, calls[0]), calls[1..]))
  }

  function PlayAll(plan: Plan, st: State, calls: seq<Call>): State
    requires Legal(plan, st, calls)
    decreases calls
  {
    if calls == [] then st else PlayAll(plan, PlayGame(plan, st, calls[0]), calls[1..])
  }

  // --- what every call keeps ---------------------------------------------------

  /** A seat is filled exactly when it is seeded or its producer has been played. */
  ghost predicate SeatsFollow(plan: Plan, source: map<Entry, Result>, st: State) {
    && (forall e :: e in st.seats <==> IsEntry(plan, e) && (e in source ==> source[e].node in st.played))
    && st.played <= plan.Keys
    && (forall id {:trigger BothSeated(st, id)} | id in st.played :: BothSeated(st, id))
  }

  predicate BothSeated(st: State, id: MatchId) {
    Entry(id, 1) in st.seats && Entry(id, 2) in st.seats
  }

  /** The ledger of places agrees with the seats of the matches still to be played: whoever
      sits there is there and nowhere else. */
  ghost predicate LedgerAgrees(st: State) {
    && (forall e | e in st.seats && e.node !in st.played ::
          st.seats[e] in st.place && st.place[st.seats[e]] == At(e))
    && (forall p | p in st.place && st.place[p].At? ::
          st.place[p].entry in st.seats && st.place[p].entry.node !in st.played
          && st.seats[st.place[p].entry] == p)
  }

  /** Nobody is lost: every entrant has a place, and only results that lead nowhere end a run. */
  ghost predicate NobodyLost(plan: Plan, st: State) {
    && st.place.Keys == Entrants(plan)
    && (forall p | p in st.place && st.place[p].Gone? ::
          st.place[p].last.node in st.played && st.place[p].last.node in plan
          && FeedOf(plan, st.place[p].last) == NoFeed)
  }

  /** Each result that leads nowhere sent exactly one team out of the draw. */
  ghost predicate OneOutEach(plan: Plan, st: State) {
    && (forall p, q | p in st.place && q in st.place && st.place[p].Gone? && st.place[p] == st.place[q] :: p == q)
    && (forall r: Result | r.node in st.played && r.node in plan && FeedOf(plan, r) == NoFeed ::
          SomeoneAt(st, Gone(r)))
  }

  ghost predicate SomeoneAt(st: State, place: Place) {
    exists p :: p in st.place && st.place[p] == place
  }

  ghost predicate Sound(plan: Plan, source: map<Entry, Result>, st: State) {
    SeatsFollow(plan, source, st) && LedgerAgrees(st) && NobodyLost(plan, st) && OneOutEach(plan, st)
  }

  lemma StartSound(plan: Plan, source: map<Entry, Result>)
    requires FedBy(plan, source) && DistinctSeeds(plan)
    ensures Sound(plan, source, Start(plan))
  {
    var st := Start(plan);
    forall e | e in st.seats ensures st.seats[e] in st.place && st.place[st.seats[e]] == At(e) {
      assert e in SeededSeats(plan);
      var f := FirstSeat(plan, st.seats[e]);
      assert plan[e.node].Seed(e.team) == plan[f.node].Seed(f.team);
    }
  }

  /** A feed of a match about to be played leads to a seat that is still empty, in a match
      not played yet. */
  lemma FeedLandsInEmptySeat(plan: Plan, source: map<Entry, Result>, st: State, r: Result)
    requires FedBy(plan, source) && SeatsFollow(plan, source, st) && Ready(plan, st, r.node)
    requires FeedOf(plan, r).To?
    ensures var e := FeedOf(plan, r).entry;
            e !in st.seats && e.node !in st.played && e.node != r.node && IsEntry(plan, e)
            && e in source && source[e] == r
  {
    var e := FeedOf(plan, r).entry;
    assert e == Entry(e.node, 1) || e == Entry(e.node, 2);
    assert e.node in st.played ==> BothSeated(st, e.node);
  }

  lemma SeatsAfterGame(plan: Plan, source: map<Entry, Result>, st: State, id: MatchId, w: Team, l: Team)
    requires FedBy(plan, source) && SeatsFollow(plan, source, st) && Ready(plan, st, id)
    ensures SeatsFollow(plan, source, Record(st, id, w, l, plan[id].win, plan[id].lose))
  {
    var st' := Record(st, id, w, l, plan[id].win, plan[id].lose);
    var won, lost := Result(id, true), Result(id, false);
    forall e ensures e in st'.seats <==> IsEntry(plan, e) && (e in source ==> source[e].node in st'.played) {
      assert e in st'.seats <==> e in st.seats || FeedOf(plan, won) == To(e) || FeedOf(plan, lost) == To(e);
      if e in source && source[e].node == id {
        assert source[e] == won || source[e] == lost;
      }
    }
    forall x | x in st'.played ensures BothSeated(st', x) {
      assert x in st.played ==> BothSeated(st, x);
    }
  }

  lemma LedgerAfterGame(st: State, id: MatchId, w: Entry, l: Entry, win: Feed, lose: Feed)
    requires LedgerAgrees(st) && id !in st.played
    requires forall e | e in st.seats :: e.team == 1 || e.team == 2
    requires {w, l} == {Entry(id, 1), Entry(id, 2)} && w in st.seats && l in st.seats
    requires win.To? ==> win.entry !in st.seats && win.entry.node !in st.played && win.entry.node != id
    requires lose.To? ==> lose.entry !in st.seats && lose.entry.node !in st.played && lose.entry.node != id
    requires win.To? ==> win != lose
    ensures LedgerAgrees(Record(st, id, st.seats[w], st.seats[l], win, lose))
  {
    var st' := Record(st, id, st.seats[w], st.seats[l], win, lose);
    assert w.node == id && l.node == id && w != l by {
      assert Entry(id, 1) in {w, l} && Entry(id, 2) in {w, l};
      assert w in {Entry(id, 1), Entry(id, 2)} && l in {Entry(id, 1), Entry(id, 2)};
    }
    assert st.place[st.seats[w]] == At(w) && st.place[st.seats[l]] == At(l);
    forall e | e in st'.seats && e.node !in st'.played
      ensures st'.seats[e] in st'.place && st'.place[st'.seats[e]] == At(e)
    {
      if win != To(e) && lose != To(e) {
        assert st.place[st.seats[e]] == At(e);
      }
    }
    forall p | p in st'.place && st'.place[p].At?
      ensures st'.place[p].entry in st'.seats && st'.place[p].entry.node !in st'.played
              && st'.seats[st'.place[p].entry] == p
    {
      if p != st.seats[w] && p != st.seats[l] {
        var e := st.place[p].entry;
        assert e == Entry(e.node, e.team);
      }
    }
  }

  lemma GameKeepsSound(plan: Plan, source: map<Entry, Result>, st: State, c: Call)
    requires FedBy(plan, source) && Sound(plan, source, st) && Ready(plan, st, c.node)
    ensures Sound(plan, source, PlayGame(plan, st, c))
  {
    var id := c.node;
    var w := Entry(id, if c.firstWins then 1 else 2);
    var l := Entry(id, if c.firstWins then 2 else 1);
    var win, lose := FeedOf(plan, Result(id, true)), FeedOf(plan, Result(id, false));
    assert win.To? ==> win.entry !in st.seats && win.entry.node !in st.played && win.entry.node != id && win != lose by {
      if win.To? { FeedLandsInEmptySeat(plan, source, st, Result(id, true)); }
      if lose.To? { FeedLandsInEmptySeat(plan, source, st, Result(id, false)); }
    }
    assert lose.To? ==> lose.entry !in st.seats && lose.entry.node !in st.played && lose.entry.node != id by {
      if lose.To? { FeedLandsInEmptySeat(plan, source, st, Result(id, false)); }
    }
    LedgerAfterGame(st, id, w, l, win, lose);
    SeatsAfterGame(plan, source, st, id, st.seats[w], st.seats[l]);
    assert st.place[st.seats[w]] == At(w) && st.place[st.seats[l]] == At(l);
    NobodyLostAfterGame(plan, st, id, st.seats[w], st.seats[l]);
    OneOutEachAfterGame(plan, st, id, st.seats[w], st.seats[l]);
  }

  lemma OneOutEachAfterGame(plan: Plan, st: State, id: MatchId, w: Team, l: Team)
    requires OneOutEach(plan, st) && NobodyLost(plan, st) && id in plan && id !in st.played
    requires w in st.place && l in st.place && w != l && st.place[w].At? && st.place[l].At?
    ensures OneOutEach(plan, Record(st, id, w, l, plan[id].win, plan[id].lose))
  {
    var st' := Record(st, id, w, l, plan[id].win, plan[id].lose);
    assert st'.place[w] == NextPlace(FeedOf(plan, Result(id, true)), Result(id, true));
    assert st'.place[l] == NextPlace(FeedOf(plan, Result(id, false)), Result(id, false));
    forall r: Result | r.node in st'.played && r.node in plan && FeedOf(plan, r) == NoFeed
      ensures SomeoneAt(st', Gone(r))
    {
      if r.node == id {
        assert st'.place[if r.won then w else l] == Gone(r);
      } else {
        assert SomeoneAt(st, Gone(r));
        var p :| p in st.place && st.place[p] == Gone(r);
        assert st'.place[p] == Gone(r);
      }
    }
  }

  lemma NobodyLostAfterGame(plan: Plan, st: State, id: MatchId, w: Team, l: Team)
    requires NobodyLost(plan, st) && id in plan && w in st.place && l in st.place
    ensures NobodyLost(plan, Record(st, id, w, l, plan[id].win, plan[id].lose))
  {
    var st' := Record(st, id, w, l, plan[id].win, plan[id].lose);
    assert st'.place.Keys == st.place.Keys;
  }

  // --- scores ------------------------------------------------------------------

  /** What a team has on its record: `perWin` for each game won and `perLoss` for each lost. */
  function Score(log: seq<Game>, p: Team, perWin: nat, perLoss: nat): nat {
    if log == [] then 0
    else
      var g := log[|log| - 1];
      Score(log[..|log| - 1], p, perWin, perLoss)
      + (if g.winner == p then perWin else 0) + (if g.loser == p then perLoss else 0)
  }

  /** Games a team has lost, and games it has played. */
  function Losses(log: seq<Game>, p: Team): nat {
    Score(log, p, 0, 1)
  }

  function Games(log: seq<Game>, p: Team): nat {
    Score(log, p, 1, 1)
  }

  /** A price list for seats: seeded seats cost 0, and every feed adds exactly the worth of its result. */
  ghost predicate Priced(plan: Plan, price: map<Entry, nat>, perWin: nat, perLoss: nat) {
    && (forall e | IsEntry(plan, e) :: e in price)
    && (forall e | IsSeeded(plan, e) :: price[e] == 0)
    && (forall r: Result | r.node in plan && FeedOf(plan, r).To? ::
          FeedOf(plan, r).entry in price
          && PriceAfter(price, r, 1, perWin, perLoss) == price[FeedOf(plan, r).entry]
          && PriceAfter(price, r, 2, perWin, perLoss) == price[FeedOf(plan, r).entry])
  }

  function PriceAfter(price: map<Entry, nat>, r: Result, team: nat, perWin: nat, perLoss: nat): nat
    requires Entry(r.node, team) in price
  {
    price[Entry(r.node, team)] + if r.won then perWin else perLoss
  }

  /** Every team's record is the price of its seat; a team that left has the price of its
      last seat plus its last result. */
  ghost predicate Paid(plan: Plan, st: State, price: map<Entry, nat>, perWin: nat, perLoss: nat) {
    forall p | p in st.place :: PaidUp(st.place[p], Score(st.log, p, perWin, perLoss), price, perWin, perLoss)
  }

  ghost predicate PaidUp(place: Place, score: nat, price: map<Entry, nat>, perWin: nat, perLoss: nat) {
    match place
    case At(e) => e in price && score == price[e]
    case Gone(r) =>
      || (Entry(r.node, 1) in price && score == PriceAfter(price, r, 1, perWin, perLoss))
      || (Entry(r.node, 2) in price && score == PriceAfter(price, r, 2, perWin, perLoss))
  }

  lemma StartPaid(plan: Plan, price: map<Entry, nat>, perWin: nat, perLoss: nat)
    requires Priced(plan, price, perWin, perLoss)
    ensures Paid(plan, Start(plan), price, perWin, perLoss)
  {
  }

  lemma GameKeepsPaid(plan: Plan, st: State, c: Call, price: map<Entry, nat>, perWin: nat, perLoss: nat)
    requires LedgerAgrees(st) && Ready(plan, st, c.node)
    requires Priced(plan, price, perWin, perLoss) && Paid(plan, st, price, perWin, perLoss)
    ensures Paid(plan, PlayGame(plan, st, c), price, perWin, perLoss)
  {
    var st' := PlayGame(plan, st, c);
    var id := c.node;
    var tw, tl := if c.firstWins then 1 else 2, if c.firstWins then 2 else 1;
    var w, l := st.seats[Entry(id, tw)], st.seats[Entry(id, tl)];
    assert st.place[w] == At(Entry(id, tw)) && st.place[l] == At(Entry(id, tl));
    assert st'.log[..|st.log|] == st.log;
    var won, lost := Result(id, true), Result(id, false);
    assert st'.place[w] == NextPlace(FeedOf(plan, won), won);
    assert st'.place[l] == NextPlace(FeedOf(plan, lost), lost);
    assert Score(st'.log, w, perWin, perLoss) == PriceAfter(price, won, tw, perWin, perLoss);
    assert Score(st'.log, l, perWin, perLoss) == PriceAfter(price, lost, tl, perWin, perLoss);
    forall p | p in st'.place
      ensures PaidUp(st'.place[p], Score(st'.log, p, perWin, perLoss), price, perWin, perLoss)
    {
      if p != w && p != l {
        assert Score(st'.log, p, perWin, perLoss) == Score(st.log, p, perWin, perLoss);
      }
    }
  }

  // --- whole runs --------------------------------------------------------------

  /** The log is one entry for each match played, between two entrants. */
  ghost predicate Logged(plan: Plan, st: State) {
    && |st.log| == |st.played|
    && (forall i | 0 <= i < |st.log| :: st.log[i].loser in Entrants(plan))
  }

  /** Everything a run keeps, from the first call to the last. */
  ghost predicate Running(plan: Plan, source: map<Entry, Result>, st: State,
                          price: map<Entry, nat>, perWin: nat, perLoss: nat) {
    Sound(plan, source, st) && Logged(plan, st) && Paid(plan, st, price, perWin, perLoss)
  }

  lemma GameKeepsLogged(plan: Plan, st: State, c: Call)
    requires Logged(plan, st) && LedgerAgrees(st) && NobodyLost(plan, st) && Ready(plan, st, c.node)
    ensures Logged(plan, PlayGame(plan, st, c))
  {
    var st' := PlayGame(plan, st, c);
    assert st.seats[Entry(c.node, 1)] in st.place && st.seats[Entry(c.node, 2)] in st.place;
    assert forall i | 0 <= i < |st.log| :: st'.log[i] == st.log[i];
  }

  lemma {:induction false} RunKeeps(plan: Plan, source: map<Entry, Result>, st: State, calls: seq<Call>,
                                    price: map<Entry, nat>, perWin: nat, perLoss: nat)
    requires FedBy(plan, source) && Priced(plan, price, perWin, perLoss)
    requires Running(plan, source, st, price, perWin, perLoss) && Legal(plan, st, calls)
    ensures Running(plan, source, PlayAll(plan, st, calls), price, perWin, perLoss)
    decreases calls
  {
    if calls == [] {
    } else {
      var st' := PlayGame(plan, st, calls[0]);
      GameKeepsSound(plan, source, st, calls[0]);
      GameKeepsPaid(plan, st, calls[0], price, perWin, perLoss);
      GameKeepsLogged(plan, st, calls[0]);
      RunKeeps(plan, source, st', calls[1..], price, perWin, perLoss);
    }
  }

  lemma {:induction false} RunIsSound(plan: Plan, source: map<Entry, Result>, st: State, calls: seq<Call>)
    requires FedBy(plan, source) && Sound(plan, source, st) && Legal(plan, st, calls)
    ensures Sound(plan, source, PlayAll(plan, st, calls))
    decreases calls
  {
    if calls != [] {
      GameKeepsSound(plan, source, st, calls[0]);
      RunIsSound(plan, source, PlayGame(plan, st, calls[0]), calls[1..]);
    }
  }

  /** Every legal run from the start of a wired plan with distinct entrants keeps everything. */
  lemma RunFromStart(plan: Plan, source: map<Entry, Result>, calls: seq<Call>,
                     price: map<Entry, nat>, perWin: nat, perLoss: nat)
    requires FedBy(plan, source) && DistinctSeeds(plan) && Priced(plan, price, perWin, perLoss)
    requires Legal(plan, Start(plan), calls)
    ensures Running(plan, source, PlayAll(plan, Start(plan), calls), price, perWin, perLoss)
  {
    StartSound(plan, source);
    StartPaid(plan, price, perWin, perLoss);
    RunKeeps(plan, source, Start(plan), calls, price, perWin, perLoss);
  }

  /** Matches of `final` lead nowhere: their results are the end of the draw. */
  ghost predicate LeadsNowhere(plan: Plan, final: set<MatchId>) {
    forall r: Result | r.node in final && r.node in plan :: FeedOf(plan, r) == NoFeed
  }

  /** The matches still to be played before the `final` ones. */
  function Remaining(plan: Plan, st: State, final: set<MatchId>): set<MatchId> {
    plan.Keys - st.played - final
  }

  /** Play never stalls: while a match outside `final` is unplayed, one outside `final` is ready. */
  lemma NeverStalls(plan: Plan, source: map<Entry, Result>, st: State, final: set<MatchId>) returns (id: MatchId)
    requires FedBy(plan, source) && SeatsFollow(plan, source, st) && LeadsNowhere(plan, final)
    requires Remaining(plan, st, final) != {}
    ensures Ready(plan, st, id) && id !in final
  {
    id := FirstMatch(Remaining(plan, st, final));
    forall t | t == 1 || t == 2 ensures Entry(id, t) in st.seats {
      var e := Entry(id, t);
      if e in source {
        assert FeedOf(plan, source[e]) == To(e);
      }
    }
  }

  /** While a match outside `final` is unplayed, there is a call to make. */
  lemma StillReady(plan: Plan, source: map<Entry, Result>, st: State, final: set<MatchId>)
    requires FedBy(plan, source) && SeatsFollow(plan, source, st) && LeadsNowhere(plan, final)
    requires !(plan.Keys <= st.played + final)
    ensures exists id :: Ready(plan, st, id) && id !in final
  {
    var x :| x in plan.Keys && x !in st.played + final;
    assert x in Remaining(plan, st, final);
    var id := NeverStalls(plan, source, st, final);
  }

  /** Every winner goes on to another match, except the winner of `last`. */
  ghost predicate WinnersGoOn(plan: Plan, last: MatchId) {
    forall id | id in plan && id != last :: plan[id].win.To?
  }

  /** Whoever wins a match not played yet goes on to a match that is not played yet either,
      and which is not `last` when `last` is ready. */
  lemma UnplayedFeedsUnplayed(plan: Plan, source: map<Entry, Result>, st: State, last: MatchId, id: MatchId)
    requires FedBy(plan, source) && SeatsFollow(plan, source, st) && WinnersGoOn(plan, last) && Ready(plan, st, last)
    requires id in Remaining(plan, st, {last})
    ensures var e := plan[id].win; e.To? && e.entry.node in Remaining(plan, st, {last}) && Earlier(id, e.entry.node)
  {
    var won := Result(id, true);
    var e := FeedOf(plan, won).entry;
    assert e in source && source[e] == won && e !in st.seats;
    assert e == Entry(e.node, 1) || e == Entry(e.node, 2);
    assert e.node in st.played ==> BothSeated(st, e.node);
  }

  /** When every other winner goes on, `last` can only be called once all else is played. */
  lemma ReadyAtLast(plan: Plan, source: map<Entry, Result>, st: State, last: MatchId)
    requires FedBy(plan, source) && SeatsFollow(plan, source, st) && WinnersGoOn(plan, last) && Ready(plan, st, last)
    ensures plan.Keys <= st.played + {last}
  {
    var left := Remaining(plan, st, {last});
    if left != {} {
      var id := LastMatch(left);
      UnplayedFeedsUnplayed(plan, source, st, last, id);
      assert false;
    }
    forall id | id in plan.Keys ensures id in st.played + {last} {
      assert id !in left;
    }
  }

  lemma OneFewerRemaining(plan: Plan, st: State, final: set<MatchId>, c: Call)
    requires Ready(plan, st, c.node) && c.node !in final && st.played !! final
    ensures Remaining(plan, PlayGame(plan, st, c), final) < Remaining(plan, st, final)
    ensures PlayGame(plan, st, c).played !! final
  {
    var after := Remaining(plan, PlayGame(plan, st, c), final);
    assert c.node in Remaining(plan, st, final) && c.node !in after;
  }

  /** From anywhere in a run, the draw can be played out to its `final` matches. */
  lemma {:induction false} CanBePlayedOut(plan: Plan, source: map<Entry, Result>, st: State, final: set<MatchId>)
    returns (calls: seq<Call>)
    requires FedBy(plan, source) && Sound(plan, source, st) && LeadsNowhere(plan, final) && st.played !! final
    ensures Legal(plan, st, calls)
    ensures Remaining(plan, PlayAll(plan, st, calls), final) == {}
    ensures PlayAll(plan, st, calls).played !! final
    decreases Remaining(plan, st, final)
  {
    if Remaining(plan, st, final) == {} {
      calls := [];
    } else {
      var id := NeverStalls(plan, source, st, final);
      var c := Call(id, true);
      GameKeepsSound(plan, source, st, c);
      OneFewerRemaining(plan, st, final, c);
      var rest := CanBePlayedOut(plan, source, PlayGame(plan, st, c), final);
      calls := [c] + rest;
      assert calls[1..] == rest;
    }
  }

  // --- a second match for whoever plays an opening one -------------------------

  ghost predicate PlayedIn(log: seq<Game>, p: Team, opening: set<MatchId>) {
    exists i :: 0 <= i < |log| && log[i].node in opening && (log[i].winner == p || log[i].loser == p)
  }

  /** Both teams of every opening match go on to another one. */
  ghost predicate BothGoOn(plan: Plan, opening: set<MatchId>) {
    forall r: Result | r.node in opening && r.node in plan :: FeedOf(plan, r).To?
  }

  /** Nobody who played an opening match is out of the draw with one game. */
  ghost predicate TwiceWhenOut(st: State, opening: set<MatchId>) {
    forall p | p in st.place && st.place[p].Gone? && PlayedIn(st.log, p, opening) :: Games(st.log, p) >= 2
  }

  lemma {:induction false} PlayedHasGames(log: seq<Game>, p: Team, opening: set<MatchId>)
    requires PlayedIn(log, p, opening)
    ensures Games(log, p) >= 1
    decreases log
  {
    var front, g := log[..|log| - 1], log[|log| - 1];
    if g.winner != p && g.loser != p {
      var i :| 0 <= i < |log| && log[i].node in opening && (log[i].winner == p || log[i].loser == p);
      assert front[i] == log[i];
      PlayedHasGames(front, p, opening);
    }
  }

  /** One more game on the record, of the team's or not. */
  lemma OneMoreGame(log: seq<Game>, g: Game, p: Team, opening: set<MatchId>)
    ensures Games(log + [g], p) >= Games(log, p) + if g.winner == p || g.loser == p then 1 else 0
    ensures PlayedIn(log + [g], p, opening) ==>
              PlayedIn(log, p, opening) || (g.node in opening && (g.winner == p || g.loser == p))
  {
    assert (log + [g])[..|log|] == log;
    if PlayedIn(log + [g], p, opening) && !(g.node in opening && (g.winner == p || g.loser == p)) {
      var i :| 0 <= i < |log + [g]| && (log + [g])[i].node in opening
        && ((log + [g])[i].winner == p || (log + [g])[i].loser == p);
      assert log[i] == (log + [g])[i];
    }
  }

  lemma GameKeepsTwice(plan: Plan, st: State, c: Call, opening: set<MatchId>)
    requires LedgerAgrees(st) && Ready(plan, st, c.node) && BothGoOn(plan, opening) && TwiceWhenOut(st, opening)
    ensures TwiceWhenOut(PlayGame(plan, st, c), opening)
  {
    var st' := PlayGame(plan, st, c);
    var g := st'.log[|st.log|];
    assert FeedOf(plan, Result(c.node, true)) == plan[c.node].win;
    assert FeedOf(plan, Result(c.node, false)) == plan[c.node].lose;
    forall p | p in st'.place && st'.place[p].Gone? && PlayedIn(st'.log, p, opening)
      ensures Games(st'.log, p) >= 2
    {
      OneMoreGame(st.log, g, p, opening);
      if g.winner == p || g.loser == p {
        assert c.node !in opening;
        PlayedHasGames(st.log, p, opening);
      }
    }
  }

  lemma {:induction false} RunKeepsTwice(plan: Plan, source: map<Entry, Result>, st: State, calls: seq<Call>,
                                         opening: set<MatchId>)
    requires FedBy(plan, source) && Sound(plan, source, st) && Legal(plan, st, calls)
    requires BothGoOn(plan, opening) && TwiceWhenOut(st, opening)
    ensures TwiceWhenOut(PlayAll(plan, st, calls), opening)
    decreases calls
  {
    if calls != [] {
      GameKeepsSound(plan, source, st, calls[0]);
      GameKeepsTwice(plan, st, calls[0], opening);
      RunKeepsTwice(plan, source, PlayGame(plan, st, calls[0]), calls[1..], opening);
    }
  }

  // --- counting ----------------------------------------------------------------

  function TotalLosses(sides: seq<Team>, log: seq<Game>): nat {
    if sides == [] then 0 else Losses(log, sides[0]) + TotalLosses(sides[1..], log)
  }

  lemma {:induction false} TotalAfterGame(sides: seq<Team>, log: seq<Game>, g: Game)
    requires DistinctTeams(sides)
    ensures TotalLosses(sides, log + [g]) == TotalLosses(sides, log) + (if g.loser in sides then 1 else 0)
    decreases sides
  {
    if sides == [] {
    } else {
      assert (log + [g])[..|log|] == log;
      TotalAfterGame(sides[1..], log, g);
      assert g.loser in sides <==> g.loser == sides[0] || g.loser in sides[1..];
    }
  }

  /** Every game has one loser, so all the losses together number the games. */
  lemma {:induction false} TotalLossesIsGames(sides: seq<Team>, log: seq<Game>)
    requires DistinctTeams(sides) && forall i | 0 <= i < |log| :: log[i].loser in sides
    ensures TotalLosses(sides, log) == |log|
    decreases log
  {
    if log == [] {
      NoGamesNoLosses(sides);
    } else {
      var front, g := log[..|log| - 1], log[|log| - 1];
      TotalLossesIsGames(sides, front);
      TotalAfterGame(sides, front, g);
      assert log == front + [g];
    }
  }

  lemma {:induction false} NoGamesNoLosses(sides: seq<Team>)
    ensures TotalLosses(sides, []) == 0
    decreases sides
  {
    if sides != [] {
      NoGamesNoLosses(sides[1..]);
    }
  }

  lemma {:induction false} TotalWithout(sides: seq<Team>, log: seq<Game>, i: nat)
    requires i < |sides|
    ensures TotalLosses(sides, log) == Losses(log, sides[i]) + TotalLosses(sides[..i] + sides[i + 1..], log)
    decreases sides
  {
    if i == 0 {
      assert sides[..i] + sides[i + 1..] == sides[1..];
    } else {
      TotalWithout(sides[1..], log, i - 1);
      var rest := sides[..i] + sides[i + 1..];
      assert rest[1..] == sides[1..][..i - 1] + sides[1..][i..];
      assert sides[1..][i..] == sides[i + 1..];
    }
  }

  lemma {:induction false} EvenTotal(sides: seq<Team>, log: seq<Game>, v: nat)
    requires forall i | 0 <= i < |sides| :: Losses(log, sides[i]) == v
    ensures TotalLosses(sides, log) == v * |sides|
    decreases sides
  {
    if sides != [] {
      EvenTotal(sides[1..], log, v);
    }
  }
}
