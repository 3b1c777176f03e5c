/** What can be known of the team in a seat from the wiring alone: where it may come from, and
    which matches it may have played on the way. */
module History {
  import opened Draws
  import opened Play

  /** `from` bounds who may sit in a seat, and `via` which matches they may have played: both
      are closed under every feed of the plan. */
  ghost predicate Closed(plan: Plan, from: map<Entry, set<Team>>, via: map<Entry, set<MatchId>>) {
    && (forall e | IsEntry(plan, e) :: e in from && e in via)
    && (forall e | IsSeeded(plan, e) :: SeedAt(plan, e) in from[e])
    && (forall r: Result | r.node in plan && FeedOf(plan, r).To? ::
          FedFrom(r, FeedOf(plan, r).entry, from, via))
  }

  ghost predicate FedFrom(r: Result, e: Entry, from: map<Entry, set<Team>>, via: map<Entry, set<MatchId>>) {
    var a, b := Entry(r.node, 1), Entry(r.node, 2);
    && e in from && a in from && b in from && from[a] + from[b] <= from[e]
    && e in via && a in via && b in via && via[a] + via[b] + {r.node} <= via[e]
  }

  /** Everyone sits where `from` allows. */
  ghost predicate SeatedWithin(plan: Plan, st: State, from: map<Entry, set<Team>>) {
    forall e | e in st.seats :: IsEntry(plan, e) && e in from && st.seats[e] in from[e]
  }

  /** Everyone still in the draw has played only matches `via` allows, and every game was
      between two teams its seats allow. */
  ghost predicate PlayedWithin(st: State, from: map<Entry, set<Team>>, via: map<Entry, set<MatchId>>) {
    && (forall p, i | p in st.place && st.place[p].At? && 0 <= i < |st.log| && InGame(st.log[i], p) ::
          st.place[p].entry in via && st.log[i].node in via[st.place[p].entry])
    && (forall i | 0 <= i < |st.log| :: GameWithin(st.log[i], from))
  }

  predicate InGame(g: Game, p: Team) {
    g.winner == p || g.loser == p
  }

  ghost predicate GameWithin(g: Game, from: map<Entry, set<Team>>) {
    && Entry(g.node, 1) in from && Entry(g.node, 2) in from
    && g.winner in from[Entry(g.node, 1)] + from[Entry(g.node, 2)]
    && g.loser in from[Entry(g.node, 1)] + from[Entry(g.node, 2)]
  }

  lemma GameKeepsSeatedWithin(plan: Plan, st: State, c: Call, from: map<Entry, set<Team>>, via: map<Entry, set<MatchId>>)
    requires Closed(plan, from, via) && Ready(plan, st, c.node) && SeatedWithin(plan, st, from)
    requires forall r: Result | r.node in plan && FeedOf(plan, r).To? :: IsEntry(plan, FeedOf(plan, r).entry)
    ensures SeatedWithin(plan, PlayGame(plan, st, c), from)
  {
    var st' := PlayGame(plan, st, c);
    var won, lost := Result(c.node, true), Result(c.node, false);
    assert FeedOf(plan, won) == plan[c.node].win && FeedOf(plan, lost) == plan[c.node].lose;
    assert FeedOf(plan, won).To? ==> FedFrom(won, FeedOf(plan, won).entry, from, via);
    assert FeedOf(plan, lost).To? ==> FedFrom(lost, FeedOf(plan, lost).entry, from, via);
  }

  lemma GameKeepsPlayedWithin(plan: Plan, st: State, c: Call, from: map<Entry, set<Team>>, via: map<Entry, set<MatchId>>)
    requires Closed(plan, from, via) && Ready(plan, st, c.node) && SeatedWithin(plan, st, from) && LedgerAgrees(st)
    requires PlayedWithin(st, from, via)
    ensures PlayedWithin(PlayGame(plan, st, c), from, via)
  {
    var st' := PlayGame(plan, st, c);
    var id := c.node;
    var tw, tl := if c.firstWins then 1 else 2, if c.firstWins then 2 else 1;
    var w, l := st.seats[Entry(id, tw)], st.seats[Entry(id, tl)];
    var won, lost := Result(id, true), Result(id, false);
    assert st.place[w] == At(Entry(id, tw)) && st.place[l] == At(Entry(id, tl));
    assert st'.place[w] == NextPlace(FeedOf(plan, won), won);
    assert st'.place[l] == NextPlace(FeedOf(plan, lost), lost);
    assert FeedOf(plan, won).To? ==> FedFrom(won, FeedOf(plan, won).entry, from, via);
    assert FeedOf(plan, lost).To? ==> FedFrom(lost, FeedOf(plan, lost).entry, from, via);
    forall p, i | p in st'.place && st'.place[p].At? && 0 <= i < |st'.log| && InGame(st'.log[i], p)
      ensures st'.place[p].entry in via && st'.log[i].node in via[st'.place[p].entry]
    {
      if i < |st.log| {
        assert st'.log[i] == st.log[i];
      }
    }
    forall i | 0 <= i < |st'.log| ensures GameWithin(st'.log[i], from) {
      if i < |st.log| {
        assert st'.log[i] == st.log[i];
      }
    }
  }

  lemma {:induction false} RunKeepsHistory(plan: Plan, source: map<Entry, Result>, st: State, calls: seq<Call>,
                                           from: map<Entry, set<Team>>, via: map<Entry, set<MatchId>>)
    requires FedBy(plan, source) && Closed(plan, from, via) && Legal(plan, st, calls)
    requires Sound(plan, source, st) && SeatedWithin(plan, st, from) && PlayedWithin(st, from, via)
    ensures var after := PlayAll(plan, st, calls);
            Sound(plan, source, after) && SeatedWithin(plan, after, from) && PlayedWithin(after, from, via)
    decreases calls
  {
    if calls == [] {
    } else {
      var st' := PlayGame(plan, st, calls[0]);
      GameKeepsSound(plan, source, st, calls[0]);
      FeedsHitEntries(plan, source);
      GameKeepsSeatedWithin(plan, st, calls[0], from, via);
      GameKeepsPlayedWithin(plan, st, calls[0], from, via);
      RunKeepsHistory(plan, source, st', calls[1..], from, via);
    }
  }

  lemma FeedsHitEntries(plan: Plan, source: map<Entry, Result>)
    requires FedBy(plan, source)
    ensures forall r: Result | r.node in plan && FeedOf(plan, r).To? :: IsEntry(plan, FeedOf(plan, r).entry)
  {
  }

  lemma StartHistory(plan: Plan, from: map<Entry, set<Team>>, via: map<Entry, set<MatchId>>)
    requires Closed(plan, from, via)
    ensures SeatedWithin(plan, Start(plan), from) && PlayedWithin(Start(plan), from, via)
  {
  }

  /** The seat opposite. */
  function OtherSeat(e: Entry): Entry {
    Entry(e.node, if e.team == 1 then 2 else 1)
  }

  ghost predicate HaveMet(log: seq<Game>, p: Team, q: Team) {
    exists i :: 0 <= i < |log| && InGame(log[i], p) && InGame(log[i], q)
  }

  /** Two teams about to meet have not met before, when one of them may only have played
      matches that the other can never have been in. */
  lemma NotMetBefore(plan: Plan, source: map<Entry, Result>, st: State, e: Entry,
                     from: map<Entry, set<Team>>, via: map<Entry, set<MatchId>>)
    requires Sound(plan, source, st) && SeatedWithin(plan, st, from) && PlayedWithin(st, from, via)
    requires Ready(plan, st, e.node) && (e.team == 1 || e.team == 2) && e in via
    requires forall m | m in via[e] && Entry(m, 1) in from && Entry(m, 2) in from ::
               st.seats[OtherSeat(e)] !in from[Entry(m, 1)] + from[Entry(m, 2)]
    ensures !HaveMet(st.log, st.seats[e], st.seats[OtherSeat(e)])
  {
    var x := st.seats[e];
    assert st.place[x] == At(e);
    forall i | 0 <= i < |st.log| && InGame(st.log[i], x)
      ensures !InGame(st.log[i], st.seats[OtherSeat(e)])
    {
      assert GameWithin(st.log[i], from);
      assert st.log[i].node in via[e];
    }
  }
}
