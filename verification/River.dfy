/** rotation.go: new partners every round, an exact refusal signal, and how long anybody waits. */
module River {
  import opened Layout
  import opened Rotation

  // ---- Where everybody goes.

  ghost predicate OnCourt(f: Floor, x: Id, k: nat) {
    k < |f.courts| && x in f.courts[k].Seats()
  }

  /** Winners climb one court; the top court's winners hold it. Court k + 1 is won by team B when
      its last result says "b", by team A otherwise. */
  lemma WinnersClimb(f: Floor, results: seq<RotResult>, mode: LoserMode, k: nat)
    requires f.OK() && k < |f.courts|
    ensures
      var won := if SaysB(results, k + 1) then f.courts[k].teamB else f.courts[k].teamA;
      var up := if k == 0 then 0 else k - 1;
      OnCourt(Moved(f, results, mode), won.p0, up) && OnCourt(Moved(f, results, mode), won.p1, up)
  {
    WonAndLost(f.courts[k], results);
    var next := Moved(f, results, mode);
    var up := if k == 0 then 0 else k - 1;
    assert next.courts[up] == NextCourt(f.courts, results, f.bench, mode, up);
  }

  /** Losers drop one court, or hold theirs while the top court's losers fall to the bottom. */
  lemma LosersGo(f: Floor, results: seq<RotResult>, mode: LoserMode, k: nat)
    requires f.OK() && k < |f.courts| - 1
    ensures
      var lost := if SaysB(results, k + 1) then f.courts[k].teamA else f.courts[k].teamB;
      var down := if mode.LosersDown? then k + 1 else if k == 0 then |f.courts| - 1 else k;
      OnCourt(Moved(f, results, mode), lost.p0, down) && OnCourt(Moved(f, results, mode), lost.p1, down)
  {
    WonAndLost(f.courts[k], results);
    var next := Moved(f, results, mode);
    var down := if mode.LosersDown? then k + 1 else if k == 0 then |f.courts| - 1 else k;
    assert next.courts[down] == NextCourt(f.courts, results, f.bench, mode, down);
  }

  /** Where the two who won court k + 1 and the two who lost it sit next, seat by seat: those who come
      from below, or stay at the bottom, take the first seat of each team, those from above the second. */
  ghost predicate SitNext(f: Floor, next: Floor, mode: LoserMode, k: nat, won: Pair, lost: Pair)
    requires k < |f.courts| == |next.courts|
  {
    var n := |f.courts|;
    && (if k == 0 then SecondSeats(next.courts[0], won) else FirstSeats(next.courts[k - 1], won))
    && (if k == n - 1 then ByeSwapped(f.bench, next, lost)
        else SecondSeats(next.courts[if mode.LosersDown? then k + 1 else if k == 0 then n - 1 else k], lost))
  }

  ghost predicate FirstSeats(c: RotCourt, p: Pair) {
    c.teamA.p0 == p.p0 && c.teamB.p0 == p.p1
  }

  ghost predicate SecondSeats(c: RotCourt, p: Pair) {
    c.teamA.p1 == p.p0 && c.teamB.p1 == p.p1
  }

  /** The bottom losers make room for up to two from the front of the queue, and go to its back,
      first seat first. */
  ghost predicate ByeSwapped(bench: seq<Id>, next: Floor, lost: Pair)
    requires next.courts != []
  {
    var bottom := next.courts[|next.courts| - 1];
    if |bench| == 0 then FirstSeats(bottom, lost) && next.bench == []
    else if |bench| == 1 then FirstSeats(bottom, Pair(bench[0], lost.p1)) && next.bench == [lost.p0]
    else FirstSeats(bottom, Pair(bench[0], bench[1])) && next.bench == bench[2..] + [lost.p0, lost.p1]
  }

  /** A round on a safe floor, from the results as reported: court k + 1 is won by team B if the last
      entry for it says "b", and by team A otherwise. */
  lemma ResultsMovePlayers(f: Floor, results: seq<RotResult>, mode: LoserMode, k: nat)
    requires f.OK() && k < |f.courts|
    ensures |Moved(f, results, mode).courts| == |f.courts|
    ensures
      var c := f.courts[k];
      SitNext(f, Moved(f, results, mode), mode, k,
              if SaysB(results, k + 1) then c.teamB else c.teamA, if SaysB(results, k + 1) then c.teamA else c.teamB)
  {
    var next, n := Moved(f, results, mode), |f.courts|;
    WonAndLost(f.courts[k], results);
    var up := if k == 0 then 0 else k - 1;
    assert next.courts[up] == NextCourt(f.courts, results, f.bench, mode, up);
    if k < n - 1 {
      var down := if mode.LosersDown? then k + 1 else if k == 0 then n - 1 else k;
      assert next.courts[down] == NextCourt(f.courts, results, f.bench, mode, down);
    } else {
      assert next.courts[n - 1] == NextCourt(f.courts, results, f.bench, mode, n - 1);
      SteppingOff(Lost(f.courts[k], results), f.bench);
    }
  }

  lemma SteppingOff(lost: Pair, bench: seq<Id>)
    ensures NextBench(lost, bench) == if |bench| == 0 then [] else if |bench| == 1 then [lost.p0]
                                      else bench[2..] + [lost.p0, lost.p1]
  {
    var off := [lost.p0, lost.p1];
    assert off[..0] == [] && off[..1] == [lost.p0] && off[..2] == off;
  }

  /** On one court or two the modes are the same. */
  lemma ModesAgreeOnTwoCourts(f: Floor, results: seq<RotResult>)
    requires |f.courts| <= 2
    ensures Moved(f, results, LosersDown) == Moved(f, results, LosersStay)
  {
    var n := |f.courts|;
    forall i | 0 <= i < n
      ensures NextCourt(f.courts, results, f.bench, LosersDown, i) == NextCourt(f.courts, results, f.bench, LosersStay, i)
    {
    }
    assert NextCourts(f.courts, results, f.bench, LosersDown) == NextCourts(f.courts, results, f.bench, LosersStay);
  }

  // ---- Partners.

  ghost predicate Together(p: Pair, x: Id, y: Id) {
    (p.p0 == x && p.p1 == y) || (p.p0 == y && p.p1 == x)
  }

  ghost predicate WerePartners(courts: seq<RotCourt>, x: Id, y: Id) {
    exists k | 0 <= k < |courts| :: Together(courts[k].teamA, x, y) || Together(courts[k].teamB, x, y)
  }

  ghost predicate IsTeam(courts: seq<RotCourt>, p: Pair) {
    exists k | 0 <= k < |courts| :: p == courts[k].teamA || p == courts[k].teamB
  }

  /** Four different people on each court. */
  lemma FourOnCourt(f: Floor, k: nat, s: nat, t: nat)
    requires f.OK() && k < |f.courts| && s < t < 4
    ensures f.courts[k].Seats()[s] != f.courts[k].Seats()[t]
  {
    SeatedAt(f.courts, k, s);
    SeatedAt(f.courts, k, t);
    var all := Seated(f.courts) + f.bench;
    assert all[4 * k + s] != all[4 * k + t];
  }

  /** Nobody on two courts. */
  lemma OneCourtEach(f: Floor, j: nat, k: nat, s: nat, t: nat)
    requires f.OK() && j < |f.courts| && k < |f.courts| && j != k && s < 4 && t < 4
    ensures f.courts[j].Seats()[s] != f.courts[k].Seats()[t]
  {
    SeatedAt(f.courts, j, s);
    SeatedAt(f.courts, k, t);
    var all := Seated(f.courts) + f.bench;
    assert all[4 * j + s] != all[4 * k + t];
  }

  /** Nobody on court and on the bench. */
  lemma NotOnTheBench(f: Floor, k: nat, s: nat, i: nat)
    requires f.OK() && k < |f.courts| && s < 4 && i < |f.bench|
    ensures f.courts[k].Seats()[s] != f.bench[i]
  {
    SeatedAt(f.courts, k, s);
    var all := Seated(f.courts) + f.bench;
    assert all[4 * k + s] != all[4 * |f.courts| + i];
  }

  function SeatOf(c: RotCourt, x: Id): (s: nat)
    requires x in c.Seats()
    ensures s < 4 && c.Seats()[s] == x
  {
    if c.teamA.p0 == x then 0 else if c.teamA.p1 == x then 1 else if c.teamB.p0 == x then 2 else 3
  }

  /** A team member's one partner is the other team member. */
  lemma OnePartner(f: Floor, p: Pair, y: Id)
    requires f.OK() && IsTeam(f.courts, p)
    ensures WerePartners(f.courts, p.p0, y) ==> y == p.p1
    ensures WerePartners(f.courts, p.p1, y) ==> y == p.p0
  {
    var j :| 0 <= j < |f.courts| && (p == f.courts[j].teamA || p == f.courts[j].teamB);
    FourAreFour(f, j);
    if WerePartners(f.courts, p.p0, y) {
      SameCourt(f, j, p, p.p0, y);
    }
    if WerePartners(f.courts, p.p1, y) {
      SameCourt(f, j, p, p.p1, y);
    }
  }

  lemma FourAreFour(f: Floor, k: nat)
    requires f.OK() && k < |f.courts|
    ensures
      var c := f.courts[k];
      && c.teamA.p0 != c.teamA.p1 && c.teamA.p0 != c.teamB.p0 && c.teamA.p0 != c.teamB.p1
      && c.teamA.p1 != c.teamB.p0 && c.teamA.p1 != c.teamB.p1 && c.teamB.p0 != c.teamB.p1
  {
    FourOnCourt(f, k, 0, 1);
    FourOnCourt(f, k, 0, 2);
    FourOnCourt(f, k, 0, 3);
    FourOnCourt(f, k, 1, 2);
    FourOnCourt(f, k, 1, 3);
    FourOnCourt(f, k, 2, 3);
  }

  /** Somebody's partner is on their own court. */
  lemma SameCourt(f: Floor, j: nat, p: Pair, x: Id, y: Id)
    requires f.OK() && j < |f.courts| && (p == f.courts[j].teamA || p == f.courts[j].teamB)
    requires (x == p.p0 || x == p.p1) && WerePartners(f.courts, x, y)
    ensures Together(f.courts[j].teamA, x, y) || Together(f.courts[j].teamB, x, y)
  {
    var k :| 0 <= k < |f.courts| && (Together(f.courts[k].teamA, x, y) || Together(f.courts[k].teamB, x, y));
    if k != j {
      OneCourtEach(f, j, k, SeatOf(f.courts[j], x), SeatOf(f.courts[k], x));
    }
  }

  lemma FromAboveIsTeam(f: Floor, results: seq<RotResult>, mode: LoserMode, i: nat)
    requires i < |f.courts|
    ensures IsTeam(f.courts, FromAbove(f.courts, results, mode, i))
  {
    var k := if i == 0 then 0
      else if mode.LosersStay? then (if i == |f.courts| - 1 then 0 else i) else i - 1;
    var p := FromAbove(f.courts, results, mode, i);
    assert p == f.courts[k].teamA || p == f.courts[k].teamB;
  }

  /** On a safe layout, nobody is left with the partner they just had. */
  lemma EveryoneGetsANewPartner(f: Floor, results: seq<RotResult>, mode: LoserMode, i: nat)
    requires f.OK() && i < |f.courts|
    ensures
      var c := Moved(f, results, mode).courts[i];
      && !WerePartners(f.courts, c.teamA.p0, c.teamA.p1)
      && !WerePartners(f.courts, c.teamB.p0, c.teamB.p1)
  {
    var next := Moved(f, results, mode);
    var above := FromAbove(f.courts, results, mode, i);
    assert next.courts[i] == NextCourt(f.courts, results, f.bench, mode, i);
    var c := next.courts[i];
    MoveKeepsOK(f, results, mode);
    FourAreFour(next, i);
    FromAboveIsTeam(f, results, mode, i);
    OnePartner(f, above, c.teamA.p0);
    OnePartner(f, above, c.teamB.p0);
    PartnersAreMutual(f.courts, c.teamA.p0, c.teamA.p1);
    PartnersAreMutual(f.courts, c.teamB.p0, c.teamB.p1);
  }

  lemma PartnersAreMutual(courts: seq<RotCourt>, x: Id, y: Id)
    ensures WerePartners(courts, x, y) <==> WerePartners(courts, y, x)
  {
    forall k | 0 <= k < |courts|
      ensures Together(courts[k].teamA, x, y) <==> Together(courts[k].teamA, y, x)
      ensures Together(courts[k].teamB, x, y) <==> Together(courts[k].teamB, y, x)
    {
    }
  }

  // ---- The refusal signal.

  /** With a court in play, the courts come back unchanged exactly when the layout was unsafe. */
  lemma RefusalIsExact(f: Floor, results: seq<RotResult>, mode: LoserMode)
    requires |f.courts| > 0
    ensures Moved(f, results, mode).courts == f.courts <==> !f.OK()
  {
    if f.OK() && Moved(f, results, mode).courts == f.courts {
      EveryoneGetsANewPartner(f, results, mode, 0);
      assert Together(f.courts[0].teamA, f.courts[0].teamA.p0, f.courts[0].teamA.p1);
      assert WerePartners(f.courts, f.courts[0].teamA.p0, f.courts[0].teamA.p1);
    }
  }

  // ---- The bench.

  /** Only the losers of the bottom court ever step off. */
  lemma OnlyBottomLosersStepOff(f: Floor, results: seq<RotResult>, mode: LoserMode, k: nat, s: nat)
    requires f.OK() && k < |f.courts| && s < 4
    requires f.courts[k].Seats()[s] in Moved(f, results, mode).bench
    ensures
      var bottom := f.courts[|f.courts| - 1];
      var lost := if SaysB(results, |f.courts|) then bottom.teamA else bottom.teamB;
      k == |f.courts| - 1 && (f.courts[k].Seats()[s] == lost.p0 || f.courts[k].Seats()[s] == lost.p1)
  {
    WonAndLost(f.courts[|f.courts| - 1], results);
    var n := |f.courts|;
    var x := f.courts[k].Seats()[s];
    var lost := Lost(f.courts[n - 1], results);
    forall i | 0 <= i < |f.bench|
      ensures f.bench[i] != x
    {
      NotOnTheBench(f, k, s, i);
    }
    assert x !in f.bench;
    var off := [lost.p0, lost.p1];
    assert x in f.bench[Min2(|f.bench|)..] || x in off[..Min2(|f.bench|)];
    assert forall y | y in f.bench[Min2(|f.bench|)..] :: y in f.bench;
    assert x in off;
    if k != n - 1 {
      OneCourtEach(f, k, n - 1, s, SeatOf(f.courts[n - 1], x));
    }
  }

  lemma QueueShifts(lost: Pair, bench: seq<Id>, i: nat)
    requires 2 <= i < |bench|
    ensures |NextBench(lost, bench)| == |bench| && NextBench(lost, bench)[i - 2] == bench[i]
  {
  }

  lemma BottomTakesTheFront(f: Floor, results: seq<RotResult>, mode: LoserMode, i: nat)
    requires f.OK() && |f.courts| > 0 && i < |f.bench| && i < 2
    ensures OnCourt(Moved(f, results, mode), f.bench[i], |f.courts| - 1)
  {
    var n := |f.courts|;
    var next := Moved(f, results, mode);
    var c := NextCourt(f.courts, results, f.bench, mode, n - 1);
    assert next.courts[n - 1] == c;
    assert c.Seats()[2 * i] == f.bench[i];
  }

  /** One round takes the queue on by two. */
  lemma QueueMovesOn(f: Floor, results: seq<RotResult>, mode: LoserMode, i: nat)
    requires f.OK() && |f.courts| > 0 && i < |f.bench|
    ensures i < 2 ==> OnCourt(Moved(f, results, mode), f.bench[i], |f.courts| - 1)
    ensures i >= 2 ==> |Moved(f, results, mode).bench| == |f.bench| && Moved(f, results, mode).bench[i - 2] == f.bench[i]
  {
    if i < 2 {
      BottomTakesTheFront(f, results, mode, i);
    } else {
      QueueShifts(Lost(f.courts[|f.courts| - 1], results), f.bench, i);
    }
  }

  datatype Call = Call(results: seq<RotResult>, mode: LoserMode)

  ghost function AfterRounds(f: Floor, calls: seq<Call>): Floor
    decreases |calls|
  {
    if calls == [] then f
    else
      var last := calls[|calls| - 1];
      Moved(AfterRounds(f, calls[..|calls| - 1]), last.results, last.mode)
  }

  ghost predicate Playing(f: Floor, x: Id) {
    x in Seated(f.courts)
  }

  lemma OnCourtIsPlaying(f: Floor, x: Id, k: nat)
    requires OnCourt(f, x, k)
    ensures Playing(f, x)
  {
    var s :| 0 <= s < 4 && f.courts[k].Seats()[s] == x;
    SeatedAt(f.courts, k, s);
  }

  /** Whoever is at place `i` waits for exactly `i / 2` more rounds, moving up two places in each. */
  ghost predicate MovesUp(f: Floor, calls: seq<Call>, i: nat, r: nat)
    requires i < |f.bench| && r <= |calls| && 2 * r <= i
  {
    var later := AfterRounds(f, calls[..r]);
    i - 2 * r < |later.bench| && later.bench[i - 2 * r] == f.bench[i]
  }

  lemma {:induction false} StillWaiting(f: Floor, calls: seq<Call>, i: nat, r: nat)
    requires f.OK() && |f.courts| > 0 && i < |f.bench| && r <= |calls| && 2 * r <= i
    ensures MovesUp(f, calls, i, r)
    ensures AfterRounds(f, calls[..r]).OK() && |AfterRounds(f, calls[..r]).courts| == |f.courts|
    decreases r
  {
    if r > 0 {
      StillWaiting(f, calls, i, r - 1);
      assert calls[..r][..r - 1] == calls[..r - 1];
      MoveKeeps(AfterRounds(f, calls[..r - 1]), calls[r - 1], i - 2 * (r - 1), AfterRounds(f, calls[..r]));
    }
  }

  lemma MoveKeeps(f: Floor, call: Call, i: nat, next: Floor)
    requires f.OK() && |f.courts| > 0 && 2 <= i < |f.bench|
    requires next == Moved(f, call.results, call.mode)
    ensures next.OK() && |next.courts| == |f.courts|
    ensures |next.bench| == |f.bench| && next.bench[i - 2] == f.bench[i]
  {
    QueueMovesOn(f, call.results, call.mode, i);
    MoveKeepsEveryone(f, call.results, call.mode);
    MoveKeepsOK(f, call.results, call.mode);
  }

  /** Whoever is at place `i` in the queue sits out exactly `i / 2` more rounds and plays in the one after. */
  lemma WaitsExactly(f: Floor, calls: seq<Call>, i: nat)
    requires f.OK() && |f.courts| > 0 && i < |f.bench| && |calls| == i / 2 + 1
    ensures forall r: nat | 2 * r <= i :: MovesUp(f, calls, i, r)
    ensures Playing(AfterRounds(f, calls), f.bench[i])
  {
    forall r: nat | 2 * r <= i
      ensures MovesUp(f, calls, i, r)
    {
      StillWaiting(f, calls, i, r);
    }
    var n := i / 2;
    StillWaiting(f, calls, i, n);
    assert calls[..|calls| - 1] == calls[..n];
    BottomTakesTheFront(AfterRounds(f, calls[..n]), calls[n].results, calls[n].mode, i - 2 * n);
    OnCourtIsPlaying(AfterRounds(f, calls), f.bench[i], |f.courts| - 1);
  }

  /** With B people on the bench, nobody on it sits out for more than half of B rounds, rounded up. */
  lemma NobodyWaitsLong(f: Floor, calls: seq<Call>, x: Id)
    requires f.OK() && |f.courts| > 0 && x in f.bench && |calls| >= (|f.bench| + 1) / 2
    ensures exists r: nat :: r <= (|f.bench| + 1) / 2 && Playing(AfterRounds(f, calls[..r]), x)
  {
    var i :| 0 <= i < |f.bench| && f.bench[i] == x;
    WaitsExactly(f, calls[..i / 2 + 1], i);
  }
}
