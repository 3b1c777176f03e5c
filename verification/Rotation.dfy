/** rotation.go: one round of the river, and what it keeps. */
module Rotation {
  import opened Layout

  datatype RotResult = RotResult(court: int, winner: string)
  datatype LoserMode = LosersDown | LosersStay

  /** Who is on court and who is waiting, in queue order. */
  datatype Floor = Floor(courts: seq<RotCourt>, bench: seq<Id>)
  {
    ghost predicate OK() {
      LayoutAndBenchOK(courts, bench)
    }

    ghost function Everyone(): multiset<Id> {
      multiset(Seated(courts)) + multiset(bench)
    }
  }

  /** What the last result for a court says; the empty string when nobody reported one. */
  function WinnerOf(results: seq<RotResult>, court: int): string {
    if results == [] then ""
    else
      var last := results[|results| - 1];
      if last.court == court then last.winner else WinnerOf(results[..|results| - 1], court)
  }

  /** The last result reported for a court says "b". */
  ghost predicate SaysB(results: seq<RotResult>, court: int) {
    exists i :: LastFor(results, court, i) && results[i].winner == "b"
  }

  /** Entry `i` is the last one for the court. */
  ghost predicate LastFor(results: seq<RotResult>, court: int, i: int) {
    0 <= i < |results| && results[i].court == court && forall j | i < j < |results| :: results[j].court != court
  }

  lemma {:induction false} LastResultCounts(results: seq<RotResult>, court: int)
    ensures WinnerOf(results, court) == "b" <==> SaysB(results, court)
    decreases |results|
  {
    if results != [] {
      var n := |results| - 1;
      if results[n].court == court {
        assert LastFor(results, court, n);
      } else {
        LastResultCounts(results[..n], court);
        forall i ensures LastFor(results, court, i) <==> LastFor(results[..n], court, i) {
        }
      }
    }
  }

  /** Team A wins unless the result says "b". */
  function Won(c: RotCourt, results: seq<RotResult>): Pair {
    if WinnerOf(results, c.court) == "b" then c.teamB else c.teamA
  }

  function Lost(c: RotCourt, results: seq<RotResult>): Pair {
    if WinnerOf(results, c.court) == "b" then c.teamA else c.teamB
  }

  function Min2(n: nat): nat {
    if n < 2 then n else 2
  }

  /** The pair at the bottom after the bye swap: the front of the bench, then losers who hold on. */
  function BottomStay(lost: Pair, bench: seq<Id>): Pair {
    Pair(if |bench| >= 1 then bench[0] else lost.p0, if |bench| >= 2 then bench[1] else lost.p1)
  }

  /** The queue after the bye swap: who steps off goes to the back. */
  function NextBench(lost: Pair, bench: seq<Id>): seq<Id> {
    bench[Min2(|bench|)..] + [lost.p0, lost.p1][..Min2(|bench|)]
  }

  /** The pair that comes into court `i` (counted from 0) from above. */
  function FromAbove(courts: seq<RotCourt>, results: seq<RotResult>, mode: LoserMode, i: nat): Pair
    requires i < |courts|
  {
    if i == 0 then Won(courts[0], results)
    else if mode.LosersStay? then
      if i == |courts| - 1 then Lost(courts[0], results) else Lost(courts[i], results)
    else Lost(courts[i - 1], results)
  }

  /** The pair that comes into court `i` from below, or holds the bottom. */
  function FromBelow(courts: seq<RotCourt>, results: seq<RotResult>, bench: seq<Id>, i: nat): Pair
    requires i < |courts|
  {
    if i == |courts| - 1 then BottomStay(Lost(courts[i], results), bench)
    else Won(courts[i + 1], results)
  }

  /** Each arrival from below pairs with one from above. */
  function NextCourt(courts: seq<RotCourt>, results: seq<RotResult>, bench: seq<Id>, mode: LoserMode, i: nat): RotCourt
    requires i < |courts|
  {
    var above := FromAbove(courts, results, mode, i);
    var below := FromBelow(courts, results, bench, i);
    RotCourt(i + 1, Pair(below.p0, above.p0), Pair(below.p1, above.p1))
  }

  function NextCourts(courts: seq<RotCourt>, results: seq<RotResult>, bench: seq<Id>, mode: LoserMode): (next: seq<RotCourt>)
    ensures |next| == |courts|
  {
    seq(|courts|, i requires 0 <= i < |courts| => NextCourt(courts, results, bench, mode, i))
  }

  /** One round: a layout that is not safe to move is handed back as it came. */
  ghost function Moved(f: Floor, results: seq<RotResult>, mode: LoserMode): Floor {
    if !f.OK() || f.courts == [] then f
    else
      Floor(NextCourts(f.courts, results, f.bench, mode),
            NextBench(Lost(f.courts[|f.courts| - 1], results), f.bench))
  }

  // ---- The code.

  method Outcomes(results: seq<RotResult>) returns (win: map<int, string>)
    ensures forall c :: WinnerOf(results, c) == (if c in win then win[c] else "")
  {
    win := map[];
    for i := 0 to |results|
      invariant forall c :: WinnerOf(results[..i], c) == (if c in win then win[c] else "")
    {
      assert results[..i + 1][..i] == results[..i];
      win := win[results[i].court := results[i].winner];
    }
    assert results[..|results|] == results;
  }

  /** Court `k` (counted from 0) is entered in both tables under its number: team B as winners when
      its last result says "b", team A otherwise. */
  ghost predicate Recorded(winners: map<int, Pair>, losers: map<int, Pair>, courts: seq<RotCourt>, results: seq<RotResult>, k: nat)
    requires k < |courts|
  {
    var b := SaysB(results, k + 1);
    && k + 1 in winners && winners[k + 1] == (if b then courts[k].teamB else courts[k].teamA)
    && k + 1 in losers && losers[k + 1] == (if b then courts[k].teamA else courts[k].teamB)
  }

  method Split(courts: seq<RotCourt>, results: seq<RotResult>) returns (winners: map<int, Pair>, losers: map<int, Pair>)
    requires Contiguous(courts)
    ensures forall k | 0 <= k < |courts| :: Recorded(winners, losers, courts, results, k)
  {
    var win := Outcomes(results);
    winners, losers := map[], map[];
    for i := 0 to |courts|
      invariant forall k | 0 <= k < i :: Recorded(winners, losers, courts, results, k)
    {
      var c := courts[i];
      ghost var winnersBefore, losersBefore := winners, losers;
      var w := if c.court in win then win[c.court] else "";
      LastResultCounts(results, c.court);
      if w == "b" {
        winners, losers := winners[c.court := c.teamB], losers[c.court := c.teamA];
      } else {
        winners, losers := winners[c.court := c.teamA], losers[c.court := c.teamB];
      }
      forall k | 0 <= k < i
        ensures Recorded(winners, losers, courts, results, k)
      {
        assert Recorded(winnersBefore, losersBefore, courts, results, k);
      }
    }
  }

  ghost predicate Entered(winners: map<int, Pair>, losers: map<int, Pair>, courts: seq<RotCourt>, results: seq<RotResult>, k: nat)
    requires k < |courts|
  {
    && k + 1 in winners && winners[k + 1] == Won(courts[k], results)
    && k + 1 in losers && losers[k + 1] == Lost(courts[k], results)
  }

  lemma AllRecorded(winners: map<int, Pair>, losers: map<int, Pair>, courts: seq<RotCourt>, results: seq<RotResult>)
    requires Contiguous(courts)
    requires forall k | 0 <= k < |courts| :: Recorded(winners, losers, courts, results, k)
    ensures forall k | 0 <= k < |courts| :: Entered(winners, losers, courts, results, k)
  {
    forall k | 0 <= k < |courts| ensures Entered(winners, losers, courts, results, k) {
      assert Recorded(winners, losers, courts, results, k);
      WonAndLost(courts[k], results);
    }
  }

  /** Who won and who lost, from the results. */
  lemma WonAndLost(c: RotCourt, results: seq<RotResult>)
    ensures Won(c, results) == if SaysB(results, c.court) then c.teamB else c.teamA
    ensures Lost(c, results) == if SaysB(results, c.court) then c.teamA else c.teamB
  {
    LastResultCounts(results, c.court);
  }

  method ByeSwap(lost: Pair, bench: seq<Id>) returns (bottomStay: Pair, nextBench: seq<Id>)
    ensures bottomStay == BottomStay(lost, bench) && nextBench == NextBench(lost, bench)
  {
    nextBench, bottomStay := bench, lost;
    var k := Min2(|bench|);
    if k > 0 {
      var comingIn := bench[..k];
      var off := [lost.p0, lost.p1];
      nextBench := bench[k..];
      for j := 0 to k
        invariant nextBench == bench[k..] + off[..j]
      {
        nextBench := nextBench + [off[j]];
      }
      var stay := comingIn;
      for j := k to 2
        invariant stay == comingIn + off[k..j]
      {
        stay := stay + [off[j]];
      }
      bottomStay := Pair(stay[0], stay[1]);
    }
  }

  method NextRound(courts: seq<RotCourt>, results: seq<RotResult>, bench: seq<Id>, mode: LoserMode)
    returns (next: array<RotCourt>, nextBench: seq<Id>)
    ensures fresh(next)
    ensures Floor(next[..], nextBench) == Moved(Floor(courts, bench), results, mode)
  {
    var n := |courts|;
    var ok := CheckLayout(courts, bench);
    next := new RotCourt[n](i requires 0 <= i < n => courts[i]);
    nextBench := bench;
    if !ok || n == 0 {
      assert next[..] == courts;
      return;
    }
    var winners, losers := Split(courts, results);
    AllRecorded(winners, losers, courts, results);
    assert Entered(winners, losers, courts, results, n - 1);
    var bottomStay;
    bottomStay, nextBench := ByeSwap(losers[n], bench);
    for k := 1 to n + 1
      invariant next[..k - 1] == NextCourts(courts, results, bench, mode)[..k - 1]
    {
      var fromAbove, fromBelow;
      assert Entered(winners, losers, courts, results, 0) && Entered(winners, losers, courts, results, k - 1);
      assert k > 1 ==> Entered(winners, losers, courts, results, k - 2);
      assert k < n ==> Entered(winners, losers, courts, results, k);
      if mode.LosersStay? && n > 1 {
        if k == 1 {
          fromAbove, fromBelow := winners[1], winners[2];
        } else if k == n {
          fromAbove, fromBelow := losers[1], bottomStay;
        } else {
          fromAbove, fromBelow := losers[k], winners[k + 1];
        }
      } else {
        fromAbove := if k == 1 then winners[1] else losers[k - 1];
        fromBelow := if k == n then bottomStay else winners[k + 1];
      }
      next[k - 1] := RotCourt(k, Pair(fromBelow.p0, fromAbove.p0), Pair(fromBelow.p1, fromAbove.p1));
    }
    assert next[..] == next[..n];
  }

  // ---- Nobody is lost or doubled.

  /** How often somebody is in a pair. */
  function In(p: Pair, x: Id): nat {
    (if p.p0 == x then 1 else 0) + (if p.p1 == x then 1 else 0)
  }

  lemma CourtCount(c: RotCourt, results: seq<RotResult>, x: Id)
    ensures multiset(c.Seats())[x] == In(Won(c, results), x) + In(Lost(c, results), x)
  {
    FourSeats(c, x);
  }

  lemma FourSeats(c: RotCourt, x: Id)
    ensures multiset(c.Seats())[x] == In(c.teamA, x) + In(c.teamB, x)
  {
  }

  lemma NextCourtCount(courts: seq<RotCourt>, results: seq<RotResult>, bench: seq<Id>, mode: LoserMode, i: nat, x: Id)
    requires i < |courts|
    ensures multiset(NextCourt(courts, results, bench, mode, i).Seats())[x]
      == In(FromAbove(courts, results, mode, i), x) + In(FromBelow(courts, results, bench, i), x)
  {
  }

  lemma ByeSwapKeeps(lost: Pair, bench: seq<Id>, x: Id)
    ensures In(BottomStay(lost, bench), x) + multiset(NextBench(lost, bench))[x] == In(lost, x) + multiset(bench)[x]
  {
    var k := Min2(|bench|);
    assert bench == bench[..k] + bench[k..];
    var on, off := bench[..k], [lost.p0, lost.p1][..k];
    FrontSwap(lost, bench, x);
    assert multiset(bench)[x] == multiset(on)[x] + multiset(bench[k..])[x];
    assert multiset(NextBench(lost, bench))[x] == multiset(bench[k..])[x] + multiset(off)[x];
  }

  lemma FrontSwap(lost: Pair, bench: seq<Id>, x: Id)
    ensures var k := Min2(|bench|);
            In(BottomStay(lost, bench), x) + multiset([lost.p0, lost.p1][..k])[x] == In(lost, x) + multiset(bench[..k])[x]
  {
    var off := [lost.p0, lost.p1];
    if |bench| == 0 {
      assert bench[..0] == [] && off[..0] == [];
    } else if |bench| == 1 {
      assert bench[..1] == [bench[0]] && off[..1] == [lost.p0];
      OneSeat(bench[0], x);
      OneSeat(lost.p0, x);
    } else {
      assert bench[..2] == [bench[0], bench[1]] && off[..2] == off;
      TwoSeats(bench[0], bench[1], x);
      TwoSeats(lost.p0, lost.p1, x);
    }
  }

  lemma OneSeat(p: Id, x: Id)
    ensures multiset([p])[x] == if p == x then 1 else 0
  {
  }

  lemma TwoSeats(p: Id, q: Id, x: Id)
    ensures multiset([p, q])[x] == In(Pair(p, q), x)
  {
  }

  /** Added up. */
  ghost function Total(counts: seq<nat>): nat {
    if counts == [] then 0 else Total(counts[..|counts| - 1]) + counts[|counts| - 1]
  }

  lemma {:induction false} SeatedIsTotal(courts: seq<RotCourt>, counts: seq<nat>, x: Id)
    requires |counts| == |courts|
    requires forall k | 0 <= k < |courts| :: multiset(courts[k].Seats())[x] == counts[k]
    ensures multiset(Seated(courts))[x] == Total(counts)
    decreases |courts|
  {
    if courts != [] {
      SeatedIsTotal(courts[..|courts| - 1], counts[..|courts| - 1], x);
    }
  }

  /** Who reaches court `i`, counted: `w` and `l` count winners and losers court by court, `stay` the bottom pair. */
  ghost function Landing(w: seq<nat>, l: seq<nat>, stay: nat, mode: LoserMode, i: nat): nat
    requires i < |w| == |l|
  {
    (if i == 0 then w[0]
     else if mode.LosersStay? then (if i == |w| - 1 then l[0] else l[i])
     else l[i - 1])
    + (if i == |w| - 1 then stay else w[i + 1])
  }

  ghost function Landings(w: seq<nat>, l: seq<nat>, stay: nat, mode: LoserMode): (s: seq<nat>)
    requires |w| == |l|
    ensures |s| == |w|
  {
    seq(|w|, i requires 0 <= i < |w| => Landing(w, l, stay, mode, i))
  }

  lemma TotalPush(counts: seq<nat>, j: nat)
    requires j < |counts|
    ensures Total(counts[..j + 1]) == Total(counts[..j]) + counts[j]
  {
    assert counts[..j + 1][..j] == counts[..j];
  }

  /** With the first `j` courts refilled, one losing pair is still on its way and the winners of court `j` are in. */
  lemma {:induction false} RefilledFromTheTop(w: seq<nat>, l: seq<nat>, stay: nat, mode: LoserMode, j: nat)
    requires 1 <= j < |w| == |l|
    ensures Total(Landings(w, l, stay, mode)[..j]) + (if mode.LosersStay? then l[0] else l[j - 1])
      == Total(w[..j]) + Total(l[..j]) + w[j]
    decreases j
  {
    TotalPush(Landings(w, l, stay, mode), j - 1);
    TotalPush(w, j - 1);
    TotalPush(l, j - 1);
    if j > 1 {
      RefilledFromTheTop(w, l, stay, mode, j - 1);
    }
  }

  /** In either mode the courts together lose the bottom losers and gain the bottom pair, and nothing else. */
  lemma LandingsTotal(w: seq<nat>, l: seq<nat>, stay: nat, mode: LoserMode)
    requires 1 <= |w| == |l|
    ensures Total(Landings(w, l, stay, mode)) + l[|l| - 1] == Total(w) + Total(l) + stay
  {
    var n := |w|;
    var landings := Landings(w, l, stay, mode);
    TotalPush(landings, n - 1);
    TotalPush(w, n - 1);
    TotalPush(l, n - 1);
    assert landings[..n] == landings && w[..n] == w && l[..n] == l;
    if n > 1 {
      RefilledFromTheTop(w, l, stay, mode, n - 1);
    }
  }

  lemma {:induction false} TotalOfSums(w: seq<nat>, l: seq<nat>, both: seq<nat>)
    requires |w| == |l| == |both|
    requires forall k | 0 <= k < |w| :: both[k] == w[k] + l[k]
    ensures Total(both) == Total(w) + Total(l)
    decreases |w|
  {
    if w != [] {
      var n := |w| - 1;
      TotalOfSums(w[..n], l[..n], both[..n]);
    }
  }

  /** `w` and `l` count somebody among each court's winners and losers. */
  ghost predicate Counted(courts: seq<RotCourt>, results: seq<RotResult>, x: Id, w: seq<nat>, l: seq<nat>) {
    && |w| == |l| == |courts|
    && forall k | 0 <= k < |courts| :: w[k] == In(Won(courts[k], results), x) && l[k] == In(Lost(courts[k], results), x)
  }

  lemma NextCourtLands(f: Floor, results: seq<RotResult>, mode: LoserMode, x: Id, w: seq<nat>, l: seq<nat>, i: nat)
    requires i < |f.courts| && Counted(f.courts, results, x, w, l)
    ensures multiset(NextCourt(f.courts, results, f.bench, mode, i).Seats())[x]
      == Landing(w, l, In(BottomStay(Lost(f.courts[|w| - 1], results), f.bench), x), mode, i)
  {
    NextCourtCount(f.courts, results, f.bench, mode, i, x);
  }

  lemma MoveKeepsCount(f: Floor, results: seq<RotResult>, mode: LoserMode, x: Id)
    requires f.OK() && |f.courts| > 0
    ensures Moved(f, results, mode).Everyone()[x] == f.Everyone()[x]
  {
    var n := |f.courts|;
    var w: seq<nat> := seq(n, k requires 0 <= k < n => In(Won(f.courts[k], results), x));
    var l: seq<nat> := seq(n, k requires 0 <= k < n => In(Lost(f.courts[k], results), x));
    var both: seq<nat> := seq(n, k requires 0 <= k < n => w[k] + l[k]);
    CountsBalance(f, results, mode, x, w, l, both);
  }

  lemma CountsBalance(f: Floor, results: seq<RotResult>, mode: LoserMode, x: Id, w: seq<nat>, l: seq<nat>, both: seq<nat>)
    requires f.OK() && Counted(f.courts, results, x, w, l) && |w| > 0 && |both| == |w|
    requires forall k | 0 <= k < |both| :: both[k] == w[k] + l[k]
    ensures Moved(f, results, mode).Everyone()[x] == f.Everyone()[x]
  {
    var lost := Lost(f.courts[|w| - 1], results);
    var stay := In(BottomStay(lost, f.bench), x);
    SeatedBefore(f, results, x, w, l, both);
    TotalOfSums(w, l, both);
    SeatedAfter(f, results, mode, x, w, l);
    LandingsTotal(w, l, stay, mode);
    ByeSwapKeeps(lost, f.bench, x);
  }

  lemma SeatedBefore(f: Floor, results: seq<RotResult>, x: Id, w: seq<nat>, l: seq<nat>, both: seq<nat>)
    requires Counted(f.courts, results, x, w, l) && |both| == |w|
    requires forall k | 0 <= k < |both| :: both[k] == w[k] + l[k]
    ensures multiset(Seated(f.courts))[x] == Total(both)
  {
    forall k | 0 <= k < |f.courts|
      ensures multiset(f.courts[k].Seats())[x] == both[k]
    {
      CourtCount(f.courts[k], results, x);
    }
    SeatedIsTotal(f.courts, both, x);
  }

  lemma SeatedAfter(f: Floor, results: seq<RotResult>, mode: LoserMode, x: Id, w: seq<nat>, l: seq<nat>)
    requires Counted(f.courts, results, x, w, l) && |w| > 0
    ensures multiset(Seated(NextCourts(f.courts, results, f.bench, mode)))[x]
      == Total(Landings(w, l, In(BottomStay(Lost(f.courts[|w| - 1], results), f.bench), x), mode))
  {
    var next := NextCourts(f.courts, results, f.bench, mode);
    var landings := Landings(w, l, In(BottomStay(Lost(f.courts[|w| - 1], results), f.bench), x), mode);
    forall k | 0 <= k < |next|
      ensures multiset(next[k].Seats())[x] == landings[k]
    {
      NextCourtLands(f, results, mode, x, w, l, k);
    }
    SeatedIsTotal(next, landings, x);
  }

  /** Whatever the results and the mode, a round keeps the same people, courts and bench length. */
  lemma MoveKeepsEveryone(f: Floor, results: seq<RotResult>, mode: LoserMode)
    ensures Moved(f, results, mode).Everyone() == f.Everyone()
    ensures |Moved(f, results, mode).courts| == |f.courts|
    ensures |Moved(f, results, mode).bench| == |f.bench|
  {
    if f.OK() && |f.courts| > 0 {
      forall x: Id
        ensures Moved(f, results, mode).Everyone()[x] == f.Everyone()[x]
      {
        MoveKeepsCount(f, results, mode, x);
      }
    }
  }

  lemma OKIsBag(f: Floor)
    ensures f.OK() <==> Contiguous(f.courts) && ProperBag(f.Everyone())
  {
    ProperIsBag(Seated(f.courts) + f.bench);
    assert multiset(Seated(f.courts) + f.bench) == f.Everyone();
  }

  /** A safe layout stays safe, with the same people, courts and bench length. */
  lemma MoveKeepsOK(f: Floor, results: seq<RotResult>, mode: LoserMode)
    requires f.OK()
    ensures Moved(f, results, mode).OK()
  {
    var g := Moved(f, results, mode);
    MoveKeepsEveryone(f, results, mode);
    assert Contiguous(g.courts);
    SameBagOK(f, g);
  }

  lemma SameBagOK(f: Floor, g: Floor)
    requires f.OK() && Contiguous(g.courts) && g.Everyone() == f.Everyone()
    ensures g.OK()
  {
    OKIsBag(f);
    OKIsBag(g);
  }
}
