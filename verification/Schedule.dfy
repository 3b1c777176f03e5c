/** schedule.go: fitting rounds to a target, naming the sides, and placing games on courts. */
module Schedule {
  import opened Circle

  type Side = seq<string>

  /** A round before court placement. */
  type RawRound = seq<Pairing<Side>>

  datatype MatchSpec = MatchSpec(team1: Side, team2: Side, court: int, slot: int)
  datatype RoundSpec = RoundSpec(number: int, matches: seq<MatchSpec>)

  // ---- How many rounds.

  /** The natural count brought into the organizer's window; zero or less is unset, and the minimum wins a conflict. */
  function BoundedTarget(natural: int, minRounds: int, maxRounds: int): (t: int)
    ensures t >= 1
    ensures minRounds > 0 ==> t >= minRounds
    ensures maxRounds > 0 && minRounds <= maxRounds ==> t <= maxRounds
    ensures natural >= 1 && (minRounds > 0 ==> natural >= minRounds) && (maxRounds > 0 ==> natural <= maxRounds)
      ==> t == natural
    ensures 0 < maxRounds < natural && minRounds <= maxRounds ==> t == maxRounds
    ensures minRounds > 0 && (natural < minRounds || 0 < maxRounds < minRounds) ==> t == minRounds
    ensures natural < 1 && minRounds <= 0 ==> t == 1
  {
    var capped := if maxRounds > 0 && natural > maxRounds then maxRounds else natural;
    var raised := if minRounds > 0 && capped < minRounds then minRounds else capped;
    if raised < 1 then 1 else raised
  }

  function Cycle<T>(rr: seq<T>, target: nat): (out: seq<T>)
    requires rr != []
    ensures |out| == target && forall i | 0 <= i < target :: out[i] == rr[i % |rr|]
  {
    seq(target, i requires 0 <= i < target => rr[i % |rr|])
  }

  function Fitted<T>(rr: seq<T>, target: int): seq<T> {
    if target <= 0 || rr == [] then rr else Cycle(rr, target)
  }

  /** The first rounds of a cycle are the rounds themselves. */
  lemma FirstCycle<T>(rr: seq<T>, n: nat)
    requires rr != [] && n <= |rr|
    ensures Cycle(rr, n) == rr[..n]
  {
    forall i | 0 <= i < n ensures Cycle(rr, n)[i] == rr[..n][i] {
      QuotientIs(i, 0, i, |rr|);
    }
  }

  /** fitRounds: cut short, or go round again. */
  method FitRounds<T>(rr: seq<T>, target: int) returns (out: seq<T>)
    ensures out == Fitted(rr, target)
  {
    if target <= 0 || |rr| == 0 || |rr| == target {
      if target > 0 && |rr| == target {
        FirstCycle(rr, target);
        assert rr[..target] == rr;
      }
      return rr;
    }
    if |rr| > target {
      FirstCycle(rr, target);
      return rr[..target];
    }
    out := [];
    for i := 0 to target
      invariant |out| == i && forall j | 0 <= j < i :: out[j] == rr[j % |rr|]
    {
      out := out + [rr[i % |rr|]];
    }
  }

  lemma Outgrows(p: int, q: int, d: int)
    requires d > 0
    ensures p > q ==> p * d >= q * d + d
  {
    if p > q {
      assert (p - q - 1) * d >= 0;
    }
  }

  lemma QuotientIs(a: int, q: int, m: int, d: int)
    requires d > 0 && a == q * d + m && 0 <= m < d
    ensures a / d == q && a % d == m
  {
    assert a == (a / d) * d + a % d;
    Outgrows(a / d, q, d);
    Outgrows(q, a / d, d);
  }

  lemma NextQuotient(a: nat, d: nat)
    requires d > 0
    ensures a % d + 1 < d ==> (a + 1) / d == a / d && (a + 1) % d == a % d + 1
    ensures a % d + 1 == d ==> (a + 1) / d == a / d + 1 && (a + 1) % d == 0
  {
    assert a == (a / d) * d + a % d;
    if a % d + 1 < d {
      QuotientIs(a + 1, a / d, a % d + 1, d);
    } else {
      assert (a / d + 1) * d == (a / d) * d + d;
      QuotientIs(a + 1, a / d + 1, 0, d);
    }
  }

  lemma {:induction false} CycleMeetings<T>(rr: seq<seq<Pairing<T>>>, x: T, y: T, r0: int, t: nat)
    requires MeetOnlyIn(rr, x, y, r0)
    ensures Meetings(Cycle(rr, t), x, y) == t / |rr| + if t % |rr| > r0 then 1 else 0
    decreases t
  {
    if t > 0 {
      CycleMeetings(rr, x, y, r0, t - 1);
      NextQuotient(t - 1, |rr|);
      assert Cycle(rr, t)[..t - 1] == Cycle(rr, t - 1);
      assert RoundMeetings(rr[(t - 1) % |rr|], x, y) == if (t - 1) % |rr| == r0 then 1 else 0;
    } else {
      assert Cycle(rr, 0) == [];
      QuotientIs(0, 0, 0, |rr|);
    }
  }

  /** Fitted to any number of rounds, two units that meet once per cycle meet a balanced number of times. */
  lemma FittedMeetings<T>(rr: seq<seq<Pairing<T>>>, x: T, y: T, r0: int, target: int)
    requires MeetOnlyIn(rr, x, y, r0) && target >= 1
    ensures |Fitted(rr, target)| == target
    ensures target / |rr| <= Meetings(Fitted(rr, target), x, y) <= target / |rr| + 1
    ensures target % |rr| == 0 ==> Meetings(Fitted(rr, target), x, y) == target / |rr|
  {
    CycleMeetings(rr, x, y, r0, target);
  }

  // ---- Units become sides.

  ghost predicate Covers<T>(side: map<T, Side>, rounds: seq<seq<Pairing<T>>>) {
    forall r, i | 0 <= r < |rounds| && 0 <= i < |rounds[r]| :: rounds[r][i].a in side && rounds[r][i].b in side
  }

  ghost predicate RoundSides<T>(round: seq<Pairing<T>>, side: map<T, Side>, raw: RawRound) {
    && |raw| == |round|
    && forall i | 0 <= i < |round| ::
      && round[i].a in side && round[i].b in side
      && raw[i] == Pairing(side[round[i].a], side[round[i].b])
  }

  ghost predicate AllSides<T>(rounds: seq<seq<Pairing<T>>>, side: map<T, Side>, raw: seq<RawRound>) {
    |raw| == |rounds| && forall r | 0 <= r < |rounds| :: RoundSides(rounds[r], side, raw[r])
  }

  method NameSides<T>(rounds: seq<seq<Pairing<T>>>, side: map<T, Side>) returns (raw: seq<RawRound>)
    requires Covers(side, rounds)
    ensures AllSides(rounds, side, raw)
  {
    raw := [];
    for r := 0 to |rounds|
      invariant |raw| == r && forall s | 0 <= s < r :: RoundSides(rounds[s], side, raw[s])
    {
      var ms := [];
      for i := 0 to |rounds[r]|
        invariant |ms| == i
        invariant forall j | 0 <= j < i :: ms[j] == Pairing(side[rounds[r][j].a], side[rounds[r][j].b])
      {
        var m := rounds[r][i];
        ms := ms + [Pairing(side[m.a], side[m.b])];
      }
      raw := raw + [ms];
    }
  }

  ghost predicate Injective<T(!new)>(side: map<T, Side>) {
    forall x, y | x in side && y in side && x != y :: side[x] != side[y]
  }

  /** Naming sides does not change who meets whom. */
  lemma {:induction false} NamedRoundMeetings<T(!new)>(round: seq<Pairing<T>>, side: map<T, Side>, raw: RawRound, x: T, y: T)
    requires RoundSides(round, side, raw) && Injective(side) && x in side && y in side
    ensures RoundMeetings(raw, side[x], side[y]) == RoundMeetings(round, x, y)
    decreases |round|
  {
    if round != [] {
      var n := |round| - 1;
      NamedRoundMeetings(round[..n], side, raw[..n], x, y);
      assert raw[n].Of(side[x], side[y]) <==> round[n].Of(x, y);
    }
  }

  lemma {:induction false} NamedAppearances<T(!new)>(round: seq<Pairing<T>>, side: map<T, Side>, raw: RawRound, x: T)
    requires RoundSides(round, side, raw) && Injective(side) && x in side
    ensures Appearances(raw, side[x]) == Appearances(round, x)
    decreases |round|
  {
    if round != [] {
      var n := |round| - 1;
      NamedAppearances(round[..n], side, raw[..n], x);
    }
  }

  // ---- Courts.

  ghost predicate IsPlaced(raw: RawRound, numCourts: int, spec: RoundSpec)
    requires numCourts >= 1
  {
    && |spec.matches| == |raw|
    && forall i | 0 <= i < |raw| ::
      spec.matches[i] == MatchSpec(raw[i].a, raw[i].b, i % numCourts + 1, i / numCourts)
  }

  ghost predicate AllPlaced(raw: seq<RawRound>, numCourts: int, out: seq<RoundSpec>)
    requires numCourts >= 1
  {
    && |out| == |raw|
    && forall r | 0 <= r < |raw| :: out[r].number == r + 1 && IsPlaced(raw[r], numCourts, out[r])
  }

  method PlaceCourts(rawRounds: seq<RawRound>, numCourts: int) returns (out: seq<RoundSpec>)
    requires numCourts >= 1
    ensures AllPlaced(rawRounds, numCourts, out)
  {
    out := [];
    var roundNo := 0;
    for r := 0 to |rawRounds|
      invariant roundNo == r == |out|
      invariant forall s | 0 <= s < r :: out[s].number == s + 1 && IsPlaced(rawRounds[s], numCourts, out[s])
    {
      var raw := rawRounds[r];
      roundNo := roundNo + 1;
      if |raw| == 0 {
        out := out + [RoundSpec(roundNo, [])];
      } else {
        var ms := [];
        for i := 0 to |raw|
          invariant |ms| == i
          invariant forall j | 0 <= j < i :: ms[j] == MatchSpec(raw[j].a, raw[j].b, j % numCourts + 1, j / numCourts)
        {
          ms := ms + [MatchSpec(raw[i].a, raw[i].b, i % numCourts + 1, i / numCourts)];
        }
        out := out + [RoundSpec(roundNo, ms)];
      }
    }
  }

  /** No court takes two games in one slot, and every court number is a real one. */
  lemma NoCourtTwice(raw: RawRound, numCourts: int, spec: RoundSpec, i: nat, j: nat)
    requires numCourts >= 1 && IsPlaced(raw, numCourts, spec) && i < j < |spec.matches|
    ensures 1 <= spec.matches[i].court <= numCourts
    ensures spec.matches[i].court != spec.matches[j].court || spec.matches[i].slot != spec.matches[j].slot
  {
    assert i == (i / numCourts) * numCourts + i % numCourts;
    assert j == (j / numCourts) * numCourts + j % numCourts;
  }

  /** Every slot but the last is full: a game waits only when all the courts of the slot before are taken. */
  lemma SlotsFillUp(raw: RawRound, numCourts: int, spec: RoundSpec, i: nat, court: int)
    requires numCourts >= 1 && IsPlaced(raw, numCourts, spec) && i < |spec.matches|
    requires spec.matches[i].slot > 0 && 1 <= court <= numCourts
    ensures exists j | 0 <= j < i :: spec.matches[j].slot == spec.matches[i].slot - 1 && spec.matches[j].court == court
  {
    var slot := spec.matches[i].slot - 1;
    assert i == (slot + 1) * numCourts + i % numCourts;
    assert (slot + 1) * numCourts == slot * numCourts + numCourts;
    var j := slot * numCourts + court - 1;
    assert slot * numCourts >= 0;
    QuotientIs(j, slot, court - 1, numCourts);
    assert spec.matches[j].slot == slot && spec.matches[j].court == court;
  }

  /** The games of a placed round, in order. */
  ghost function RawOf(spec: RoundSpec): (raw: RawRound)
    ensures |raw| == |spec.matches|
  {
    seq(|spec.matches|, i requires 0 <= i < |spec.matches| => Pairing(spec.matches[i].team1, spec.matches[i].team2))
  }

  ghost function RawRounds(out: seq<RoundSpec>): (raw: seq<RawRound>)
    ensures |raw| == |out|
  {
    seq(|out|, r requires 0 <= r < |out| => RawOf(out[r]))
  }

  /** Placement loses no game and changes none. */
  lemma PlacementRoundTrip(raw: seq<RawRound>, numCourts: int, out: seq<RoundSpec>)
    requires numCourts >= 1 && AllPlaced(raw, numCourts, out)
    ensures RawRounds(out) == raw
  {
    forall r | 0 <= r < |raw|
      ensures RawOf(out[r]) == raw[r]
    {
      assert IsPlaced(raw[r], numCourts, out[r]);
    }
  }
}
