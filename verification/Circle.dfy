/** schedule.go: the circle method, and why everybody meets everybody exactly once. */
module Circle {

  /** One pairing of two units: single players, or fixed pairs. */
  datatype Pairing<T> = Pairing(a: T, b: T)
  {
    ghost predicate Of(x: T, y: T) {
      (a == x && b == y) || (a == y && b == x)
    }
  }

  ghost predicate Distinct<T(!new)>(s: seq<T>) {
    forall i, j | 0 <= i < j < |s| :: s[i] != s[j]
  }

  /** The players, with a bye added when they are odd in number. */
  function Padded<T>(players: seq<T>, bye: T): (p: seq<T>)
    ensures |p| % 2 == 0 && |players| <= |p| <= |players| + 1
  {
    if |players| % 2 == 1 then players + [bye] else players
  }

  /** One turn of the circle: the first place is fixed, the last comes in behind it. */
  function Turned<T>(line: seq<T>): (r: seq<T>)
    requires |line| >= 2
    ensures |r| == |line|
  {
    [line[0], line[|line| - 1]] + line[1..|line| - 1]
  }

  function Line<T>(p: seq<T>, r: nat): (line: seq<T>)
    requires |p| >= 2
    ensures |line| == |p|
  {
    if r == 0 then p else Turned(Line(p, r - 1))
  }

  /** The first `k` pairings across a line, leaving out whoever meets the bye. */
  function Across<T(==)>(line: seq<T>, bye: T, k: nat): seq<Pairing<T>>
    requires 2 * k <= |line|
  {
    if k == 0 then []
    else
      var x, y := line[k - 1], line[|line| - k];
      Across(line, bye, k - 1) + if x != bye && y != bye then [Pairing(x, y)] else []
  }

  function CircleRound<T(==)>(p: seq<T>, bye: T, r: nat): seq<Pairing<T>>
    requires |p| >= 2
  {
    Across(Line(p, r), bye, |p| / 2)
  }

  /** The first `n` rounds. */
  function RoundsTo<T(==)>(p: seq<T>, bye: T, n: nat): (rounds: seq<seq<Pairing<T>>>)
    requires |p| >= 2
    ensures |rounds| == n
    ensures forall r | 0 <= r < n :: rounds[r] == CircleRound(p, bye, r)
  {
    if n == 0 then [] else RoundsTo(p, bye, n - 1) + [CircleRound(p, bye, n - 1)]
  }

  /** All the rounds: one fewer than the padded field, or none when there is nobody. */
  function CircleRounds<T(==)>(players: seq<T>, bye: T): (rounds: seq<seq<Pairing<T>>>)
    ensures players == [] ==> rounds == []
    ensures players != [] ==> |rounds| == |Padded(players, bye)| - 1
  {
    var p := Padded(players, bye);
    if |p| < 2 then [] else RoundsTo(p, bye, |p| - 1)
  }

  method PairAcross<T(==)>(arr: seq<T>, bye: T) returns (ms: seq<Pairing<T>>)
    ensures ms == Across(arr, bye, |arr| / 2)
  {
    var n := |arr|;
    ms := [];
    for i := 0 to n / 2
      invariant ms == Across(arr, bye, i)
    {
      var a, b := arr[i], arr[n - 1 - i];
      if a != bye && b != bye {
        ms := ms + [Pairing(a, b)];
      }
    }
  }

  /** Rotate, fixing the first place. */
  method Turn<T>(arr: seq<T>) returns (next: seq<T>)
    requires |arr| >= 2
    ensures next == Turned(arr)
  {
    var n := |arr|;
    next := [arr[0], arr[n - 1]];
    next := next + arr[1..n - 1];
  }

  method RoundRobin<T(==)>(players: seq<T>, bye: T) returns (out: seq<seq<Pairing<T>>>)
    ensures out == CircleRounds(players, bye)
  {
    var p := players;
    if |p| % 2 == 1 {
      p := p + [bye];
    }
    var n := |p|;
    out := [];
    if n < 2 {
      return;
    }
    var arr := p;
    for r := 0 to n - 1
      invariant |arr| == n && arr == Line(p, r)
      invariant out == RoundsTo(p, bye, r)
    {
      var ms := PairAcross(arr, bye);
      NextCircleRound(p, bye, r);
      out := out + [ms];
      arr := Turn(arr);
    }
  }

  lemma NextCircleRound<T>(p: seq<T>, bye: T, r: nat)
    requires |p| >= 2
    ensures RoundsTo(p, bye, r + 1) == RoundsTo(p, bye, r) + [Across(Line(p, r), bye, |p| / 2)]
    ensures Line(p, r + 1) == Turned(Line(p, r))
  {
  }

  // ---- Where somebody stands.

  function Wrap(a: int, m: int): int {
    if a >= m then a - m else a
  }

  /** The place in round `r` of whoever started at place `q` of `n`. */
  function Place(n: nat, q: nat, r: nat): int
    requires q < n
  {
    if q == 0 then 0 else 1 + Wrap(q - 1 + r, n - 1)
  }

  lemma {:induction false} StandsAt<T>(p: seq<T>, q: nat, r: nat)
    requires 2 <= |p| && q < |p| && r < |p| - 1
    ensures 0 <= Place(|p|, q, r) < |p| && Line(p, r)[Place(|p|, q, r)] == p[q]
    decreases r
  {
    if r > 0 {
      StandsAt(p, q, r - 1);
    }
  }

  lemma {:induction false} LineDistinct<T(!new)>(p: seq<T>, r: nat)
    requires |p| >= 2 && Distinct(p)
    ensures Distinct(Line(p, r))
    decreases r
  {
    if r > 0 {
      LineDistinct(p, r - 1);
      var was, now := Line(p, r - 1), Line(p, r);
      assert forall i | 0 <= i < |p| :: now[i] == was[if i == 0 then 0 else if i == 1 then |p| - 1 else i - 1];
    }
  }

  /** The round in which the units that start at places `x` and `y` stand opposite each other. */
  function MeetingRound(n: nat, x: nat, y: nat): int
    requires x < y < n
  {
    var m := n - 1;
    if x == 0 then m - y
    else
      var w := x + y;
      if w % 2 == 0 then m - w / 2 else if w <= m then (m - w) / 2 else (3 * m - w) / 2
  }

  /** An odd circle: opposite exactly once. */
  lemma OppositeOnce(n: nat, x: nat, y: nat, r: nat)
    requires n % 2 == 0 && x < y < n && r < n - 1
    ensures 0 <= MeetingRound(n, x, y) < n - 1
    ensures Place(n, x, r) + Place(n, y, r) == n - 1 <==> r == MeetingRound(n, x, y)
  {
  }

  // ---- How often two units meet.

  ghost function RoundMeetings<T>(round: seq<Pairing<T>>, x: T, y: T): nat {
    if round == [] then 0
    else
      var n := |round| - 1;
      RoundMeetings(round[..n], x, y) + if round[n].Of(x, y) then 1 else 0
  }

  ghost function Meetings<T>(rounds: seq<seq<Pairing<T>>>, x: T, y: T): nat {
    if rounds == [] then 0
    else
      var n := |rounds| - 1;
      Meetings(rounds[..n], x, y) + RoundMeetings(rounds[n], x, y)
  }

  /** How often somebody is on either side of a pairing in a round. */
  ghost function Appearances<T>(round: seq<Pairing<T>>, x: T): nat {
    if round == [] then 0
    else
      var n := |round| - 1;
      Appearances(round[..n], x) + (if round[n].a == x then 1 else 0) + (if round[n].b == x then 1 else 0)
  }

  lemma MeetingsPush<T>(round: seq<Pairing<T>>, p: Pairing<T>, x: T, y: T)
    ensures RoundMeetings(round + [p], x, y) == RoundMeetings(round, x, y) + if p.Of(x, y) then 1 else 0
  {
    assert (round + [p])[..|round|] == round;
  }

  lemma AppearancesPush<T>(round: seq<Pairing<T>>, p: Pairing<T>, x: T)
    ensures Appearances(round + [p], x)
      == Appearances(round, x) + (if p.a == x then 1 else 0) + (if p.b == x then 1 else 0)
  {
    assert (round + [p])[..|round|] == round;
  }

  /** Across a line of different units, two of them meet exactly when they stand opposite. */
  lemma {:induction false} AcrossMeets<T(!new)>(line: seq<T>, bye: T, k: nat, i: nat, j: nat)
    requires Distinct(line) && 2 * k <= |line| && i < |line| && j < |line| && i != j
    requires line[i] != bye && line[j] != bye
    ensures RoundMeetings(Across(line, bye, k), line[i], line[j])
      == if i + j == |line| - 1 && (i < k || j < k) then 1 else 0
    decreases k
  {
    if k > 0 {
      AcrossMeets(line, bye, k - 1, i, j);
      var x, y := line[k - 1], line[|line| - k];
      assert Pairing(x, y).Of(line[i], line[j])
        <==> (i == k - 1 && j == |line| - k) || (j == k - 1 && i == |line| - k);
      if x != bye && y != bye {
        MeetingsPush(Across(line, bye, k - 1), Pairing(x, y), line[i], line[j]);
      } else {
        assert Across(line, bye, k) == Across(line, bye, k - 1);
      }
    }
  }

  /** One more pairing across, counted for the unit at place `i`. */
  lemma AcrossStep<T(!new)>(line: seq<T>, bye: T, k: nat, i: nat)
    requires Distinct(line) && 0 < k && 2 * k <= |line| && i < |line| && line[i] != bye
    ensures Appearances(Across(line, bye, k), line[i]) == Appearances(Across(line, bye, k - 1), line[i])
      + if (i == k - 1 || i == |line| - k) && line[|line| - 1 - i] != bye then 1 else 0
  {
    var x, y := line[k - 1], line[|line| - k];
    assert x == line[i] <==> i == k - 1;
    assert y == line[i] <==> i == |line| - k;
    if x != bye && y != bye {
      AppearancesPush(Across(line, bye, k - 1), Pairing(x, y), line[i]);
    } else {
      assert Across(line, bye, k) == Across(line, bye, k - 1);
    }
  }

  /** Across a line of different units, each one plays once, or not at all when the bye stands opposite. */
  lemma {:induction false} AcrossOnce<T(!new)>(line: seq<T>, bye: T, k: nat, i: nat)
    requires Distinct(line) && 2 * k <= |line| && i < |line| && line[i] != bye
    ensures Appearances(Across(line, bye, k), line[i])
      == if (i < k || i >= |line| - k) && line[|line| - 1 - i] != bye then 1 else 0
    decreases k
  {
    if k > 0 {
      AcrossOnce(line, bye, k - 1, i);
      AcrossStep(line, bye, k, i);
    }
  }

  lemma EveryoneAcross<T(!new)>(line: seq<T>, bye: T, i: nat)
    requires Distinct(line) && |line| % 2 == 0 && i < |line| && line[i] != bye
    ensures Appearances(Across(line, bye, |line| / 2), line[i]) == if line[|line| - 1 - i] != bye then 1 else 0
  {
    AcrossOnce(line, bye, |line| / 2, i);
  }

  lemma PaddedDistinct<T(!new)>(players: seq<T>, bye: T)
    requires Distinct(players) && bye !in players
    ensures Distinct(Padded(players, bye))
  {
  }

  /** In a round over a padded line, the units that started at `x` and `y` meet exactly when it is their round. */
  lemma MeetAcross<T(!new)>(p: seq<T>, bye: T, x: nat, y: nat, r: nat)
    requires Distinct(p) && |p| % 2 == 0 && x < y < |p| && r < |p| - 1 && p[x] != bye && p[y] != bye
    ensures RoundMeetings(CircleRound(p, bye, r), p[x], p[y]) == if r == MeetingRound(|p|, x, y) then 1 else 0
  {
    LineDistinct(p, r);
    StandsAt(p, x, r);
    StandsAt(p, y, r);
    OppositeOnce(|p|, x, y, r);
    MeetEverywhere(Line(p, r), bye, Place(|p|, x, r), Place(|p|, y, r));
  }

  lemma MeetEverywhere<T(!new)>(line: seq<T>, bye: T, i: nat, j: nat)
    requires Distinct(line) && |line| % 2 == 0 && i < |line| && j < |line| && line[i] != line[j]
    requires line[i] != bye && line[j] != bye
    ensures RoundMeetings(Across(line, bye, |line| / 2), line[i], line[j]) == if i + j == |line| - 1 then 1 else 0
  {
    AcrossMeets(line, bye, |line| / 2, i, j);
  }

  lemma MeetInTheirRound<T(!new)>(players: seq<T>, bye: T, x: nat, y: nat, r: nat)
    requires Distinct(players) && bye !in players && x < y < |players|
    requires r < |CircleRounds(players, bye)|
    ensures RoundMeetings(CircleRounds(players, bye)[r], players[x], players[y])
      == if r == MeetingRound(|Padded(players, bye)|, x, y) then 1 else 0
  {
    PaddedDistinct(players, bye);
    MeetAcross(Padded(players, bye), bye, x, y, r);
  }

  /** Does the bye stand opposite whoever started at place `x`? */
  ghost predicate ByeAcross<T>(p: seq<T>, bye: T, x: nat, r: nat)
    requires |p| >= 2 && x < |p|
  {
    var opposite := |p| - 1 - Place(|p|, x, r);
    0 <= opposite < |p| && Line(p, r)[opposite] == bye
  }

  /** In a round over a padded line each unit plays once, unless the bye stands opposite. */
  lemma OnceAcross<T(!new)>(p: seq<T>, bye: T, x: nat, r: nat)
    requires Distinct(p) && |p| % 2 == 0 && x < |p| && r < |p| - 1 && p[x] != bye
    ensures Appearances(CircleRound(p, bye, r), p[x]) == if ByeAcross(p, bye, x, r) then 0 else 1
  {
    LineDistinct(p, r);
    StandsAt(p, x, r);
    EveryoneAcross(Line(p, r), bye, Place(|p|, x, r));
  }

  lemma PlaysUnlessBye<T(!new)>(players: seq<T>, bye: T, x: nat, r: nat)
    requires Distinct(players) && bye !in players && x < |players| && r < |CircleRounds(players, bye)|
    ensures Appearances(CircleRounds(players, bye)[r], players[x])
      == if ByeAcross(Padded(players, bye), bye, x, r) then 0 else 1
  {
    PaddedDistinct(players, bye);
    OnceAcross(Padded(players, bye), bye, x, r);
  }

  /** The round an odd player out sits out. */
  ghost predicate SitsOut<T>(players: seq<T>, x: nat, r: nat)
    requires x < |players|
  {
    |players| % 2 == 1 && r == MeetingRound(|players| + 1, x, |players|)
  }

  /** Nobody plays twice in a round; in an even field everybody plays, in an odd one each sits out one round. */
  lemma NobodyTwiceInARound<T(!new)>(players: seq<T>, bye: T, x: nat, r: nat)
    requires Distinct(players) && bye !in players && x < |players| && r < |CircleRounds(players, bye)|
    ensures Appearances(CircleRounds(players, bye)[r], players[x]) == if SitsOut(players, x, r) then 0 else 1
  {
    PlaysUnlessBye(players, bye, x, r);
    if |players| % 2 == 1 {
      ByeAcrossOdd(players, bye, x, r);
    } else {
      ByeAcrossEven(players, bye, x, r);
    }
  }

  lemma ByeAcrossEven<T(!new)>(p: seq<T>, bye: T, x: nat, r: nat)
    requires bye !in p && x < |p| && |p| % 2 == 0
    ensures !ByeAcross(p, bye, x, r)
  {
    ByeNowhere(p, bye, r);
    var opposite := |p| - 1 - Place(|p|, x, r);
    if 0 <= opposite < |p| {
      assert Line(p, r)[opposite] in Line(p, r);
    }
  }

  lemma ByeAcrossOdd<T(!new)>(players: seq<T>, bye: T, x: nat, r: nat)
    requires Distinct(players) && bye !in players && x < |players| && |players| % 2 == 1 && r < |players|
    ensures ByeAcross(Padded(players, bye), bye, x, r) <==> r == MeetingRound(|players| + 1, x, |players|)
  {
    var p, n := Padded(players, bye), |players| + 1;
    var line, b := Line(p, r), Place(n, |players|, r);
    PaddedDistinct(players, bye);
    LineDistinct(p, r);
    StandsAt(p, x, r);
    StandsAt(p, |players|, r);
    OppositeOnce(n, x, |players|, r);
    assert line[b] == bye;
    var opposite := n - 1 - Place(n, x, r);
    assert line[opposite] == bye ==> opposite == b;
  }

  lemma {:induction false} ByeNowhere<T(!new)>(p: seq<T>, bye: T, r: nat)
    requires |p| >= 2 && bye !in p
    ensures bye !in Line(p, r)
    decreases r
  {
    if r > 0 {
      ByeNowhere(p, bye, r - 1);
    }
  }

  /** These two meet in one of the rounds and in no other. */
  ghost predicate MeetOnlyIn<T>(rounds: seq<seq<Pairing<T>>>, x: T, y: T, r0: int) {
    0 <= r0 < |rounds| && forall r | 0 <= r < |rounds| :: RoundMeetings(rounds[r], x, y) == if r == r0 then 1 else 0
  }

  lemma {:induction false} MeetingsSoFar<T>(rounds: seq<seq<Pairing<T>>>, x: T, y: T, r0: int, n: nat)
    requires MeetOnlyIn(rounds, x, y, r0) && n <= |rounds|
    ensures Meetings(rounds[..n], x, y) == if r0 < n then 1 else 0
    decreases n
  {
    if n > 0 {
      MeetingsSoFar(rounds, x, y, r0, n - 1);
      assert rounds[..n][..n - 1] == rounds[..n - 1];
    }
  }

  lemma MeetOnlyOnce<T(!new)>(players: seq<T>, bye: T, x: nat, y: nat)
    requires Distinct(players) && bye !in players && x < y < |players|
    ensures MeetOnlyIn(CircleRounds(players, bye), players[x], players[y], MeetingRound(|Padded(players, bye)|, x, y))
  {
    var rounds := CircleRounds(players, bye);
    OppositeOnce(|Padded(players, bye)|, x, y, 0);
    forall r | 0 <= r < |rounds|
      ensures RoundMeetings(rounds[r], players[x], players[y])
        == if r == MeetingRound(|Padded(players, bye)|, x, y) then 1 else 0
    {
      MeetInTheirRound(players, bye, x, y, r);
    }
  }

  /** Over all the rounds, every two units meet exactly once. */
  lemma EveryPairMeetsOnce<T(!new)>(players: seq<T>, bye: T, x: nat, y: nat)
    requires Distinct(players) && bye !in players && x < y < |players|
    ensures Meetings(CircleRounds(players, bye), players[x], players[y]) == 1
  {
    var rounds := CircleRounds(players, bye);
    MeetOnlyOnce(players, bye, x, y);
    MeetingsSoFar(rounds, players[x], players[y], MeetingRound(|Padded(players, bye)|, x, y), |rounds|);
    assert rounds[..|rounds|] == rounds;
  }

  /** Nobody outside the list is ever paired. */
  lemma {:induction false} AcrossFrom<T(!new)>(line: seq<T>, bye: T, k: nat)
    requires 2 * k <= |line|
    ensures forall m | m in Across(line, bye, k) :: m.a in line && m.b in line && m.a != bye && m.b != bye
    decreases k
  {
    if k > 0 {
      AcrossFrom(line, bye, k - 1);
    }
  }

  lemma {:induction false} LineFrom<T(!new)>(p: seq<T>, r: nat)
    requires |p| >= 2
    ensures forall x | x in Line(p, r) :: x in p
    decreases r
  {
    if r > 0 {
      LineFrom(p, r - 1);
    }
  }

  lemma OnlyPlayers<T(!new)>(players: seq<T>, bye: T, r: nat)
    requires r < |CircleRounds(players, bye)|
    ensures forall m | m in CircleRounds(players, bye)[r] :: m.a in players && m.b in players
  {
    var p := Padded(players, bye);
    LineFrom(p, r);
    AcrossFrom(Line(p, r), bye, |p| / 2);
  }

  // ---- The rounds, pairing by pairing.

  /** Who stands at place `q` in round `r`: the first stays, the others have moved `r` places on, round the end. */
  function Stander<T>(p: seq<T>, r: nat, q: nat): T
    requires q < |p| && r < |p| - 1
  {
    if q == 0 then p[0] else if q > r then p[q - r] else p[q + |p| - 1 - r]
  }

  /** The `i`-th pairing across the circle in round `r`: first against last, and so on inwards. */
  function Facing<T>(p: seq<T>, r: nat, i: nat): Pairing<T>
    requires i < |p| && r < |p| - 1
  {
    Pairing(Stander(p, r, i), Stander(p, r, |p| - 1 - i))
  }

  lemma LineIs<T>(p: seq<T>, r: nat, q: nat)
    requires q < |p| && r < |p| - 1
    ensures Line(p, r)[q] == Stander(p, r, q)
  {
    StandsAt(p, if q == 0 then 0 else if q > r then q - r else q + |p| - 1 - r, r);
  }

  /** With nobody to sit out, round `r` is the pairings across, in order. */
  lemma EvenRounds<T(!new)>(players: seq<T>, bye: T, r: nat, i: nat)
    requires |players| % 2 == 0 && bye !in players && r < |players| - 1 && i < |players| / 2
    ensures r < |CircleRounds(players, bye)| && |CircleRounds(players, bye)[r]| == |players| / 2
    ensures CircleRounds(players, bye)[r][i] == Facing(players, r, i)
  {
    ByeNowhere(players, bye, r);
    AcrossAt(Line(players, r), bye, |players| / 2, i);
    LineIs(players, r, i);
    LineIs(players, r, |players| - 1 - i);
  }

  lemma {:induction false} AcrossAt<T(!new)>(line: seq<T>, bye: T, k: nat, i: nat)
    requires 2 * k <= |line| && bye !in line && i < k
    ensures |Across(line, bye, k)| == k && Across(line, bye, k)[i] == Pairing(line[i], line[|line| - 1 - i])
    decreases k
  {
    if k == 1 {
      assert Across(line, bye, 0) == [];
    } else if i < k - 1 {
      AcrossAt(line, bye, k - 1, i);
    } else {
      AcrossAt(line, bye, k - 1, 0);
    }
  }

  /** In an odd field the pairing with the bye is left out, and the others keep their order. */
  lemma OddRounds<T(!new)>(players: seq<T>, bye: T, r: nat, i: nat, j: nat)
    requires |players| % 2 == 1 && r < |players| && i < j <= |players| / 2
    requires var p := players + [bye]; !HasBye(Facing(p, r, i), bye) && !HasBye(Facing(p, r, j), bye)
    ensures r < |CircleRounds(players, bye)|
    ensures StandBefore(CircleRounds(players, bye)[r], Facing(players + [bye], r, i), Facing(players + [bye], r, j))
  {
    var p := players + [bye];
    assert Padded(players, bye) == p;
    LineIs(p, r, i);
    LineIs(p, r, |p| - 1 - i);
    LineIs(p, r, j);
    LineIs(p, r, |p| - 1 - j);
    AcrossInOrder(Line(p, r), bye, |p| / 2, i, j);
  }

  predicate HasBye<T(==)>(m: Pairing<T>, bye: T) {
    m.a == bye || m.b == bye
  }

  ghost predicate StandBefore<T(!new)>(round: seq<Pairing<T>>, m: Pairing<T>, n: Pairing<T>) {
    exists a, b :: 0 <= a < b < |round| && round[a] == m && round[b] == n
  }

  lemma {:induction false} AcrossHas<T(!new)>(line: seq<T>, bye: T, k: nat, i: nat) returns (a: nat)
    requires 2 * k <= |line| && i < k && line[i] != bye && line[|line| - 1 - i] != bye
    ensures a < |Across(line, bye, k)| && Across(line, bye, k)[a] == Pairing(line[i], line[|line| - 1 - i])
    decreases k
  {
    if i == k - 1 {
      a := |Across(line, bye, k - 1)|;
    } else {
      a := AcrossHas(line, bye, k - 1, i);
    }
  }

  lemma {:induction false} AcrossInOrder<T(!new)>(line: seq<T>, bye: T, k: nat, i: nat, j: nat)
    requires 2 * k <= |line| && i < j < k && line[i] != bye && line[|line| - 1 - i] != bye
    requires line[j] != bye && line[|line| - 1 - j] != bye
    ensures StandBefore(Across(line, bye, k), Pairing(line[i], line[|line| - 1 - i]), Pairing(line[j], line[|line| - 1 - j]))
    decreases k
  {
    if j == k - 1 {
      var a := AcrossHas(line, bye, k - 1, i);
      var b := |Across(line, bye, k - 1)|;
      assert Across(line, bye, k)[a] == Across(line, bye, k - 1)[a];
      assert Across(line, bye, k)[b] == Pairing(line[j], line[|line| - 1 - j]);
    } else {
      AcrossInOrder(line, bye, k - 1, i, j);
      var before := Across(line, bye, k - 1);
      var m, n := Pairing(line[i], line[|line| - 1 - i]), Pairing(line[j], line[|line| - 1 - j]);
      var a, b :| 0 <= a < b < |before| && before[a] == m && before[b] == n;
      assert Across(line, bye, k)[a] == m && Across(line, bye, k)[b] == n;
    }
  }
}
