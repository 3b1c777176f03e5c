/** rotation.go: courts, benches, and when a layout is safe to move. */
module Layout {

  type Id = string

  datatype Pair = Pair(p0: Id, p1: Id)

  /** The two teams on one court. Court numbers are 1-based, 1 is the top. */
  datatype RotCourt = RotCourt(court: int, teamA: Pair, teamB: Pair)
  {
    /** The four seats in order: TeamA[0], TeamA[1], TeamB[0], TeamB[1]. */
    function Seats(): (s: seq<Id>)
      ensures |s| == 4
    {
      [teamA.p0, teamA.p1, teamB.p0, teamB.p1]
    }

    function WithSeat(idx: nat, id: Id): RotCourt
      requires idx < 4
    {
      if idx == 0 then this.(teamA := teamA.(p0 := id))
      else if idx == 1 then this.(teamA := teamA.(p1 := id))
      else if idx == 2 then this.(teamB := teamB.(p0 := id))
      else this.(teamB := teamB.(p1 := id))
    }
  }

  /** Everyone on court, court by court. */
  function Seated(courts: seq<RotCourt>): (s: seq<Id>)
    ensures |s| == 4 * |courts|
  {
    if courts == [] then [] else Seated(courts[..|courts| - 1]) + courts[|courts| - 1].Seats()
  }

  lemma {:induction false} SeatedAt(courts: seq<RotCourt>, k: nat, idx: nat)
    requires k < |courts| && idx < 4
    ensures Seated(courts)[4 * k + idx] == courts[k].Seats()[idx]
    decreases courts
  {
    if k < |courts| - 1 {
      SeatedAt(courts[..|courts| - 1], k, idx);
    }
  }

  lemma {:induction false} SeatedPush(courts: seq<RotCourt>, c: RotCourt)
    ensures Seated(courts + [c]) == Seated(courts) + c.Seats()
  {
    assert (courts + [c])[..|courts|] == courts;
  }

  /** Courts numbered 1..n without a gap. */
  ghost predicate Contiguous(courts: seq<RotCourt>) {
    forall i | 0 <= i < |courts| :: courts[i].court == i + 1
  }

  /** Nobody twice, and nobody blank. */
  ghost predicate Proper(ids: seq<Id>) {
    && (forall i, j | 0 <= i < j < |ids| :: ids[i] != ids[j])
    && (forall i | 0 <= i < |ids| :: ids[i] != "")
  }

  /** A layout and bench that are safe to move. */
  ghost predicate LayoutAndBenchOK(courts: seq<RotCourt>, bench: seq<Id>) {
    Contiguous(courts) && Proper(Seated(courts) + bench)
  }

  /** Being proper is a property of the multiset of players. */
  ghost predicate ProperBag(bag: multiset<Id>) {
    bag[""] == 0 && forall x :: bag[x] <= 1
  }

  lemma {:induction false} ProperIsBag(ids: seq<Id>)
    ensures Proper(ids) <==> ProperBag(multiset(ids))
    decreases ids
  {
    if ids != [] {
      var front, last := ids[..|ids| - 1], ids[|ids| - 1];
      ProperIsBag(front);
      ProperPush(front, last);
      assert ids == front + [last];
      BagPush(multiset(front), last);
    }
  }

  lemma ProperPush(front: seq<Id>, last: Id)
    ensures Proper(front + [last]) <==> Proper(front) && last != "" && last !in front
  {
    var ids := front + [last];
    assert ids[|front|] == last;
    assert forall i | 0 <= i < |front| :: ids[i] == front[i];
  }

  lemma BagPush(bag: multiset<Id>, last: Id)
    ensures ProperBag(bag + multiset{last}) <==> ProperBag(bag) && last != "" && last !in bag
  {
    var more := bag + multiset{last};
    assert forall x :: more[x] == bag[x] + (if x == last then 1 else 0);
    if ProperBag(more) {
      assert more[last] <= 1;
      assert forall x :: bag[x] <= more[x];
    }
  }

  /** Any part of a proper line-up is proper. */
  lemma ProperPrefix(front: seq<Id>, back: seq<Id>)
    requires Proper(front + back)
    ensures Proper(front)
  {
    var ids := front + back;
    assert forall i | 0 <= i < |front| :: ids[i] == front[i];
  }

  ghost function Members(ids: seq<Id>): set<Id> {
    set x | x in ids
  }

  method LayoutOK(courts: seq<RotCourt>) returns (ok: bool)
    ensures ok <==> LayoutAndBenchOK(courts, [])
  {
    ok := CheckLayout(courts, []);
  }

  /** layoutAndBenchOK: walk the courts and then the bench, remembering who was seen. */
  method CheckLayout(courts: seq<RotCourt>, bench: seq<Id>) returns (ok: bool)
    ensures ok <==> LayoutAndBenchOK(courts, bench)
  {
    var seen: set<Id> := {};
    for i := 0 to |courts|
      invariant Contiguous(courts[..i])
      invariant Proper(Seated(courts[..i]))
      invariant seen == Members(Seated(courts[..i]))
    {
      assert courts[..i + 1] == courts[..i] + [courts[i]];
      SeatedPush(courts[..i], courts[i]);
      if courts[i].court != i + 1 {
        return false;
      }
      ok, seen := SeeAll(courts[i].Seats(), seen, Seated(courts[..i]));
      if !ok {
        NotProper(courts, i + 1, bench);
        return false;
      }
    }
    assert courts[..|courts|] == courts;
    ok, seen := SeeAll(bench, seen, Seated(courts));
  }

  /** Has nobody in the list been seen, and is nobody in it blank or twice? */
  method SeeAll(ids: seq<Id>, before: set<Id>, ghost earlier: seq<Id>) returns (ok: bool, seen: set<Id>)
    requires before == Members(earlier) && Proper(earlier)
    ensures ok <==> Proper(earlier + ids)
    ensures ok ==> seen == Members(earlier + ids)
  {
    seen := before;
    assert earlier + ids[..0] == earlier;
    for i := 0 to |ids|
      invariant Proper(earlier + ids[..i])
      invariant seen == Members(earlier + ids[..i])
    {
      assert earlier + ids[..i + 1] == earlier + ids[..i] + [ids[i]];
      ProperPush(earlier + ids[..i], ids[i]);
      if ids[i] == "" || ids[i] in seen {
        assert earlier + ids == earlier + ids[..i + 1] + ids[i + 1..];
        if Proper(earlier + ids) {
          ProperPrefix(earlier + ids[..i + 1], ids[i + 1..]);
        }
        return false, seen;
      }
      seen := seen + {ids[i]};
    }
    assert ids[..|ids|] == ids;
    ok := true;
  }

  lemma {:induction false} SeatedSplit(courts: seq<RotCourt>, n: nat)
    requires n <= |courts|
    ensures Seated(courts) == Seated(courts[..n]) + Seated(courts[n..])
    decreases |courts|
  {
    if n == |courts| {
      assert courts[..n] == courts && courts[n..] == [];
    } else {
      var front, back, last := courts[..|courts| - 1], courts[n..], courts[|courts| - 1];
      SeatedSplit(front, n);
      assert front[..n] == courts[..n];
      assert back[..|back| - 1] == front[n..] && back[|back| - 1] == last;
      assert Seated(back) == Seated(front[n..]) + last.Seats();
      assert Seated(courts) == Seated(front) + last.Seats();
    }
  }

  /** Trouble among the first courts is trouble for good. */
  lemma NotProper(courts: seq<RotCourt>, n: nat, bench: seq<Id>)
    requires n <= |courts| && !Proper(Seated(courts[..n]))
    ensures !LayoutAndBenchOK(courts, bench)
  {
    SeatedSplit(courts, n);
    assert Seated(courts) + bench == Seated(courts[..n]) + (Seated(courts[n..]) + bench);
    if Proper(Seated(courts) + bench) {
      ProperPrefix(Seated(courts[..n]), Seated(courts[n..]) + bench);
    }
  }

  // ---- Counting one person.

  ghost function Tally(ids: seq<Id>, x: Id): nat {
    if ids == [] then 0 else Tally(ids[..|ids| - 1], x) + if ids[|ids| - 1] == x then 1 else 0
  }

  lemma {:induction false} TallyIsCount(ids: seq<Id>, x: Id)
    ensures Tally(ids, x) == multiset(ids)[x]
    decreases |ids|
  {
    if ids != [] {
      TallyIsCount(ids[..|ids| - 1], x);
      assert ids == ids[..|ids| - 1] + [ids[|ids| - 1]];
    }
  }

  lemma TallyAppend(a: seq<Id>, b: seq<Id>, x: Id)
    ensures Tally(a + b, x) == Tally(a, x) + Tally(b, x)
  {
    TallyIsCount(a, x);
    TallyIsCount(b, x);
    TallyIsCount(a + b, x);
  }

  lemma SameTally(a: seq<Id>, b: seq<Id>)
    requires forall x :: Tally(a, x) == Tally(b, x)
    ensures multiset(a) == multiset(b)
  {
    forall x: Id
      ensures multiset(a)[x] == multiset(b)[x]
    {
      TallyIsCount(a, x);
      TallyIsCount(b, x);
    }
  }
}
