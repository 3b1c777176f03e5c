/** analyses.go: the free-analysis quota and the claim, as atomic database steps. */
module Analyses {

  datatype Status = PendingPayment | Processing | Ready | Failed

  /** A row of video_analyses: whose it is, whether it was created at no charge, and the vendor's id once submitted. */
  datatype Row = Row(user: nat, comped: bool, status: Status, vid: string)

  type Table = map<nat, Row>

  // ---- What each database statement does to the table.

  /** The comped rows of a user that are not failed right now. */
  function CompedRows(t: Table, user: nat): set<nat> {
    set id | id in t && t[id].user == user && t[id].comped && !t[id].status.Failed?
  }

  predicate Claimable(t: Table, id: nat) {
    id in t && t[id].status.PendingPayment?
  }

  function WithStatus(t: Table, id: nat, status: Status): Table {
    if id in t then t[id := t[id].(status := status)] else t
  }

  function WithVideo(t: Table, id: nat, vid: string): Table {
    if id in t then t[id := t[id].(status := Processing, vid := vid)] else t
  }

  /** The table behind the service; row ids are never handed out twice. */
  class Store {
    var rows: Table
    var issued: nat

    ghost predicate Valid()
      reads this
    {
      forall id | id in rows :: id < issued
    }

    constructor ()
      ensures Valid() && rows == map[] && issued == 0
    {
      rows, issued := map[], 0;
    }

    method CompedAnalysisCount(user: nat) returns (n: nat)
      ensures n == |CompedRows(rows, user)|
    {
      n := 0;
      var left := rows.Keys;
      ghost var counted: set<nat> := {};
      while left != {}
        invariant left <= rows.Keys && counted == set id | id in CompedRows(rows, user) && id !in left
        invariant n == |counted|
        decreases |left|
      {
        var id :| id in left;
        if rows[id].user == user && rows[id].comped && !rows[id].status.Failed? {
          n := n + 1;
          counted := counted + {id};
        }
        left := left - {id};
      }
      assert counted == CompedRows(rows, user);
    }

    method Insert(user: nat, comped: bool) returns (id: nat)
      requires Valid()
      modifies this
      ensures Valid() && id == old(issued) && issued == old(issued) + 1
      ensures rows == old(rows)[id := Row(user, comped, PendingPayment, "")]
    {
      id := issued;
      rows, issued := rows[id := Row(user, comped, PendingPayment, "")], issued + 1;
    }

    method Delete(id: nat)
      requires Valid()
      modifies this`rows
      ensures Valid() && rows == old(rows) - {id}
    {
      rows := rows - {id};
    }

    /** The conditional update: it changes the row only while it awaits payment, and says whether it did. */
    method Claim(id: nat) returns (won: bool)
      requires Valid()
      modifies this`rows
      ensures Valid() && won == Claimable(old(rows), id)
      ensures rows == if won then WithStatus(old(rows), id, Processing) else old(rows)
    {
      won := id in rows && rows[id].status == PendingPayment;
      if won {
        rows := rows[id := rows[id].(status := Processing)];
      }
    }

    method SaveVideo(id: nat, vid: string)
      requires Valid()
      modifies this`rows
      ensures Valid() && rows == WithVideo(old(rows), id, vid)
    {
      if id in rows {
        rows := rows[id := rows[id].(status := Processing, vid := vid)];
      }
    }

    /** failAnalysis, and the completion webhook's update: unconditional. */
    method SetStatus(id: nat, status: Status)
      requires Valid()
      modifies this`rows
      ensures Valid() && rows == WithStatus(old(rows), id, status)
    {
      if id in rows {
        rows := rows[id := rows[id].(status := status)];
      }
    }
  }

  datatype Checkout = Comped(id: nat) | Payable(id: nat) | OverAllowance | Errored

  /** Which statements of a claim go through: an update that errors changes nothing. */
  datatype MarkWorks = MarkWorks(claim: bool, save: bool, fail: bool)

  /** Which statements of a checkout go through, and whether its request and the gateway are in order. */
  datatype CheckoutWorks = CheckoutWorks(count: bool, gateway: bool, request: bool, insert: bool, charge: bool,
                                         recount: bool, delete: bool, mark: MarkWorks)

  /** The table after a claim, in every case. */
  function AfterMark(t: Table, id: nat, configured: bool, accepted: bool, vid: string, works: MarkWorks): Table {
    if !works.claim || !Claimable(t, id) then t
    else if configured && accepted && works.save then WithVideo(t, id, vid)
    else if !(configured && accepted) && works.fail then WithStatus(t, id, Failed)
    else WithStatus(t, id, Processing)
  }

  /** A payment reported again changes nothing, whatever fails the second time: the row no longer awaits it. */
  lemma RedeliveryIsHarmless(t: Table, id: nat, configured: bool, accepted: bool, vid: string, works: MarkWorks,
                             configured2: bool, accepted2: bool, vid2: string, works2: MarkWorks)
    requires works.claim
    ensures var once := AfterMark(t, id, configured, accepted, vid, works);
            AfterMark(once, id, configured2, accepted2, vid2, works2) == once
  {
  }

  /** What a first report makes of a row that awaits payment, when no statement fails: its video is on the way and
      recorded, or could not be sent and the row has failed. Nothing else about the row changes, and no other row. */
  lemma FirstDelivery(t: Table, id: nat, configured: bool, accepted: bool, vid: string)
    requires id in t && t[id].status == PendingPayment
    ensures
      var after := AfterMark(t, id, configured, accepted, vid, MarkWorks(true, true, true));
      after == t[id := Row(t[id].user, t[id].comped, if configured && accepted then Processing else Failed,
                           if configured && accepted then vid else t[id].vid)]
  {
  }

  /** markAnalysisPaid and StartAnalysisCheckout from start to finish. */
  class Service {
    const store: Store

    constructor (store: Store)
      ensures this.store == store
    {
      this.store := store;
    }

    /** failAnalysis: best effort. */
    method FailAnalysis(id: nat, works: bool)
      requires store.Valid()
      modifies store`rows
      ensures store.Valid() && store.rows == if works then WithStatus(old(store.rows), id, Failed) else old(store.rows)
    {
      if works {
        store.SetStatus(id, Failed);
      }
    }

    /** `sent` says whether the video went to the vendor, `ok` whether the caller sees no error. */
    method MarkAnalysisPaid(id: nat, configured: bool, accepted: bool, vid: string, works: MarkWorks)
      returns (sent: bool, ok: bool)
      requires store.Valid()
      modifies store`rows
      ensures store.Valid() && sent == (works.claim && Claimable(old(store.rows), id) && configured)
      ensures ok == (works.claim && (sent && accepted ==> works.save))
      ensures store.rows == AfterMark(old(store.rows), id, configured, accepted, vid, works)
    {
      if !works.claim {
        return false, false;
      }
      var claimed := store.Claim(id);
      if !claimed {
        return false, true;
      }
      if !configured {
        FailAnalysis(id, works.fail);
        return false, true;
      }
      if !accepted {
        FailAnalysis(id, works.fail);
        return true, true;
      }
      if works.save {
        store.SaveVideo(id, vid);
      }
      return true, works.save;
    }

    /** Free rows other requests of the same user slip in. */
    method SlipIn(user: nat, rivals: nat)
      requires store.Valid()
      modifies store
      ensures store.Valid() && store.issued == old(store.issued) + rivals
      ensures store.rows == WithRivals(old(store.rows), old(store.issued), user, rivals)
    {
      for i := 0 to rivals
        invariant store.Valid() && store.issued == old(store.issued) + i
        invariant store.rows == WithRivals(old(store.rows), old(store.issued), user, i)
      {
        var _ := store.Insert(user, true);
      }
    }

    /**
     * A request racing others of the same user: `rivals` insert between its count and its own insert, `later` between
     * its insert and its recount. It is free when the quota was not used up at the count and still holds all of them at
     * the recount, and voided when it no longer does; any statement may fail.
     */
    method StartAnalysisCheckout(user: nat, allowance: int, rivals: nat, later: nat, configured: bool, accepted: bool,
                                 vid: string, works: CheckoutWorks)
      returns (r: Checkout)
      requires store.Valid()
      modifies store
      ensures store.Valid()
      ensures r == Verdict(old(store.rows), old(store.issued), user, allowance, rivals, later, configured, accepted, works)
      ensures store.rows
        == TableAfter(old(store.rows), old(store.issued), user, allowance, rivals, later, configured, accepted, vid, works)
    {
      var comp := allowance < 0;
      if !comp && allowance > 0 {
        if !works.count {
          return Errored;
        }
        var used := store.CompedAnalysisCount(user);
        comp := used < allowance;
      }
      if (!comp && !works.gateway) || !works.request {
        return Errored;
      }
      SlipIn(user, rivals);
      if !works.insert {
        return Errored;
      }
      var id := store.Insert(user, comp);
      SlipIn(user, later);
      if !comp {
        return if works.charge then Payable(id) else Errored;
      }
      RivalsAround(old(store.rows), old(store.issued), user, rivals, later);
      if allowance > 0 {
        if !works.recount {
          return Errored;
        }
        var used := store.CompedAnalysisCount(user);
        RivalsCount(old(store.rows), old(store.issued), user, rivals + 1 + later);
        if used > allowance {
          if works.delete {
            store.Delete(id);
          }
          return OverAllowance;
        }
      }
      OwnRow(old(store.rows), old(store.issued), user, comp, rivals, later);
      var sent, ok := MarkAnalysisPaid(id, configured, accepted, vid, works.mark);
      return if ok then Comped(id) else Errored;
    }
  }

  /** Is a request free at its count? */
  function FreeAtCount(t: Table, user: nat, allowance: int): bool {
    allowance < 0 || |CompedRows(t, user)| < allowance
  }

  /** A request that ends before it inserts anything. */
  predicate Refused(t: Table, user: nat, allowance: int, works: CheckoutWorks) {
    || (allowance > 0 && !works.count)
    || (!FreeAtCount(t, user, allowance) && !works.gateway)
    || !works.request
  }

  /** The requests inserted by the recount, this one among them, are more than the quota has left. */
  predicate PastQuota(t: Table, user: nat, allowance: int, rivals: nat, later: nat) {
    allowance > 0 && |CompedRows(t, user)| + rivals + 1 + later > allowance
  }

  /** What the caller is told. */
  function Verdict(t: Table, issued: nat, user: nat, allowance: int, rivals: nat, later: nat,
                   configured: bool, accepted: bool, works: CheckoutWorks): Checkout
  {
    var id := issued + rivals;
    if Refused(t, user, allowance, works) || !works.insert then Errored
    else if !FreeAtCount(t, user, allowance) then if works.charge then Payable(id) else Errored
    else if allowance > 0 && !works.recount then Errored
    else if PastQuota(t, user, allowance, rivals, later) then OverAllowance
    else if works.mark.claim && (configured && accepted ==> works.mark.save) then Comped(id)
    else Errored
  }

  /** The table with this request's row and all its rivals'. */
  function Crowd(t: Table, issued: nat, user: nat, comp: bool, rivals: nat, later: nat): Table {
    WithRivals(WithRivals(t, issued, user, rivals)[issued + rivals := Row(user, comp, PendingPayment, "")],
               issued + rivals + 1, user, later)
  }

  /** The table the request leaves behind. */
  function TableAfter(t: Table, issued: nat, user: nat, allowance: int, rivals: nat, later: nat,
                      configured: bool, accepted: bool, vid: string, works: CheckoutWorks): Table
  {
    var id, comp := issued + rivals, FreeAtCount(t, user, allowance);
    var all := Crowd(t, issued, user, comp, rivals, later);
    if Refused(t, user, allowance, works) then t
    else if !works.insert then WithRivals(t, issued, user, rivals)
    else if !comp || (allowance > 0 && !works.recount) then all
    else if PastQuota(t, user, allowance, rivals, later) then if works.delete then all - {id} else all
    else AfterMark(all, id, configured, accepted, vid, works.mark)
  }

  /** A free request counts like any of its rivals. */
  lemma {:induction false} RivalsAround(t: Table, issued: nat, user: nat, rivals: nat, later: nat)
    ensures Crowd(t, issued, user, true, rivals, later) == WithRivals(t, issued, user, rivals + 1 + later)
    decreases later
  {
    if later > 0 {
      RivalsAround(t, issued, user, rivals, later - 1);
    }
  }

  /** Rivals leave the request's own row alone: it still awaits its claim. */
  lemma {:induction false} OwnRow(t: Table, issued: nat, user: nat, comp: bool, rivals: nat, later: nat)
    ensures Claimable(Crowd(t, issued, user, comp, rivals, later), issued + rivals)
    decreases later
  {
    if later > 0 {
      OwnRow(t, issued, user, comp, rivals, later - 1);
    }
  }

  function WithRivals(t: Table, issued: nat, user: nat, n: nat): Table {
    if n == 0 then t else WithRivals(t, issued, user, n - 1)[issued + n - 1 := Row(user, true, PendingPayment, "")]
  }

  lemma {:induction false} RivalsBelow(t: Table, issued: nat, user: nat, n: nat)
    requires forall id | id in t :: id < issued
    ensures forall id | id in WithRivals(t, issued, user, n) :: id < issued + n
    decreases n
  {
    if n > 0 {
      RivalsBelow(t, issued, user, n - 1);
    }
  }

  lemma OneMoreRow(t: Table, id: nat, user: nat)
    requires id !in t
    ensures |CompedRows(t[id := Row(user, true, PendingPayment, "")], user)| == |CompedRows(t, user)| + 1
  {
    assert CompedRows(t[id := Row(user, true, PendingPayment, "")], user) == CompedRows(t, user) + {id};
  }

  /** Every free row slipped in counts against the quota. */
  lemma {:induction false} RivalsCount(t: Table, issued: nat, user: nat, n: nat)
    requires forall id | id in t :: id < issued
    ensures |CompedRows(WithRivals(t, issued, user, n), user)| == |CompedRows(t, user)| + n
    decreases n
  {
    if n > 0 {
      RivalsCount(t, issued, user, n - 1);
      RivalsBelow(t, issued, user, n - 1);
      OneMoreRow(WithRivals(t, issued, user, n - 1), issued + n - 1, user);
    }
  }

  const ALL_WORK := CheckoutWorks(true, true, true, true, true, true, true, MarkWorks(true, true, true))

  /** The free analyses of a user that count: created at no charge, and not failed now. */
  function Used(t: Table, user: nat): nat {
    |set id | id in t && t[id].user == user && t[id].comped && t[id].status != Failed|
  }

  /** A request nobody races, with everything in order, is served free exactly when its user has unlimited analyses or
      has used fewer than the quota, and its video is on the way; otherwise a row waits for its payment. */
  lemma LoneRequest(t: Table, issued: nat, user: nat, allowance: int, vid: string)
    requires forall id | id in t :: id < issued
    ensures
      var free := allowance < 0 || Used(t, user) < allowance;
      && Verdict(t, issued, user, allowance, 0, 0, true, true, ALL_WORK)
         == (if free then Comped(issued) else Payable(issued))
      && TableAfter(t, issued, user, allowance, 0, 0, true, true, vid, ALL_WORK)
         == t[issued := if free then Row(user, true, Processing, vid) else Row(user, false, PendingPayment, "")]
  {
    assert CompedRows(t, user) == set id | id in t && t[id].user == user && t[id].comped && t[id].status != Failed;
    assert WithRivals(t, issued, user, 0) == t;
    var comp := FreeAtCount(t, user, allowance);
    assert Crowd(t, issued, user, comp, 0, 0) == t[issued := Row(user, comp, PendingPayment, "")];
  }

  /** A request that raced others past a quota is told so and leaves no row: with `rivals` inserted before its row and
      `later` after it, that happens exactly when all of them no longer fit. */
  lemma RacedRequest(t: Table, issued: nat, user: nat, allowance: int, rivals: nat, later: nat, vid: string)
    requires (forall id | id in t :: id < issued) && Used(t, user) < allowance
    ensures
      var fits := Used(t, user) + rivals + 1 + later <= allowance;
      var after := TableAfter(t, issued, user, allowance, rivals, later, true, true, vid, ALL_WORK);
      && Verdict(t, issued, user, allowance, rivals, later, true, true, ALL_WORK)
         == (if fits then Comped(issued + rivals) else OverAllowance)
      && (issued + rivals in after <==> fits)
      && (fits ==> after[issued + rivals] == Row(user, true, Processing, vid))
  {
    assert CompedRows(t, user) == set id | id in t && t[id].user == user && t[id].comped && t[id].status != Failed;
    OwnRowIs(t, issued, user, true, rivals, later);
  }

  lemma {:induction false} OwnRowIs(t: Table, issued: nat, user: nat, comp: bool, rivals: nat, later: nat)
    ensures issued + rivals in Crowd(t, issued, user, comp, rivals, later)
    ensures Crowd(t, issued, user, comp, rivals, later)[issued + rivals] == Row(user, comp, PendingPayment, "")
    decreases later
  {
    if later > 0 {
      OwnRowIs(t, issued, user, comp, rivals, later - 1);
    }
  }

  // ---- Requests and webhooks, as programs that take one statement at a time.

  datatype Task =
    | Counting(user: nat)
    | Inserting(user: nat, comped: bool)
    | Recounting(user: nat, id: nat)
    | Deleting(id: nat)
    | Marking(id: nat)
    | Submitting(id: nat)
    | Saving(id: nat, vid: string)
    | Failing(id: nat)
    | Correlating(vid: string, good: bool)
    | Completing(id: nat, good: bool)
    | Finished

  /** How a statement, or the call to the vendor, turns out. */
  datatype Outcome = Fine | Broken | Unconfigured

  /**
   * The table, every program in flight, and what has happened so far: which rows passed the recount,
   * which rows were ever marked failed, and every submission made to the vendor.
   */
  datatype System = System(table: Table, issued: nat, tasks: seq<Task>,
                           granted: set<nat>, everFailed: set<nat>, submitted: seq<nat>)

  datatype Step =
    | Ask(user: nat)
    | Deliver(id: nat)
    | Callback(vid: string, good: bool)
    | Run(task: nat, outcome: Outcome, vid: string, pick: nat)

  /** Free analyses per user: below zero is unlimited, zero or absent means each one is paid. */
  type Allowances = map<nat, int>

  function Allowance(free: Allowances, user: nat): int {
    if user in free then free[user] else 0
  }

  const START := System(map[], 0, [], {}, {}, [])

  function Spawn(s: System, t: Task): System {
    s.(tasks := s.tasks + [t])
  }

  function Goto(s: System, k: nat, t: Task): System
    requires k < |s.tasks|
  {
    s.(tasks := s.tasks[k := t])
  }

  function Marked(s: System, id: nat, status: Status): System {
    s.(table := WithStatus(s.table, id, status),
       everFailed := if status.Failed? then s.everFailed + {id} else s.everFailed)
  }

  /** StartAnalysisCheckout and its statements. */
  function CheckoutStep(free: Allowances, s: System, k: nat, fine: bool): System
    requires k < |s.tasks|
  {
    match s.tasks[k]
    case Counting(user) =>
      var n := Allowance(free, user);
      if n <= 0 then Goto(s, k, Inserting(user, n < 0))
      else if !fine then Goto(s, k, Finished)
      else Goto(s, k, Inserting(user, |CompedRows(s.table, user)| < n))
    case Inserting(user, comped) =>
      if !fine then Goto(s, k, Finished)
      else
        var t := s.(table := s.table[s.issued := Row(user, comped, PendingPayment, "")], issued := s.issued + 1);
        if !comped then Goto(t, k, Finished)
        else if Allowance(free, user) > 0 then Goto(t, k, Recounting(user, s.issued))
        else Goto(t, k, Marking(s.issued))
    case Recounting(user, id) =>
      if !fine then Goto(s, k, Finished)
      else if |CompedRows(s.table, user)| > Allowance(free, user) then Goto(s, k, Deleting(id))
      else Goto(s.(granted := s.granted + {id}), k, Marking(id))
    case Deleting(id) =>
      Goto(if fine then s.(table := s.table - {id}) else s, k, Finished)
    case _ => s
  }

  /** markAnalysisPaid, failAnalysis and the completion webhook. */
  function MarkStep(s: System, k: nat, outcome: Outcome, vid: string, pick: nat): System
    requires k < |s.tasks|
  {
    match s.tasks[k]
    case Marking(id) =>
      if outcome.Fine? && Claimable(s.table, id) then Goto(Marked(s, id, Processing), k, Submitting(id))
      else Goto(s, k, Finished)
    case Submitting(id) =>
      if outcome.Unconfigured? then Goto(s, k, Failing(id))
      else
        var t := s.(submitted := s.submitted + [id]);
        if outcome.Fine? then Goto(t, k, Saving(id, vid)) else Goto(t, k, Failing(id))
    case Saving(id, v) =>
      Goto(if outcome.Fine? then s.(table := WithVideo(s.table, id, v)) else s, k, Finished)
    case Failing(id) =>
      Goto(if outcome.Fine? then Marked(s, id, Failed) else s, k, Finished)
    case Correlating(v, good) =>
      if outcome.Fine? && pick in s.table && s.table[pick].vid == v then Goto(s, k, Completing(pick, good))
      else Goto(s, k, Finished)
    case Completing(id, good) =>
      Goto(if outcome.Fine? then Marked(s, id, if good then Ready else Failed) else s, k, Finished)
    case _ => s
  }

  predicate InCheckout(t: Task) {
    t.Counting? || t.Inserting? || t.Recounting? || t.Deleting?
  }

  function RunTask(free: Allowances, s: System, k: nat, outcome: Outcome, vid: string, pick: nat): System
    requires k < |s.tasks|
  {
    if InCheckout(s.tasks[k]) then CheckoutStep(free, s, k, outcome.Fine?) else MarkStep(s, k, outcome, vid, pick)
  }

  function After(free: Allowances, s: System, step: Step): System {
    match step
    case Ask(user) => Spawn(s, Counting(user))
    case Deliver(id) => Spawn(s, Marking(id))
    case Callback(vid, good) => if vid == "" then s else Spawn(s, Correlating(vid, good))
    case Run(k, outcome, vid, pick) => if k < |s.tasks| then RunTask(free, s, k, outcome, vid, pick) else s
  }

  /** Any interleaving, from an empty table. */
  function Reached(free: Allowances, steps: seq<Step>): System {
    if steps == [] then START
    else After(free, Reached(free, steps[..|steps| - 1]), steps[|steps| - 1])
  }
}
