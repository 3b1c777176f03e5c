/** analyses.go: what holds in every interleaving of requests, redelivered payments and completion webhooks. */
module AnalysisRuns {
  import opened Analyses

  // ---- The invariant, program by program and row by row.

  /** Not in the table, or claimed and not yet carrying a vendor id. */
  ghost predicate InHand(s: System, id: nat) {
    id < s.issued && (id in s.table ==> s.table[id].status.Processing? && s.table[id].vid == "")
  }

  ghost predicate TaskOK(s: System, t: Task) {
    match t
    case Recounting(user, id) =>
      id in s.table && s.table[id].user == user && s.table[id].comped && id !in s.granted
    case Deleting(id) => id < s.issued && id !in s.granted
    case Submitting(id) => InHand(s, id) && id !in s.submitted
    case Saving(id, vid) => InHand(s, id)
    case Failing(id) => InHand(s, id)
    case Correlating(vid, good) => vid != ""
    case Completing(id, good) => id < s.issued && (id in s.table ==> s.table[id].vid != "")
    case _ => true
  }

  /** The row a request is still deciding about. */
  ghost predicate Decides(t: Task, id: nat) {
    (t.Recounting? && t.id == id) || (t.Deleting? && t.id == id)
  }

  /** The row a caller has claimed and not finished with. */
  ghost predicate Holds(t: Task, id: nat) {
    (t.Submitting? && t.id == id) || (t.Saving? && t.id == id) || (t.Failing? && t.id == id)
  }

  ghost predicate Apart(t: Task, u: Task) {
    forall id: nat :: !(Decides(t, id) && Decides(u, id)) && !(Holds(t, id) && Holds(u, id))
  }

  ghost predicate RowOK(s: System, id: nat)
    requires id in s.table
  {
    var row := s.table[id];
    && id < s.issued
    && (row.status.PendingPayment? ==> id !in s.submitted && row.vid == "")
    && (row.status.Failed? ==> id in s.everFailed)
  }

  /** Rows that passed the recount for a user and were never marked failed. */
  ghost function Kept(s: System, user: nat): set<nat> {
    set id | id in s.granted && id !in s.everFailed && id in s.table && s.table[id].user == user
  }

  ghost predicate QuotaOK(free: Allowances, s: System) {
    forall user: nat | Allowance(free, user) > 0 :: |Kept(s, user)| <= Allowance(free, user)
  }

  ghost predicate OnceEach(ids: seq<nat>) {
    forall i, j | 0 <= i < j < |ids| :: ids[i] != ids[j]
  }

  ghost predicate Inv(free: Allowances, s: System) {
    && (forall k | 0 <= k < |s.tasks| :: TaskOK(s, s.tasks[k]))
    && (forall j, k | 0 <= j < k < |s.tasks| :: Apart(s.tasks[j], s.tasks[k]))
    && (forall id | id in s.table :: RowOK(s, id))
    && (forall id | id in s.granted :: id in s.table && s.table[id].comped)
    && (forall id | id in s.submitted :: id < s.issued)
    && OnceEach(s.submitted)
    && QuotaOK(free, s)
  }

  // ---- Steps that change one program only.

  lemma SameSets(a: set<nat>, b: set<nat>)
    requires a <= b
    ensures |a| <= |b|
  {
    assert b == a + (b - a);
  }

  /** A new program, or a program moved on, with the table and history as they were. */
  lemma ProgramKeeps(free: Allowances, s: System, k: nat, t: Task)
    requires Inv(free, s) && k < |s.tasks| && TaskOK(s, t)
    requires forall id: nat :: Decides(t, id) ==> Decides(s.tasks[k], id)
    requires forall id: nat :: Holds(t, id) ==> Holds(s.tasks[k], id)
    ensures Inv(free, Goto(s, k, t))
  {
    var g := Goto(s, k, t);
    assert forall user: nat :: Kept(g, user) == Kept(s, user);
    forall j, l | 0 <= j < l < |g.tasks|
      ensures Apart(g.tasks[j], g.tasks[l])
    {
      assert Apart(s.tasks[j], s.tasks[l]);
    }
  }

  lemma SpawnKeeps(free: Allowances, s: System, t: Task)
    requires Inv(free, s) && TaskOK(s, t) && forall id: nat :: !Decides(t, id) && !Holds(t, id)
    ensures Inv(free, Spawn(s, t))
  {
    var g := Spawn(s, t);
    assert forall user: nat :: Kept(g, user) == Kept(s, user);
    forall j, l | 0 <= j < l < |g.tasks|
      ensures Apart(g.tasks[j], g.tasks[l])
    {
      assert l < |s.tasks| ==> Apart(s.tasks[j], s.tasks[l]);
    }
  }

  // ---- Steps that touch the table.

  lemma InsertKeeps(free: Allowances, s: System, k: nat, user: nat, comped: bool, t: Task)
    requires Inv(free, s) && k < |s.tasks| && s.tasks[k] == Inserting(user, comped)
    requires t == Finished || t == Marking(s.issued) || (comped && t == Recounting(user, s.issued))
    ensures
      Inv(free, Goto(s.(table := s.table[s.issued := Row(user, comped, PendingPayment, "")], issued := s.issued + 1), k, t))
  {
    var g := Goto(s.(table := s.table[s.issued := Row(user, comped, PendingPayment, "")], issued := s.issued + 1), k, t);
    forall u: nat
      ensures Kept(g, u) == Kept(s, u)
    {
    }
    forall j | 0 <= j < |g.tasks|
      ensures TaskOK(g, g.tasks[j])
    {
      assert TaskOK(s, s.tasks[j]);
    }
    forall j, l | 0 <= j < l < |g.tasks|
      ensures Apart(g.tasks[j], g.tasks[l])
    {
      assert Apart(s.tasks[j], s.tasks[l]) && TaskOK(s, s.tasks[j]) && TaskOK(s, s.tasks[l]);
    }
    forall id | id in g.table
      ensures RowOK(g, id)
    {
      assert id != s.issued ==> RowOK(s, id);
    }
  }

  lemma DeleteKeeps(free: Allowances, s: System, k: nat, id: nat)
    requires Inv(free, s) && k < |s.tasks| && s.tasks[k] == Deleting(id)
    ensures Inv(free, Goto(s.(table := s.table - {id}), k, Finished))
  {
    var g := Goto(s.(table := s.table - {id}), k, Finished);
    assert TaskOK(s, s.tasks[k]);
    forall u: nat
      ensures Kept(g, u) == Kept(s, u)
    {
    }
    forall j | 0 <= j < |g.tasks|
      ensures TaskOK(g, g.tasks[j])
    {
      assert TaskOK(s, s.tasks[j]);
      if j != k {
        assert Apart(s.tasks[if j < k then j else k], s.tasks[if j < k then k else j]);
        assert Decides(s.tasks[k], id);
      }
    }
    forall j, l | 0 <= j < l < |g.tasks|
      ensures Apart(g.tasks[j], g.tasks[l])
    {
      assert Apart(s.tasks[j], s.tasks[l]);
    }
    assert forall i | i in g.table :: RowOK(s, i) ==> RowOK(g, i);
  }

  /** The recount admits a row only when everything kept so far, and this row, fit the quota. */
  lemma RecountFits(free: Allowances, s: System, user: nat, id: nat, u: nat)
    requires Inv(free, s) && id in s.table && s.table[id].user == user && s.table[id].comped
    requires |CompedRows(s.table, user)| <= Allowance(free, user) && Allowance(free, u) > 0
    ensures |Kept(s.(granted := s.granted + {id}), u)| <= Allowance(free, u)
  {
    var g := s.(granted := s.granted + {id});
    if u == user {
      forall i | i in Kept(g, u)
        ensures i in CompedRows(s.table, u)
      {
        assert RowOK(s, i);
      }
      SameSets(Kept(g, u), CompedRows(s.table, u));
    } else {
      assert Kept(g, u) == Kept(s, u);
    }
  }

  lemma GrantKeeps(free: Allowances, s: System, k: nat, user: nat, id: nat)
    requires Inv(free, s) && k < |s.tasks| && s.tasks[k] == Recounting(user, id)
    requires |CompedRows(s.table, user)| <= Allowance(free, user)
    ensures Inv(free, Goto(s.(granted := s.granted + {id}), k, Marking(id)))
  {
    var g := Goto(s.(granted := s.granted + {id}), k, Marking(id));
    assert TaskOK(s, s.tasks[k]);
    forall u: nat | Allowance(free, u) > 0
      ensures |Kept(g, u)| <= Allowance(free, u)
    {
      RecountFits(free, s, user, id, u);
      assert Kept(g, u) == Kept(s.(granted := s.granted + {id}), u);
    }
    forall j | 0 <= j < |g.tasks|
      ensures TaskOK(g, g.tasks[j])
    {
      assert TaskOK(s, s.tasks[j]);
      if j != k {
        assert Apart(s.tasks[if j < k then j else k], s.tasks[if j < k then k else j]);
        assert Decides(s.tasks[k], id);
      }
    }
    forall j, l | 0 <= j < l < |g.tasks|
      ensures Apart(g.tasks[j], g.tasks[l])
    {
      assert Apart(s.tasks[j], s.tasks[l]);
    }
    assert forall i | i in g.table :: RowOK(s, i) ==> RowOK(g, i);
  }

  /** Any change to one row's status or vendor id that the programs in flight can live with. */
  ghost predicate RowChanged(s: System, g: System, id: nat) {
    && g.issued == s.issued && g.granted == s.granted && g.submitted == s.submitted && |g.tasks| == |s.tasks|
    && s.everFailed <= g.everFailed
    && g.table.Keys == s.table.Keys
    && (forall i | i in s.table && i != id :: g.table[i] == s.table[i])
    && (id in s.table ==> g.table[id].user == s.table[id].user && g.table[id].comped == s.table[id].comped)
  }

  lemma RowChangeKeepsQuota(free: Allowances, s: System, g: System, id: nat)
    requires Inv(free, s) && RowChanged(s, g, id)
    ensures QuotaOK(free, g)
    ensures forall i | i in g.granted :: i in g.table && g.table[i].comped
  {
    forall u: nat | Allowance(free, u) > 0
      ensures |Kept(g, u)| <= Allowance(free, u)
    {
      SameSets(Kept(g, u), Kept(s, u));
    }
  }

  lemma ClaimKeeps(free: Allowances, s: System, k: nat, id: nat)
    requires Inv(free, s) && k < |s.tasks| && s.tasks[k] == Marking(id) && Claimable(s.table, id)
    ensures Inv(free, Goto(Marked(s, id, Processing), k, Submitting(id)))
  {
    var g := Goto(Marked(s, id, Processing), k, Submitting(id));
    assert RowOK(s, id);
    RowChangeKeepsQuota(free, s, g, id);
    forall j | 0 <= j < |g.tasks|
      ensures TaskOK(g, g.tasks[j])
    {
      assert TaskOK(s, s.tasks[j]);
    }
    forall j, l | 0 <= j < l < |g.tasks|
      ensures Apart(g.tasks[j], g.tasks[l])
    {
      assert Apart(s.tasks[j], s.tasks[l]) && TaskOK(s, s.tasks[j]) && TaskOK(s, s.tasks[l]);
    }
    assert forall i | i in g.table && i != id :: RowOK(s, i) ==> RowOK(g, i);
  }

  lemma SubmitKeeps(free: Allowances, s: System, k: nat, id: nat, t: Task)
    requires Inv(free, s) && k < |s.tasks| && s.tasks[k] == Submitting(id)
    requires t.Saving? || t.Failing?
    requires t.id == id
    ensures Inv(free, Goto(s.(submitted := s.submitted + [id]), k, t))
  {
    var g := Goto(s.(submitted := s.submitted + [id]), k, t);
    assert TaskOK(s, s.tasks[k]) && Holds(s.tasks[k], id);
    assert forall user: nat :: Kept(g, user) == Kept(s, user);
    forall j | 0 <= j < |g.tasks|
      ensures TaskOK(g, g.tasks[j])
    {
      assert TaskOK(s, s.tasks[j]);
      if j != k {
        assert Apart(s.tasks[if j < k then j else k], s.tasks[if j < k then k else j]);
      }
    }
    forall j, l | 0 <= j < l < |g.tasks|
      ensures Apart(g.tasks[j], g.tasks[l])
    {
      assert Apart(s.tasks[j], s.tasks[l]);
    }
    forall i | i in g.table
      ensures RowOK(g, i)
    {
      assert RowOK(s, i);
    }
  }

  /** The holder of a row writes it and lets go. */
  lemma HolderWrites(free: Allowances, s: System, k: nat, id: nat, g: System)
    requires Inv(free, s) && k < |s.tasks| && Holds(s.tasks[k], id) && !s.tasks[k].Submitting?
    requires RowChanged(s, g, id) && g.tasks == s.tasks[k := Finished]
    requires id in s.table ==> RowOK(g, id)
    ensures Inv(free, g)
  {
    RowChangeKeepsQuota(free, s, g, id);
    assert TaskOK(s, s.tasks[k]);
    forall j | 0 <= j < |g.tasks|
      ensures TaskOK(g, g.tasks[j])
    {
      assert TaskOK(s, s.tasks[j]);
      if j != k {
        assert Apart(s.tasks[if j < k then j else k], s.tasks[if j < k then k else j]);
        assert !Holds(s.tasks[j], id);
      }
    }
    forall j, l | 0 <= j < l < |g.tasks|
      ensures Apart(g.tasks[j], g.tasks[l])
    {
      assert Apart(s.tasks[j], s.tasks[l]);
    }
    assert forall i | i in g.table && i != id :: RowOK(s, i) ==> RowOK(g, i);
  }

  /** The completion webhook writes a row nobody holds any more. */
  lemma CallbackWrites(free: Allowances, s: System, k: nat, id: nat, good: bool)
    requires Inv(free, s) && k < |s.tasks| && s.tasks[k] == Completing(id, good)
    ensures Inv(free, Goto(Marked(s, id, if good then Ready else Failed), k, Finished))
  {
    var g := Goto(Marked(s, id, if good then Ready else Failed), k, Finished);
    RowChangeKeepsQuota(free, s, g, id);
    assert TaskOK(s, s.tasks[k]);
    forall j | 0 <= j < |g.tasks|
      ensures TaskOK(g, g.tasks[j])
    {
      assert TaskOK(s, s.tasks[j]);
    }
    forall j, l | 0 <= j < l < |g.tasks|
      ensures Apart(g.tasks[j], g.tasks[l])
    {
      assert Apart(s.tasks[j], s.tasks[l]);
    }
    assert forall i | i in g.table && i != id :: RowOK(s, i) ==> RowOK(g, i);
    if id in s.table {
      assert RowOK(s, id);
    }
  }

  // ---- Every step, every run.

  lemma CountKeeps(free: Allowances, s: System, k: nat, user: nat, fine: bool)
    requires Inv(free, s) && k < |s.tasks| && s.tasks[k] == Counting(user)
    ensures Inv(free, CheckoutStep(free, s, k, fine))
  {
    var n := Allowance(free, user);
    ProgramKeeps(free, s, k, Finished);
    ProgramKeeps(free, s, k, Inserting(user, if n <= 0 then n < 0 else |CompedRows(s.table, user)| < n));
  }

  lemma AddKeeps(free: Allowances, s: System, k: nat, user: nat, comped: bool, fine: bool)
    requires Inv(free, s) && k < |s.tasks| && s.tasks[k] == Inserting(user, comped)
    ensures Inv(free, CheckoutStep(free, s, k, fine))
  {
    if !fine {
      ProgramKeeps(free, s, k, Finished);
    } else if !comped {
      InsertKeeps(free, s, k, user, comped, Finished);
    } else if Allowance(free, user) > 0 {
      InsertKeeps(free, s, k, user, comped, Recounting(user, s.issued));
    } else {
      InsertKeeps(free, s, k, user, comped, Marking(s.issued));
    }
  }

  lemma RecountKeeps(free: Allowances, s: System, k: nat, user: nat, id: nat, fine: bool)
    requires Inv(free, s) && k < |s.tasks| && s.tasks[k] == Recounting(user, id)
    ensures Inv(free, CheckoutStep(free, s, k, fine))
  {
    assert TaskOK(s, s.tasks[k]) && RowOK(s, id);
    if !fine {
      ProgramKeeps(free, s, k, Finished);
    } else if |CompedRows(s.table, user)| > Allowance(free, user) {
      ProgramKeeps(free, s, k, Deleting(id));
    } else {
      GrantKeeps(free, s, k, user, id);
    }
  }

  lemma CheckoutKeeps(free: Allowances, s: System, k: nat, fine: bool)
    requires Inv(free, s) && k < |s.tasks| && InCheckout(s.tasks[k])
    ensures Inv(free, CheckoutStep(free, s, k, fine))
  {
    match s.tasks[k]
    case Counting(user) => CountKeeps(free, s, k, user, fine);
    case Inserting(user, comped) => AddKeeps(free, s, k, user, comped, fine);
    case Recounting(user, id) => RecountKeeps(free, s, k, user, id, fine);
    case Deleting(id) =>
      if fine {
        DeleteKeeps(free, s, k, id);
      } else {
        ProgramKeeps(free, s, k, Finished);
      }
  }

  lemma MarkKeeps(free: Allowances, s: System, k: nat, outcome: Outcome, vid: string, pick: nat)
    requires Inv(free, s) && k < |s.tasks|
    ensures Inv(free, MarkStep(s, k, outcome, vid, pick))
  {
    assert TaskOK(s, s.tasks[k]);
    match s.tasks[k]
    case Marking(id) =>
      if outcome.Fine? && Claimable(s.table, id) {
        ClaimKeeps(free, s, k, id);
      } else {
        ProgramKeeps(free, s, k, Finished);
      }
    case Submitting(id) =>
      if outcome.Unconfigured? {
        ProgramKeeps(free, s, k, Failing(id));
      } else {
        SubmitKeeps(free, s, k, id, if outcome.Fine? then Saving(id, vid) else Failing(id));
      }
    case Saving(id, v) =>
      if outcome.Fine? {
        HolderWrites(free, s, k, id, Goto(s.(table := WithVideo(s.table, id, v)), k, Finished));
      } else {
        ProgramKeeps(free, s, k, Finished);
      }
    case Failing(id) =>
      if outcome.Fine? {
        HolderWrites(free, s, k, id, Goto(Marked(s, id, Failed), k, Finished));
      } else {
        ProgramKeeps(free, s, k, Finished);
      }
    case Correlating(v, good) =>
      if pick in s.table && s.table[pick].vid == v {
        assert RowOK(s, pick);
        ProgramKeeps(free, s, k, Completing(pick, good));
      }
      ProgramKeeps(free, s, k, Finished);
    case Completing(id, good) =>
      if outcome.Fine? {
        CallbackWrites(free, s, k, id, good);
      } else {
        ProgramKeeps(free, s, k, Finished);
      }
    case _ =>
  }

  lemma StepKeeps(free: Allowances, s: System, step: Step)
    requires Inv(free, s)
    ensures Inv(free, After(free, s, step))
  {
    match step
    case Ask(user) => SpawnKeeps(free, s, Counting(user));
    case Deliver(id) => SpawnKeeps(free, s, Marking(id));
    case Callback(vid, good) =>
      if vid != "" {
        SpawnKeeps(free, s, Correlating(vid, good));
      }
    case Run(k, outcome, vid, pick) =>
      if k < |s.tasks| {
        if InCheckout(s.tasks[k]) {
          CheckoutKeeps(free, s, k, outcome.Fine?);
        } else {
          MarkKeeps(free, s, k, outcome, vid, pick);
        }
      }
  }

  lemma {:induction false} EveryRunIsSound(free: Allowances, steps: seq<Step>)
    ensures Inv(free, Reached(free, steps))
    decreases |steps|
  {
    if steps == [] {
      assert forall user: nat :: Kept(START, user) == {};
    } else {
      EveryRunIsSound(free, steps[..|steps| - 1]);
      StepKeeps(free, Reached(free, steps[..|steps| - 1]), steps[|steps| - 1]);
    }
  }

  /** However requests interleave, no more rows than the quota pass the recount and never fail. */
  lemma FreeQuotaHolds(free: Allowances, steps: seq<Step>, user: nat)
    requires Allowance(free, user) > 0
    ensures |Kept(Reached(free, steps), user)| <= Allowance(free, user)
  {
    EveryRunIsSound(free, steps);
  }

  /** However often and however concurrently a payment is reported, each row goes to the vendor at most once. */
  lemma SubmittedAtMostOnce(free: Allowances, steps: seq<Step>)
    ensures OnceEach(Reached(free, steps).submitted)
  {
    EveryRunIsSound(free, steps);
  }

  // ---- Counting what is not failed right now.

  /** Rows that passed the recount and are not failed at this moment: those the code's count (`CompedRows`) is meant
      to bound. The count itself also takes in rows that have passed no recount, or were refused and not deleted. */
  ghost function GrantedNow(s: System, user: nat): set<nat> {
    set id | id in s.granted && id in CompedRows(s.table, user)
  }

  /** Does this program's next statement bring a failed row of the user back? */
  ghost predicate Revives(s: System, k: nat, outcome: Outcome, user: nat)
    requires k < |s.tasks|
  {
    && outcome.Fine? && s.tasks[k].Completing? && s.tasks[k].good
    && (var id := s.tasks[k].id;
        id in s.granted && id in s.table && s.table[id].user == user && s.table[id].status.Failed?)
  }

  /** A late good report about a granted row that had been marked failed, with the quota already full. */
  ghost predicate Overruns(free: Allowances, s: System, step: Step, user: nat) {
    && step.Run? && step.task < |s.tasks| && Revives(s, step.task, step.outcome, user)
    && |GrantedNow(s, user)| == Allowance(free, user)
  }

  lemma NoNewGrants(s: System, g: System, user: nat)
    requires GrantedNow(g, user) <= GrantedNow(s, user)
    ensures |GrantedNow(g, user)| <= |GrantedNow(s, user)|
  {
    SameSets(GrantedNow(g, user), GrantedNow(s, user));
  }

  lemma CheckoutWithin(free: Allowances, s: System, k: nat, fine: bool, user: nat)
    requires Inv(free, s) && k < |s.tasks| && Allowance(free, user) > 0
    requires |GrantedNow(s, user)| <= Allowance(free, user)
    ensures |GrantedNow(CheckoutStep(free, s, k, fine), user)| <= Allowance(free, user)
  {
    var g := CheckoutStep(free, s, k, fine);
    assert TaskOK(s, s.tasks[k]);
    if s.tasks[k].Recounting? && s.tasks[k].user == user && g.granted != s.granted {
      SameSets(GrantedNow(g, user), CompedRows(s.table, user));
    } else {
      forall id | id in GrantedNow(g, user)
        ensures id in GrantedNow(s, user)
      {
      }
      NoNewGrants(s, g, user);
    }
  }

  /** From a state within the quota, one step leaves it exactly when it is such a late report. */
  lemma WithinUnlessOverrun(free: Allowances, s: System, step: Step, user: nat)
    requires Inv(free, s) && Allowance(free, user) > 0 && |GrantedNow(s, user)| <= Allowance(free, user)
    ensures |GrantedNow(After(free, s, step), user)| <= Allowance(free, user) <==> !Overruns(free, s, step, user)
  {
    var g := After(free, s, step);
    if step.Run? && step.task < |s.tasks| {
      var t := s.tasks[step.task];
      assert TaskOK(s, t);
      if InCheckout(t) {
        CheckoutWithin(free, s, step.task, step.outcome.Fine?, user);
      } else {
        MarkWithin(free, s, step, user);
      }
    } else {
      assert GrantedNow(g, user) == GrantedNow(s, user);
    }
  }

  lemma RevivedIsOneMore(free: Allowances, s: System, k: nat, outcome: Outcome, vid: string, pick: nat, user: nat)
    requires Inv(free, s) && k < |s.tasks| && Revives(s, k, outcome, user)
    ensures |GrantedNow(MarkStep(s, k, outcome, vid, pick), user)| == |GrantedNow(s, user)| + 1
  {
    var id := s.tasks[k].id;
    assert s.table[id].comped;
    assert GrantedNow(MarkStep(s, k, outcome, vid, pick), user) == GrantedNow(s, user) + {id};
  }

  lemma OthersAddNone(free: Allowances, s: System, k: nat, outcome: Outcome, vid: string, pick: nat, user: nat)
    requires Inv(free, s) && k < |s.tasks| && !InCheckout(s.tasks[k]) && !Revives(s, k, outcome, user)
    ensures |GrantedNow(MarkStep(s, k, outcome, vid, pick), user)| <= |GrantedNow(s, user)|
  {
    var g := MarkStep(s, k, outcome, vid, pick);
    assert TaskOK(s, s.tasks[k]);
    forall id | id in GrantedNow(g, user)
      ensures id in GrantedNow(s, user)
    {
    }
    NoNewGrants(s, g, user);
  }

  lemma MarkWithin(free: Allowances, s: System, step: Step, user: nat)
    requires Inv(free, s) && step.Run? && step.task < |s.tasks| && !InCheckout(s.tasks[step.task])
    requires Allowance(free, user) > 0 && |GrantedNow(s, user)| <= Allowance(free, user)
    ensures |GrantedNow(After(free, s, step), user)| <= Allowance(free, user) <==> !Overruns(free, s, step, user)
  {
    if Revives(s, step.task, step.outcome, user) {
      RevivedIsOneMore(free, s, step.task, step.outcome, step.vid, step.pick, user);
    } else {
      OthersAddNone(free, s, step.task, step.outcome, step.vid, step.pick, user);
    }
  }

  ghost predicate NeverOverruns(free: Allowances, steps: seq<Step>, user: nat) {
    forall n | 0 <= n < |steps| :: !Overruns(free, Reached(free, steps[..n]), steps[n], user)
  }

  /** So a run that never overruns keeps the quota at every moment. */
  lemma {:induction false} QuotaAtEveryMoment(free: Allowances, steps: seq<Step>, user: nat)
    requires Allowance(free, user) > 0 && NeverOverruns(free, steps, user)
    ensures |GrantedNow(Reached(free, steps), user)| <= Allowance(free, user)
    decreases |steps|
  {
    if steps == [] {
      assert GrantedNow(START, user) == {};
    } else {
      var n := |steps| - 1;
      var before := steps[..n];
      forall m | 0 <= m < n
        ensures !Overruns(free, Reached(free, before[..m]), before[m], user)
      {
        assert before[..m] == steps[..m];
      }
      QuotaAtEveryMoment(free, before, user);
      EveryRunIsSound(free, before);
      WithinUnlessOverrun(free, Reached(free, before), steps[n], user);
    }
  }

  // ---- A run that does overrun.

  ghost predicate Reachable(free: Allowances, s: System) {
    exists steps :: Reached(free, steps) == s
  }

  lemma GoOn(free: Allowances, s: System, step: Step)
    requires Reachable(free, s)
    ensures Reachable(free, After(free, s, step))
  {
    var steps :| Reached(free, steps) == s;
    var more := steps + [step];
    assert more[..|more| - 1] == steps && more[|more| - 1] == step;
    assert Reached(free, more) == After(free, s, step);
  }

  const ONE_FREE: Allowances := map[0 := 1]

  /** One statement of a program, with nothing going wrong. */
  lemma Runs(s: System, k: nat, vid: string, pick: nat, g: System)
    requires Reachable(ONE_FREE, s) && After(ONE_FREE, s, Run(k, Fine, vid, pick)) == g
    ensures Reachable(ONE_FREE, g)
  {
    GoOn(ONE_FREE, s, Run(k, Fine, vid, pick));
  }

  const FIRST := Row(0, true, PendingPayment, "")
  const SENT := Row(0, true, Processing, "v")

  lemma FirstIsAsked()
    ensures Reachable(ONE_FREE, System(map[], 0, [Counting(0)], {}, {}, []))
  {
    assert Reached(ONE_FREE, []) == START;
    GoOn(ONE_FREE, START, Ask(0));
    assert Spawn(START, Counting(0)) == System(map[], 0, [Counting(0)], {}, {}, []);
  }

  lemma FirstIsCounted()
    ensures Reachable(ONE_FREE, System(map[], 0, [Inserting(0, true)], {}, {}, []))
  {
    FirstIsAsked();
    assert CompedRows(map[], 0) == {};
    Runs(System(map[], 0, [Counting(0)], {}, {}, []), 0, "", 0, System(map[], 0, [Inserting(0, true)], {}, {}, []));
  }

  /** The first request is counted and inserted. */
  lemma FirstIsInserted()
    ensures Reachable(ONE_FREE, System(map[0 := FIRST], 1, [Recounting(0, 0)], {}, {}, []))
  {
    FirstIsCounted();
    Runs(System(map[], 0, [Inserting(0, true)], {}, {}, []), 0, "", 0,
         System(map[0 := FIRST], 1, [Recounting(0, 0)], {}, {}, []));
  }

  /** The recount grants it. */
  lemma FirstIsGranted()
    ensures Reachable(ONE_FREE, System(map[0 := FIRST], 1, [Marking(0)], {0}, {}, []))
  {
    FirstIsInserted();
    assert CompedRows(map[0 := FIRST], 0) == {0};
    Runs(System(map[0 := FIRST], 1, [Recounting(0, 0)], {}, {}, []), 0, "", 0,
         System(map[0 := FIRST], 1, [Marking(0)], {0}, {}, []));
  }

  /** Then it is claimed, submitted and saved. */
  lemma FirstIsSent()
    ensures Reachable(ONE_FREE, System(map[0 := SENT], 1, [Finished], {0}, {}, [0]))
  {
    FirstIsGranted();
    var claimed: Table := map[0 := Row(0, true, Processing, "")];
    Runs(System(map[0 := FIRST], 1, [Marking(0)], {0}, {}, []), 0, "", 0, System(claimed, 1, [Submitting(0)], {0}, {}, []));
    Runs(System(claimed, 1, [Submitting(0)], {0}, {}, []), 0, "v", 0, System(claimed, 1, [Saving(0, "v")], {0}, {}, [0]));
    Runs(System(claimed, 1, [Saving(0, "v")], {0}, {}, [0]), 0, "", 0,
         System(map[0 := SENT], 1, [Finished], {0}, {}, [0]));
  }

  const DOWN := Row(0, true, Failed, "v")

  /** A bad report fails the first row. */
  lemma FirstIsDown()
    ensures Reachable(ONE_FREE, System(map[0 := DOWN], 1, [Finished, Finished], {0}, {0}, [0]))
  {
    FirstIsSent();
    GoOn(ONE_FREE, System(map[0 := SENT], 1, [Finished], {0}, {}, [0]), Callback("v", false));
    Runs(System(map[0 := SENT], 1, [Finished, Correlating("v", false)], {0}, {}, [0]), 1, "", 0,
         System(map[0 := SENT], 1, [Finished, Completing(0, false)], {0}, {}, [0]));
    Runs(System(map[0 := SENT], 1, [Finished, Completing(0, false)], {0}, {}, [0]), 1, "", 0,
         System(map[0 := DOWN], 1, [Finished, Finished], {0}, {0}, [0]));
  }

  /** That frees the quota for a second request. */
  lemma SecondIsInserted()
    ensures Reachable(ONE_FREE, System(map[0 := DOWN, 1 := FIRST], 2, [Finished, Finished, Recounting(0, 1)], {0}, {0}, [0]))
  {
    FirstIsDown();
    GoOn(ONE_FREE, System(map[0 := DOWN], 1, [Finished, Finished], {0}, {0}, [0]), Ask(0));
    assert CompedRows(map[0 := DOWN], 0) == {};
    Runs(System(map[0 := DOWN], 1, [Finished, Finished, Counting(0)], {0}, {0}, [0]), 2, "", 0,
         System(map[0 := DOWN], 1, [Finished, Finished, Inserting(0, true)], {0}, {0}, [0]));
    Runs(System(map[0 := DOWN], 1, [Finished, Finished, Inserting(0, true)], {0}, {0}, [0]), 2, "", 0,
         System(map[0 := DOWN, 1 := FIRST], 2, [Finished, Finished, Recounting(0, 1)], {0}, {0}, [0]));
  }

  lemma SecondIsGranted()
    ensures Reachable(ONE_FREE, System(map[0 := DOWN, 1 := FIRST], 2, [Finished, Finished, Marking(1)], {0, 1}, {0}, [0]))
  {
    SecondIsInserted();
    assert CompedRows(map[0 := DOWN, 1 := FIRST], 0) == {1};
    Runs(System(map[0 := DOWN, 1 := FIRST], 2, [Finished, Finished, Recounting(0, 1)], {0}, {0}, [0]), 2, "", 0,
         System(map[0 := DOWN, 1 := FIRST], 2, [Finished, Finished, Marking(1)], {0, 1}, {0}, [0]));
  }

  /** A late good report about the failed row then puts two free rows where the quota is one. */
  lemma LateReportOverruns()
    ensures exists steps :: |GrantedNow(Reached(ONE_FREE, steps), 0)| == 2
  {
    SecondIsGranted();
    var table: Table := map[0 := DOWN, 1 := FIRST];
    GoOn(ONE_FREE, System(table, 2, [Finished, Finished, Marking(1)], {0, 1}, {0}, [0]), Callback("v", true));
    Runs(System(table, 2, [Finished, Finished, Marking(1), Correlating("v", true)], {0, 1}, {0}, [0]), 3, "", 0,
         System(table, 2, [Finished, Finished, Marking(1), Completing(0, true)], {0, 1}, {0}, [0]));
    var both: Table := map[0 := Row(0, true, Ready, "v"), 1 := FIRST];
    var last := System(both, 2, [Finished, Finished, Marking(1), Finished], {0, 1}, {0}, [0]);
    Runs(System(table, 2, [Finished, Finished, Marking(1), Completing(0, true)], {0, 1}, {0}, [0]), 3, "", 0, last);
    assert GrantedNow(last, 0) == {0, 1};
    assert |GrantedNow(last, 0)| == 2;
    Witness(last);
  }

  lemma Witness(s: System)
    requires Reachable(ONE_FREE, s) && |GrantedNow(s, 0)| == 2
    ensures exists steps :: |GrantedNow(Reached(ONE_FREE, steps), 0)| == 2
  {
    var steps :| Reached(ONE_FREE, steps) == s;
    assert |GrantedNow(Reached(ONE_FREE, steps), 0)| == 2;
  }
}
