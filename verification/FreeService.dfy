/** analyses.go: the quota bounds from above what is given away; here, that nothing less is given. */
module FreeService {
  import opened Analyses

  /** Steps taken one after the other. */
  function AfterAll(free: Allowances, s: System, steps: seq<Step>): System
    decreases |steps|
  {
    if steps == [] then s else After(free, AfterAll(free, s, steps[..|steps| - 1]), steps[|steps| - 1])
  }

  lemma OneStep(free: Allowances, s: System, steps: seq<Step>, step: Step)
    ensures AfterAll(free, s, steps + [step]) == After(free, AfterAll(free, s, steps), step)
  {
    assert (steps + [step])[..|steps|] == steps;
  }

  /** The statements of one request, the `k`-th program, run without a break. */
  function Alone(k: nat, user: nat, vid: string, n: nat): seq<Step> {
    if n == 0 then [] else Alone(k, user, vid, n - 1) + [if n == 1 then Ask(user) else Run(k, Fine, vid, 0)]
  }

  lemma NextAlone(free: Allowances, s: System, user: nat, vid: string, n: nat)
    requires n >= 1
    ensures AfterAll(free, s, Alone(|s.tasks|, user, vid, n + 1))
         == After(free, AfterAll(free, s, Alone(|s.tasks|, user, vid, n)), Run(|s.tasks|, Fine, vid, 0))
  {
    OneStep(free, s, Alone(|s.tasks|, user, vid, n), Run(|s.tasks|, Fine, vid, 0));
  }


  lemma UsedCounts(t: Table, user: nat)
    ensures |CompedRows(t, user)| == Used(t, user)
  {
    assert CompedRows(t, user) == set id | id in t && t[id].user == user && t[id].comped && t[id].status != Failed;
  }

  lemma Asked(free: Allowances, s: System, user: nat, vid: string)
    ensures AfterAll(free, s, Alone(|s.tasks|, user, vid, 1)) == s.(tasks := s.tasks + [Counting(user)])
  {
    OneStep(free, s, [], Ask(user));
    assert Alone(|s.tasks|, user, vid, 1) == [] + [Ask(user)];
  }

  /** Asked and counted. */
  lemma Counted(free: Allowances, s: System, user: nat, vid: string)
    requires Allowance(free, user) > 0 && Used(s.table, user) < Allowance(free, user)
    ensures AfterAll(free, s, Alone(|s.tasks|, user, vid, 2)) == s.(tasks := s.tasks + [Inserting(user, true)])
  {
    Asked(free, s, user, vid);
    NextAlone(free, s, user, vid, 1);
    UsedCounts(s.table, user);
  }

  /** Inserted. */
  lemma Inserted(free: Allowances, s: System, user: nat, vid: string)
    requires Allowance(free, user) > 0 && Used(s.table, user) < Allowance(free, user)
    ensures AfterAll(free, s, Alone(|s.tasks|, user, vid, 3))
         == s.(table := s.table[s.issued := Row(user, true, PendingPayment, "")], issued := s.issued + 1,
               tasks := s.tasks + [Recounting(user, s.issued)])
  {
    Counted(free, s, user, vid);
    NextAlone(free, s, user, vid, 2);
  }

  /** Recounted, and found to fit. */
  lemma Granted(free: Allowances, s: System, user: nat, vid: string)
    requires Allowance(free, user) > 0 && Used(s.table, user) < Allowance(free, user) && s.issued !in s.table
    ensures AfterAll(free, s, Alone(|s.tasks|, user, vid, 4))
         == s.(table := s.table[s.issued := Row(user, true, PendingPayment, "")], issued := s.issued + 1,
               granted := s.granted + {s.issued}, tasks := s.tasks + [Marking(s.issued)])
  {
    Inserted(free, s, user, vid);
    NextAlone(free, s, user, vid, 3);
    OneMoreRow(s.table, s.issued, user);
    UsedCounts(s.table, user);
  }

  /** From any moment on, a user with a place left who asks, and is not raced, is granted a row, and its video is sent
      off and recorded. */
  lemma LoneRunIsServed(free: Allowances, s: System, user: nat, vid: string)
    requires Allowance(free, user) > 0 && Used(s.table, user) < Allowance(free, user) && s.issued !in s.table
    ensures AfterAll(free, s, Alone(|s.tasks|, user, vid, 7))
         == s.(table := s.table[s.issued := Row(user, true, Processing, vid)], issued := s.issued + 1,
               granted := s.granted + {s.issued}, submitted := s.submitted + [s.issued], tasks := s.tasks + [Finished])
  {
    Granted(free, s, user, vid);
    NextAlone(free, s, user, vid, 4);
    NextAlone(free, s, user, vid, 5);
    NextAlone(free, s, user, vid, 6);
  }
}
