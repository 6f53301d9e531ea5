/** A task's action count is the sum over its runs, in every reachable state. */
module Budgets {
  import opened Types
  import opened Rows
  import opened Transactions
  import opened Invariants
  import opened Insertions
  import opened Reachability
  import opened Stopping
  import opened Sweeping
  import opened Reachable
  import opened Lifecycle

  ghost function Total(runs: Runs, ids: set<RunId>): nat
    requires ids <= runs.Keys
  {
    if ids == {} then 0 else
    var r :| r in ids;
    runs[r].spent + Total(runs, ids - {r})
  }

  function RunsOf(runs: Runs, k: TaskId): set<RunId> {
    set r | r in runs && runs[r].task == k
  }

  lemma {:induction false} TotalTake(runs: Runs, ids: set<RunId>, r: RunId)
    requires ids <= runs.Keys && r in ids
    ensures Total(runs, ids) == runs[r].spent + Total(runs, ids - {r})
  {
    var q :| q in ids && Total(runs, ids) == runs[q].spent + Total(runs, ids - {q});
    if q != r {
      TotalTake(runs, ids - {q}, r);
      TotalTake(runs, ids - {r}, q);
      assert ids - {q} - {r} == ids - {r} - {q};
    }
  }

  lemma {:induction false} TotalSame(runs: Runs, after: Runs, ids: set<RunId>)
    requires ids <= runs.Keys && ids <= after.Keys && forall r :: r in ids ==> runs[r].spent == after[r].spent
    ensures Total(runs, ids) == Total(after, ids)
  {
    if ids != {} {
      var r :| r in ids;
      TotalTake(runs, ids, r);
      TotalTake(after, ids, r);
      TotalSame(runs, after, ids - {r});
    }
  }

  ghost predicate Conserved(t: Tables) {
    forall k | k in t.tasks :: t.tasks[k].spent == Total(t.runs, RunsOf(t.runs, k))
  }

  lemma QuietConserves(t: Tables, u: Tables)
    requires Conserved(t) && Quiet(t, u)
    ensures Conserved(u)
  {
    hide Evolves;
    forall k | k in u.tasks ensures u.tasks[k].spent == Total(u.runs, RunsOf(u.runs, k)) {
      assert RunsOf(u.runs, k) == RunsOf(t.runs, k);
      TotalSame(t.runs, u.runs, RunsOf(t.runs, k));
    }
  }

  lemma CountConserves(t: Tables, r: RunId, task: TaskId)
    requires Conserved(t) && r in t.runs && t.runs[r].task == task
    ensures Conserved(CountAction(t, r, task))
  {
    var u := CountAction(t, r, task);
    forall k | k in u.tasks ensures u.tasks[k].spent == Total(u.runs, RunsOf(u.runs, k)) {
      var ids := RunsOf(t.runs, k);
      assert RunsOf(u.runs, k) == ids;
      if k == task {
        TotalTake(t.runs, ids, r);
        TotalTake(u.runs, ids, r);
        TotalSame(t.runs, u.runs, ids - {r});
      } else {
        TotalSame(t.runs, u.runs, ids);
      }
    }
  }

  /** A new run has spent nothing. */
  lemma AddTotal(runs: Runs, r: RunId, row: Run, k: TaskId)
    requires r !in runs && row.spent == 0
    ensures Total(runs[r := row], RunsOf(runs[r := row], k)) == Total(runs, RunsOf(runs, k))
  {
    var after := runs[r := row];
    if k == row.task {
      assert RunsOf(after, k) - {r} == RunsOf(runs, k);
      TotalTake(after, RunsOf(after, k), r);
    } else {
      assert RunsOf(after, k) == RunsOf(runs, k);
    }
    TotalSame(runs, after, RunsOf(runs, k));
  }

  lemma InsertHandoffConserves(t: Tables, ids: Ids, source: RunId, now: int)
    requires Conserved(t) && source in t.runs && ids.run !in t.runs
    ensures Conserved(InsertHandoff(t, ids, source, now))
  {
    var u := InsertHandoff(t, ids, source, now);
    forall k | k in u.tasks ensures u.tasks[k].spent == Total(u.runs, RunsOf(u.runs, k)) {
      AddTotal(t.runs, ids.run, u.runs[ids.run], k);
    }
  }

  lemma InsertTaskConserves(t: Tables, ids: Ids, session: SessionId, bot: Bot, provider: Provider, now: int)
    requires Conserved(t) && RunsLinked(t.tasks, t.runs) && FreshIds(t, ids)
    ensures Conserved(InsertTask(t, ids, session, bot, provider, now))
  {
    var u := InsertTask(t, ids, session, bot, provider, now);
    forall k | k in u.tasks ensures u.tasks[k].spent == Total(u.runs, RunsOf(u.runs, k)) {
      AddTotal(t.runs, ids.run, u.runs[ids.run], k);
      if k == ids.task {
        assert RunsOf(t.runs, k) == {};
      }
    }
  }

  /** Two runs of at most twenty actions each: the task's own cap of forty refuses nothing the runs allow. */
  lemma TaskWithinCap(t: Tables, k: TaskId)
    requires Inv(t) && Conserved(t) && k in t.tasks
    ensures t.tasks[k].spent <= MAX_ACTIONS_PER_TASK
    ensures |RunsOf(t.runs, k)| <= 2
    ensures forall r :: r in t.runs && t.runs[r].task == k && t.runs[r].spent < t.runs[r].budget ==>
      t.tasks[k].spent < MAX_ACTIONS_PER_TASK
  {
    hide RunsLinked, ApprovalsLinked, ActionsLinked, Owned, Drafted, Authored, Admitted, Gated, Bounded, Delivered,
      Barred;
    var ids := RunsOf(t.runs, k);
    AtMostTwo(t, k);
    CapTotal(t.runs, ids);
    forall r | r in ids && t.runs[r].spent < t.runs[r].budget ensures t.tasks[k].spent < MAX_ACTIONS_PER_TASK {
      TotalTake(t.runs, ids, r);
      CapTotal(t.runs, ids - {r});
    }
  }

  lemma {:induction false} CapTotal(runs: Runs, ids: set<RunId>)
    requires Budgeted(runs) && ids <= runs.Keys
    ensures Total(runs, ids) <= |ids| * MAX_ACTIONS_PER_RUN
  {
    if ids != {} {
      var r :| r in ids;
      TotalTake(runs, ids, r);
      CapTotal(runs, ids - {r});
    }
  }

  lemma AtMostTwo(t: Tables, k: TaskId)
    requires HandoffsLinked(t.runs, t.flow.handoffs)
    ensures |RunsOf(t.runs, k)| <= 2
  {
    var ids := RunsOf(t.runs, k);
    var first := set r | r in ids && r !in t.flow.handoffs;
    var second := set r | r in ids && r in t.flow.handoffs;
    assert forall r :: r in second ==> SourceOf(t.runs, t.flow.handoffs, r, t.flow.handoffs[r]);
    assert ids == first + second;
    AtMostOne(first);
    AtMostOne(second);
  }

  lemma AtMostOne(ids: set<RunId>)
    requires forall r, q :: r in ids && q in ids ==> r == q
    ensures |ids| <= 1
  {
    if ids != {} {
      var r :| r in ids;
      assert ids == {r};
    }
  }
}
