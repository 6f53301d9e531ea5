/** Refusing a handoff, by whatever step, leaves the task with the run that proposed it, row for row. */
module Ownership {
  import opened Types
  import opened Rows
  import opened Transactions
  import opened Invariants
  import opened Insertions
  import opened Reachability
  import opened Stopping
  import opened Sweeping
  import opened Traces

  predicate Runs(t: Tables, k: TaskId, r: RunId) {
    k in t.tasks && t.tasks[k].current == r
  }

  /** The row of task k, whose current run is p, is the same in both. */
  predicate SameTask(t: Tables, u: Tables, k: TaskId) {
    k in t.tasks && k in u.tasks && u.tasks[k] == t.tasks[k]
  }

  lemma FinishOther(t: Tables, q: RunId, status: RunStatus, now: int, latest: Option<ArtifactId>, k: TaskId, p: RunId)
    requires Runs(t, k, p) && p != q && Finished(status)
    ensures SameTask(t, FinishRows(t, q, status, now, latest), k)
  {
  }

  lemma RejectOther(t: Tables, q: RunId, to: HandoffState, status: RunStatus, now: int, k: TaskId, p: RunId)
    requires Runs(t, k, p) && p != q && Finished(status)
    ensures SameTask(t, RejectRows(t, q, to, status, now), k)
  {
    hide FinishRows;
    if Rejectable(t, q) {
      FinishOther(SetHandoff(t, q, to), q, status, now, None, k, p);
    }
  }

  lemma CancelOther(t: Tables, q: RunId, now: int, k: TaskId, p: RunId)
    requires Runs(t, k, p) && p != q
    ensures SameTask(t, CancelRows(t, q, now), k)
  {
    hide FinishRows, RejectRows;
    RejectOther(t, q, Rejected, Canceled, now, k, p);
    FinishOther(RejectRows(t, q, Rejected, Canceled, now), q, Canceled, now, None, k, p);
  }

  lemma RejectsOwn(t: Tables, q: RunId, to: HandoffState, status: RunStatus, now: int, r: RunId)
    requires Finished(status) && r in t.flow.handoffs && q != r
    ensures var u := RejectRows(t, q, to, status, now).flow.handoffs; r in u && u[r] == t.flow.handoffs[r]
  {
  }

  lemma {:induction false} CancelEachOther(s: State, rows: seq<RunId>, now: int, k: TaskId, p: RunId)
    requires Runs(s.t, k, p) && p !in rows
    ensures SameTask(s.t, CancelEach(s, rows, now).t, k)
  {
    hide CancelRows;
    if rows != [] {
      var n := |rows| - 1;
      assert rows[n] in rows;
      CancelEachOther(s, rows[..n], now, k, p);
      CancelOther(CancelEach(s, rows[..n], now).t, rows[n], now, k, p);
    }
  }

  lemma {:induction false} LapseOther(s: State, rows: seq<RunId>, now: int, k: TaskId, p: RunId)
    requires Runs(s.t, k, p) && p !in rows
    ensures SameTask(s.t, LapseHandoffs(s, rows, now).s.t, k)
  {
    hide RejectRows;
    if rows != [] {
      var n := |rows| - 1;
      assert rows[n] in rows;
      LapseOther(s, rows[..n], now, k, p);
      RejectOther(LapseHandoffs(s, rows[..n], now).s.t, rows[n], Lapsed, Failed, now, k, p);
    }
  }

  lemma {:induction false} OverdueOther(s: State, rows: seq<RunId>, now: int, k: TaskId, p: RunId)
    requires Runs(s.t, k, p) && p !in rows
    ensures SameTask(s.t, FailOverdue(s, rows, now).t, k)
  {
    hide FinishRows;
    if rows != [] {
      var n := |rows| - 1;
      assert rows[n] in rows;
      OverdueOther(s, rows[..n], now, k, p);
      FinishOther(FailOverdue(s, rows[..n], now).t, rows[n], Failed, now, None, k, p);
    }
  }

  /** The task row after approvals expired: failed at that time if one of them named its current run. */
  function Timed(task: Task, named: bool, now: int): Task {
    if named then FinishTask(task, Failed, now, None) else task
  }

  predicate Names(approvals: Approvals, rows: seq<ApprovalId>, p: RunId) {
    exists a :: a in rows && a in approvals && approvals[a].run == p
  }

  lemma ExpireTask(t: Tables, a: ApprovalId, now: int, k: TaskId, p: RunId)
    requires a in t.gates.approvals && Runs(t, k, p) && p in t.runs && t.runs[p].task == k
    ensures var u := ExpireRows(t, a, now);
      k in u.tasks && u.tasks[k] == Timed(t.tasks[k], t.gates.approvals[a].run == p, now)
      && p in u.runs && u.runs[p].task == k
  {
    hide SettleApproval;
    SettleFrame(t, a, Expired, t.gates.approvals[a].resolver);
  }

  lemma {:induction false} ExpireEachTask(s: State, rows: seq<ApprovalId>, now: int, k: TaskId, p: RunId)
    requires ApprovalsHaveRuns(s.t) && (forall a :: a in rows ==> a in s.t.gates.approvals)
    requires Runs(s.t, k, p) && p in s.t.runs && s.t.runs[p].task == k
    ensures var u := ExpireEach(s, rows, now).s.t;
      k in u.tasks && u.tasks[k] == Timed(s.t.tasks[k], Names(s.t.gates.approvals, rows, p), now)
      && p in u.runs && u.runs[p].task == k
  {
    hide ExpireRows;
    if rows == [] {
    } else {
      var n := |rows| - 1;
      var u := ExpireEach(s, rows[..n], now).s.t;
      ExpireEachTask(s, rows[..n], now, k, p);
      ExpireEachFrame(s, rows[..n], now);
      ExpireTask(u, rows[n], now, k, p);
      NamesOneMore(s.t.gates.approvals, rows, p);
    }
  }

  lemma NamesOneMore(approvals: Approvals, rows: seq<ApprovalId>, p: RunId)
    requires rows != [] && rows[|rows|-1] in approvals
    ensures Names(approvals, rows, p) <==> Names(approvals, rows[..|rows|-1], p) || approvals[rows[|rows|-1]].run == p
  {
    assert rows == rows[..|rows|-1] + [rows[|rows|-1]];
    if Names(approvals, rows[..|rows|-1], p) {
      var a :| a in rows[..|rows|-1] && a in approvals && approvals[a].run == p;
      assert a in rows;
    }
    assert rows[|rows|-1] in rows;
  }

  lemma ProposedTask(t: Tables, r: RunId)
    requires Inv(t) && Rejectable(t, r)
    ensures r in t.runs
    ensures var h := t.flow.handoffs[r];
      Runs(t, h.task, h.source) && h.source in t.runs && t.runs[h.source].task == h.task && h.source != r
      && Finished(t.runs[h.source].status) && h.source !in t.flow.handoffs
  {
    hide RunsLinked, ApprovalsLinked, ActionsLinked, Drafted, Authored, Live;
    assert SourceOf(t.runs, t.flow.handoffs, r, t.flow.handoffs[r]);
  }

  predicate SourceNamedDue(t: Tables, r: RunId, now: int)
    requires r in t.flow.handoffs
  {
    exists a :: a in DueApprovals(t, now) && t.gates.approvals[a].run == t.flow.handoffs[r].source
  }

  /** A sweep may touch the task of a lapsing handoff in one way only: an approval of the finished source, left
      pending when it completed, expires in the same sweep and fails the source a second time. */
  lemma SweepRefuses(s: State, hs: seq<RunId>, rs: seq<RunId>, xs: seq<ApprovalId>, now: int, r: RunId)
    requires Inv(s.t) && SweepRows(s, hs, rs, xs, now) && Rejectable(s.t, r)
    ensures var k, u := s.t.flow.handoffs[r].task, Sweep(s, hs, rs, xs, now).s.t;
      k in s.t.tasks && k in u.tasks && u.tasks[k] == Timed(s.t.tasks[k], SourceNamedDue(s.t, r, now), now)
  {
    hide Inv, LapseHandoffs, FailOverdue, ExpireEach, Enumerates, Overdue, Timed;
    var k, p := s.t.flow.handoffs[r].task, s.t.flow.handoffs[r].source;
    ProposedTask(s.t, r);
    RowsLinked(s.t);
    var s1 := LapseHandoffs(s, hs, now).s;
    Listed(hs, s.t.flow.handoffs.Keys);
    LapseFrame(s, hs, now);
    LapseKeepsRun(s, hs, now, p);
    LapseOther(s, hs, now, k, p);
    NotOverdue(s1, rs, now, p);
    var s2 := FailOverdue(s1, rs, now);
    OverdueFrame(s1, rs, now);
    OverdueOther(s1, rs, now, k, p);
    assert DueApprovals(s2.t, now) == DueApprovals(s.t, now);
    Listed(xs, DueApprovals(s2.t, now));
    ExpireEachTask(s2, xs, now, k, p);
    assert Names(s2.t.gates.approvals, xs, p) <==> SourceNamedDue(s.t, r, now);
  }

  lemma LapseKeepsRun(s: State, hs: seq<RunId>, now: int, p: RunId)
    requires HandoffsHaveRuns(s.t) && p in s.t.runs && p !in s.t.flow.handoffs
    ensures var u := LapseHandoffs(s, hs, now).s.t; p in u.runs && u.runs[p] == s.t.runs[p]
  {
    hide LapseHandoffs;
    LapseFrame(s, hs, now);
    assert p !in LapseHandoffs(s, hs, now).effects;
  }

  lemma NotOverdue(s: State, rs: seq<RunId>, now: int, p: RunId)
    requires Enumerates(rs, Overdue(s.t, now)) && p in s.t.runs && Finished(s.t.runs[p].status)
    ensures p !in rs && forall r :: r in rs ==> r in s.t.runs
  {
    Listed(rs, Overdue(s.t, now));
  }

  lemma StopRefuses(s: State, rows: seq<RunId>, now: int, r: RunId)
    requires Inv(s.t) && Enumerates(rows, ActiveRuns(s.t)) && Rejectable(s.t, r)
    ensures SameTask(s.t, StopRows(s, rows, now), s.t.flow.handoffs[r].task)
  {
    hide Inv, CancelEach, Enumerates;
    ProposedTask(s.t, r);
    Listed(rows, ActiveRuns(s.t));
    var h := s.t.flow.handoffs[r];
    CancelEachOther(s.(t := s.t.(stopped := true)), rows, now, h.task, h.source);
  }

  /** The handoff is still as it was, or was accepted, or the task row is as it was. */
  predicate Refusal(t: Tables, u: Tables, r: RunId)
    requires r in t.flow.handoffs
  {
    r in u.flow.handoffs && t.flow.handoffs[r].task in t.tasks && t.flow.handoffs[r].task in u.tasks &&
    (u.flow.handoffs[r].state == Rejected || u.flow.handoffs[r].state == Lapsed ==>
      SameTask(t, u, t.flow.handoffs[r].task))
  }

  lemma CommandRefuses(s: State, input: Input, r: RunId)
    requires Inv(s.t) && Legal(s, DoApply(input)) && Rejectable(s.t, r)
    ensures Refusal(s.t, Dispatch(s, input).s.t, r)
  {
    hide Inv, CancelRows, CancelEach, FailLoads, DropAllApprovals, SettleApproval, FinishRows, Enumerates,
      SubmitDenial, ProposeDenial,
      LoadDenial;
    ProposedTask(s.t, r);
    var h := s.t.flow.handoffs[r];
    match input.command {
      case SubmitTask(bot, unsupported, plan) =>
      case ProposeHandoff(source) =>
      case ResolveApproval(a, allow) => ResolveKeepsFlow(s, input, a, allow, r);
      case AnswerInput(q, _) =>
      case CancelRun(q) =>
        if q != h.source {
          CancelFlow(s.t, q, input.now);
          CancelOther(s.t, q, input.now, h.task, h.source);
        }
      case LoadSession(q) =>
      case StopAll =>
        StopRefuses(s, input.rows, input.now, r);
        StopKeepsFlow(s, input.rows, input.now);
    }
  }

  lemma ResolveKeepsFlow(s: State, input: Input, a: ApprovalId, allow: bool, r: RunId)
    requires Inv(s.t) && Rejectable(s.t, r)
    ensures Refusal(s.t, Resolve(s, input, a, allow).s.t, r)
  {
    hide Inv, SettleApproval, FinishRows;
    ProposedTask(s.t, r);
    if a in s.t.gates.approvals {
      var row := s.t.gates.approvals[a];
      SettleFrame(s.t, a, Expired, row.resolver);
      SettleFrame(s.t, a, if allow then Allowed else Denied, Some(input.session));
      FinishTasks(SettleApproval(s.t, a, Expired, row.resolver), row.run, input.now);
      FinishTasks(SettleApproval(s.t, a, Denied, Some(input.session)), row.run, input.now);
    }
  }

  lemma FinishTasks(t: Tables, q: RunId, now: int)
    ensures FinishRows(t, q, Failed, now, None).flow == t.flow
      && FinishRows(t, q, Failed, now, None).tasks.Keys == t.tasks.Keys
  {
  }

  lemma {:induction false} CancelEachFlow(s: State, rows: seq<RunId>, now: int)
    ensures CancelEach(s, rows, now).t.flow.handoffs.Keys == s.t.flow.handoffs.Keys
  {
    hide FinishRows, DropActions;
    if rows != [] {
      CancelEachFlow(s, rows[..|rows|-1], now);
      CancelFlow(CancelEach(s, rows[..|rows|-1], now).t, rows[|rows|-1], now);
    }
  }

  lemma CancelFlow(t: Tables, q: RunId, now: int)
    ensures CancelRows(t, q, now).flow.handoffs.Keys == t.flow.handoffs.Keys
  {
  }

  lemma StopKeepsFlow(s: State, rows: seq<RunId>, now: int)
    ensures StopRows(s, rows, now).flow.handoffs.Keys == s.t.flow.handoffs.Keys
  {
    hide CancelEach;
    CancelEachFlow(s.(t := s.t.(stopped := true)), rows, now);
  }

  /** A step that rejects, lapses or cancels a proposed handoff leaves the task row unchanged, unless it is a sweep
      in which a pending approval of the source falls due. */
  lemma RefusalLeavesTask(s: State, step: Step, r: RunId)
    requires Inv(s.t) && Legal(s, step) && Rejectable(s.t, r) && !step.DoSweep?
    ensures Refusal(s.t, Next(s, step).t, r)
  {
    hide Inv, Dispatch, FinishRows, RejectRows, AcceptRows, Restart, StartRows, InsertArtifact, DropActions,
      ClaimActions, Enumerates, SweepRows,
      FreshIds;
    ProposedTask(s.t, r);
    var h := s.t.flow.handoffs[r];
    match step {
      case DoApply(input) => CommandRefuses(s, input, r);
      case DoMarkRunning(q, session, now) => StartKeeps(s.t, q, session, now);
      case DoSaveLoad(q, load) =>
      case DoWaitApproval(q, task, a, x, now) =>
      case DoWaitInput(q, prompt) =>
      case DoComplete(q, task, a, size, sha256, now) =>
        if MayComplete(s.t, q) {
          CompleteKeepsFlow(s.t, q, task, a, size, sha256, now);
        }
      case DoFail(q, error, now) =>
        RejectRefuses(s.t, q, Rejected, now, r);
        FinishTasks(s.t, q, now);
      case DoBump(q, task) =>
      case DoDecide(q, session, verdict, x, now) =>
        RejectRefuses(s.t, q, Lapsed, now, r);
        RejectRefuses(s.t, q, Rejected, now, r);
        AcceptRefuses(s.t, q, x, now, r);
      case DoClaimDraft(q) => ClaimKeepsFlow(s.t, q);
      case DoPeerProgress(q, body) =>
      case DoRestart(rows, now) => RestartKeepsFlow(s, rows, now);
    }
  }

  lemma StartKeeps(t: Tables, q: RunId, session: SessionId, now: int)
    ensures StartRows(t, q, session, now).flow == t.flow && StartRows(t, q, session, now).tasks.Keys == t.tasks.Keys
  {
  }

  lemma CompleteKeepsFlow(t: Tables, q: RunId, task: TaskId, a: ArtifactId, size: nat, sha256: Digest, now: int)
    requires q in t.runs
    ensures var u := FinishRows(InsertArtifact(t, q, task, a, size, sha256), q, Succeeded, now, Some(a));
      u.flow.handoffs == t.flow.handoffs && u.tasks.Keys == t.tasks.Keys
  {
  }

  lemma ClaimKeepsFlow(t: Tables, q: RunId)
    ensures ClaimActions(t, q, HandoffDraft).flow == t.flow && ClaimActions(t, q, HandoffDraft).tasks == t.tasks
  {
  }

  lemma RestartKeepsFlow(s: State, rows: seq<RunId>, now: int)
    requires Inv(s.t) && Enumerates(rows, ActiveRuns(s.t))
    ensures Restart(s, rows, now).t.flow == s.t.flow && Restart(s, rows, now).t.tasks == s.t.tasks
  {
    hide Inv, InterruptEach;
    InterruptKeeps(s, rows, now);
  }

  lemma RejectRefuses(t: Tables, q: RunId, to: HandoffState, now: int, r: RunId)
    requires Inv(t) && Rejectable(t, r) && (to == Rejected || to == Lapsed)
    ensures Refusal(t, RejectRows(t, q, to, Failed, now), r)
  {
    hide Inv, RejectRows;
    ProposedTask(t, r);
    var h := t.flow.handoffs[r];
    if q != h.source {
      RejectOther(t, q, to, Failed, now, h.task, h.source);
    }
    if q != r {
      RejectsOwn(t, q, to, Failed, now, r);
    }
    RejectNothing(t, h.source, to, now);
    RejectSelf(t, r, to, now);
  }

  lemma RejectNothing(t: Tables, q: RunId, to: HandoffState, now: int)
    ensures q !in t.flow.handoffs ==> RejectRows(t, q, to, Failed, now) == t
  {
  }

  lemma RejectSelf(t: Tables, r: RunId, to: HandoffState, now: int)
    requires Rejectable(t, r)
    ensures r in RejectRows(t, r, to, Failed, now).flow.handoffs
  {
  }

  lemma AcceptRefuses(t: Tables, q: RunId, x: ActionId, now: int, r: RunId)
    requires Inv(t) && Rejectable(t, r)
    ensures q in t.flow.handoffs ==> Refusal(t, AcceptRows(t, q, x, now), r)
  {
    hide Inv;
    ProposedTask(t, r);
  }
}
