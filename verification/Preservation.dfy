/** Every row update the transactions are made of keeps the invariant. */
module Preservation {
  import opened Types
  import opened Rows
  import opened Transactions
  import opened Invariants

  lemma FinishRunsSteady(t: Tables, r: RunId, status: RunStatus, now: int, latest: Option<ArtifactId>)
    requires r in t.runs && Finished(status)
    ensures RunsSteady(t, FinishRows(t, r, status, now, latest))
    ensures OccupancySteady(t.runs, FinishRows(t, r, status, now, latest).runs)
  {
  }

  lemma FinishTasksSteady(t: Tables, r: RunId, status: RunStatus, now: int, latest: Option<ArtifactId>)
    requires Projected(t.tasks, t.runs) && r in t.runs && Finished(status)
    ensures TasksSteady(t, FinishRows(t, r, status, now, latest))
  {
  }

  predicate MayFinish(t: Tables, r: RunId, status: RunStatus) {
    Finished(status) && !Rejectable(t, r)
    && (status == Succeeded ==>
          HasArtifact(t.flow.artifacts, r) && (r in t.flow.handoffs ==> t.flow.handoffs[r].state == Accepted))
    && (status == Canceled ==> !HasArtifact(t.flow.artifacts, r) && !PendingNames(t.gates.approvals, r))
  }

  lemma FinishStatusSteady(t: Tables, r: RunId, status: RunStatus, now: int, latest: Option<ArtifactId>)
    requires r in t.runs && MayFinish(t, r, status)
    requires RunsSteady(t, FinishRows(t, r, status, now, latest))
    ensures StatusSteady(t, FinishRows(t, r, status, now, latest))
  {
  }

  lemma FinishSteady(t: Tables, r: RunId, status: RunStatus, now: int, latest: Option<ArtifactId>)
    requires Projected(t.tasks, t.runs) && r in t.runs && MayFinish(t, r, status)
    ensures Steady(t, FinishRows(t, r, status, now, latest))
  {
    FinishRunsSteady(t, r, status, now, latest);
    FinishTasksSteady(t, r, status, now, latest);
    FinishStatusSteady(t, r, status, now, latest);
    hide RunsSteady, OccupancySteady, TasksSteady, StatusSteady, Projected, MayFinish;
  }

  /** A new version of one unfinished run's row that leaves it unfinished. */
  lemma RowSteady(t: Tables, r: RunId, row: Run)
    requires Projected(t.tasks, t.runs) && r in t.runs && RunMove(t.runs[r], row)
    requires Occupies(row) ==> Occupies(t.runs[r])
    requires row.load == Loading ==> t.runs[r].load == Loading
    requires row.status == t.runs[r].status || (Active(t.runs[r].status) && !Finished(row.status))
    ensures Steady(t, t.(runs := t.runs[r := row]))
  {
  }

  lemma SetStatusSteady(t: Tables, r: RunId, status: RunStatus)
    requires Projected(t.tasks, t.runs) && r in t.runs && Active(t.runs[r].status) && !Finished(status)
    ensures Steady(t, SetStatus(t, r, status))
  {
    hide Projected, Steady;
    RowSteady(t, r, t.runs[r].(status := status));
  }

  lemma StartRunSteady(t: Tables, r: RunId, session: SessionId, now: int)
    requires Projected(t.tasks, t.runs) && r in t.runs && Active(t.runs[r].status)
    ensures Steady(t, StartRun(t, r, session, now))
  {
    hide Projected, Steady;
    RowSteady(t, r, StartRun(t, r, session, now).runs[r]);
  }

  lemma StartTasksSteady(t: Tables, r: RunId, now: int)
    requires Projected(t.tasks, t.runs) && r in t.runs && Active(t.runs[r].status)
    ensures Steady(t, StartTasks(t, r, now))
  {
  }

  lemma RejectFlowSteady(t: Tables, r: RunId, to: HandoffState, status: RunStatus, now: int)
    requires Rejectable(t, r) && r in t.runs && to != Accepted && (status == Failed || status == Canceled)
    ensures FlowSteady(t, FinishRows(SetHandoff(t, r, to), r, status, now, None))
  {
  }

  lemma RejectSteady(t: Tables, r: RunId, to: HandoffState, status: RunStatus, now: int)
    requires Projected(t.tasks, t.runs) && Rejectable(t, r) && r in t.runs && !PendingNames(t.gates.approvals, r)
      && !HasArtifact(t.flow.artifacts, r)
    requires (to == Rejected || to == Lapsed) && (status == Failed || status == Canceled)
    ensures Steady(t, FinishRows(SetHandoff(t, r, to), r, status, now, None))
  {
    var h := SetHandoff(t, r, to);
    FinishRunsSteady(h, r, status, now, None);
    FinishTasksSteady(h, r, status, now, None);
    FinishStatusSteady(h, r, status, now, None);
    RejectFlowSteady(t, r, to, status, now);
    RejectStatusSteady(t, h, FinishRows(h, r, status, now, None));
    hide Projected, FlowSteady, StatusSteady;
  }

  lemma RejectStatusSteady(t: Tables, h: Tables, u: Tables)
    requires h == t.(flow := h.flow) && RunsSteady(h, u) && StatusSteady(h, u)
    ensures RunsSteady(t, u) && StatusSteady(t, u)
  {
  }

  lemma DropActionsSteady(t: Tables, r: RunId, states: set<GateState>)
    requires Projected(t.tasks, t.runs) && ActionsLinked(t.runs, t.gates) && !PendingNames(t.gates.approvals, r)
    ensures Steady(t, DropActions(t, r, states))
  {
  }

  lemma DropApprovalsSteady(t: Tables, r: RunId)
    requires Projected(t.tasks, t.runs)
    ensures Steady(t, DropApprovals(t, r)) && !PendingNames(DropApprovals(t, r).gates.approvals, r)
  {
  }

  lemma DropAllApprovalsSteady(t: Tables)
    requires Projected(t.tasks, t.runs)
    ensures Steady(t, DropAllApprovals(t)) && forall r :: !PendingNames(DropAllApprovals(t).gates.approvals, r)
  {
  }

  lemma SettleSteady(t: Tables, a: ApprovalId, to: GateState, resolver: Option<SessionId>)
    requires Projected(t.tasks, t.runs) && a in t.gates.approvals && to != Pending
    ensures Steady(t, SettleApproval(t, a, to, resolver))
  {
  }

  lemma ClaimSteady(t: Tables, r: RunId, kind: ActionKind)
    requires Projected(t.tasks, t.runs) && ActionsLinked(t.runs, t.gates) && kind != Tool
    ensures Steady(t, ClaimActions(t, r, kind))
  {
  }

  lemma FailLoadsSteady(t: Tables)
    requires Projected(t.tasks, t.runs)
    ensures Steady(t, FailLoads(t))
  {
  }

  lemma SaveLoadSteady(t: Tables, r: RunId, load: Load)
    requires Projected(t.tasks, t.runs) && r in t.runs && (load == Loading ==> t.runs[r].load == Loading)
    ensures Steady(t, SetLoad(t, r, load))
  {
    hide Projected, Steady;
    RowSteady(t, r, t.runs[r].(load := load));
  }

  lemma CountSteady(t: Tables, r: RunId, task: TaskId)
    requires Projected(t.tasks, t.runs) && BudgetLeft(t, r, task)
    ensures Steady(t, CountAction(t, r, task))
  {
  }
}
