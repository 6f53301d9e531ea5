/** What can never be undone: a relation every transaction puts between the tables before and after it,
    and which therefore holds between any two moments of a run of the store. */
module Lifecycle {
  import opened Types
  import opened Rows
  import opened Transactions
  import opened Invariants

  predicate RunEvolves(a: Run, b: Run) {
    a.task == b.task && a.bot == b.bot && a.provider == b.provider && a.budget == b.budget && a.deadline == b.deadline
    && a.spent <= b.spent
    && (!Active(a.status) ==> !Active(b.status) && a.session == b.session && a.spent == b.spent && a.started == b.started)
    && (a.started.Some? ==> b.started == a.started) && (a.session.Some? ==> b.session.Some?)
    && (a.status == Interrupted ==> b.status == Interrupted || b.status == Failed || b.status == Canceled)
    && (Finished(a.status) ==> b.status == a.status || (a.status == Succeeded && b.status == Failed))
    && (a.status == Canceled ==> a.completed == b.completed)
  }

  predicate RunsEvolve(runs: Runs, after: Runs) {
    forall r | r in runs :: r in after && RunEvolves(runs[r], after[r])
  }

  /** A finished run that no pending approval names keeps its outcome, and no approval ever names it again. */
  predicate OutcomesStand(runs: Runs, approvals: Approvals, after: Runs, later: Approvals) {
    forall r | r in runs && Finished(runs[r].status) && !PendingNames(approvals, r) ::
      r in after && after[r].status == runs[r].status && after[r].completed == runs[r].completed
      && !PendingNames(later, r)
  }

  predicate GatesEvolve(gates: Gates, after: Gates) {
    (forall a | a in gates.approvals ::
      a in after.approvals && after.approvals[a].run == gates.approvals[a].run
      && (gates.approvals[a].state != Pending ==> after.approvals[a] == gates.approvals[a])) &&
    (forall x | x in gates.actions ::
      x in after.actions && after.actions[x].run == gates.actions[x].run && after.actions[x].kind == gates.actions[x].kind
      && (gates.actions[x].state != Pending ==> after.actions[x].state != Pending))
  }

  predicate FlowEvolves(flow: Flow, after: Flow) {
    (forall r | r in flow.handoffs ::
      r in after.handoffs && flow.handoffs[r].(state := after.handoffs[r].state) == after.handoffs[r]
      && (flow.handoffs[r].state == after.handoffs[r].state || flow.handoffs[r].state == Proposed)) &&
    (forall a | a in flow.artifacts :: a in after.artifacts && after.artifacts[a] == flow.artifacts[a])
  }

  /** A new draft action appears only with the acceptance of its handoff. */
  predicate DraftsEvolve(t: Tables, u: Tables) {
    forall x | x in u.gates.actions && x !in t.gates.actions && u.gates.actions[x].kind == HandoffDraft ::
      u.gates.actions[x].run in t.flow.handoffs ==> t.flow.handoffs[u.gates.actions[x].run].state == Proposed
  }

  predicate LatchEvolves(t: Tables, u: Tables) {
    t.stopped ==>
      u.stopped && u.runs.Keys == t.runs.Keys && u.tasks.Keys == t.tasks.Keys
      && u.flow.artifacts == t.flow.artifacts && u.flow.handoffs.Keys == t.flow.handoffs.Keys
      && (forall r | r in t.flow.handoffs && u.flow.handoffs[r].state == Accepted :: t.flow.handoffs[r].state == Accepted)
      && (forall k | k in t.tasks :: u.tasks[k].spent == t.tasks[k].spent)
  }

  predicate Evolves(t: Tables, u: Tables) {
    RunsEvolve(t.runs, u.runs) && OutcomesStand(t.runs, t.gates.approvals, u.runs, u.gates.approvals)
    && GatesEvolve(t.gates, u.gates) && FlowEvolves(t.flow, u.flow) && DraftsEvolve(t, u) && LatchEvolves(t, u)
  }

  /** No action is counted, and no run or task is added. */
  predicate Frugal(t: Tables, u: Tables) {
    t.runs.Keys == u.runs.Keys && t.tasks.Keys == u.tasks.Keys &&
    (forall r | r in t.runs :: u.runs[r].task == t.runs[r].task && u.runs[r].spent == t.runs[r].spent) &&
    (forall k | k in t.tasks :: u.tasks[k].spent == t.tasks[k].spent)
  }

  predicate Quiet(t: Tables, u: Tables) {
    Evolves(t, u) && Frugal(t, u)
  }

  lemma FrugalOn(t: Tables, u: Tables, v: Tables)
    requires Frugal(t, u) && Frugal(u, v)
    ensures Frugal(t, v)
  {
  }

  lemma QuietStays(t: Tables)
    ensures Quiet(t, t)
  {
  }

  lemma OutcomesOn(t: Tables, u: Tables, v: Tables)
    requires RunsEvolve(t.runs, u.runs)
    requires OutcomesStand(t.runs, t.gates.approvals, u.runs, u.gates.approvals)
    requires OutcomesStand(u.runs, u.gates.approvals, v.runs, v.gates.approvals)
    ensures OutcomesStand(t.runs, t.gates.approvals, v.runs, v.gates.approvals)
  {
    forall r | r in t.runs && Finished(t.runs[r].status) && !PendingNames(t.gates.approvals, r)
      ensures r in v.runs && v.runs[r].status == t.runs[r].status && v.runs[r].completed == t.runs[r].completed
        && !PendingNames(v.gates.approvals, r)
    {
      assert r in u.runs && Finished(u.runs[r].status) && !PendingNames(u.gates.approvals, r);
    }
  }

  lemma RunsOn(runs: Runs, after: Runs, later: Runs)
    requires RunsEvolve(runs, after) && RunsEvolve(after, later)
    ensures RunsEvolve(runs, later)
  {
  }

  lemma GatesOn(gates: Gates, after: Gates, later: Gates)
    requires GatesEvolve(gates, after) && GatesEvolve(after, later)
    ensures GatesEvolve(gates, later)
  {
  }

  lemma FlowOn(flow: Flow, after: Flow, later: Flow)
    requires FlowEvolves(flow, after) && FlowEvolves(after, later)
    ensures FlowEvolves(flow, later)
  {
  }

  lemma DraftsOn(t: Tables, u: Tables, v: Tables)
    requires DraftsEvolve(t, u) && DraftsEvolve(u, v) && GatesEvolve(u.gates, v.gates) && FlowEvolves(t.flow, u.flow)
    ensures DraftsEvolve(t, v)
  {
  }

  lemma LatchOn(t: Tables, u: Tables, v: Tables)
    requires LatchEvolves(t, u) && LatchEvolves(u, v)
    ensures LatchEvolves(t, v)
  {
  }

  lemma EvolvesOn(t: Tables, u: Tables, v: Tables)
    requires Evolves(t, u) && Evolves(u, v)
    ensures Evolves(t, v)
  {
    hide RunsEvolve, OutcomesStand, GatesEvolve, FlowEvolves, DraftsEvolve, LatchEvolves;
    RunsOn(t.runs, u.runs, v.runs);
    OutcomesOn(t, u, v);
    GatesOn(t.gates, u.gates, v.gates);
    FlowOn(t.flow, u.flow, v.flow);
    DraftsOn(t, u, v);
    LatchOn(t, u, v);
  }

  lemma QuietOn(t: Tables, u: Tables, v: Tables)
    requires Quiet(t, u) && Quiet(u, v)
    ensures Quiet(t, v)
  {
    hide Evolves, Frugal;
    EvolvesOn(t, u, v);
    FrugalOn(t, u, v);
  }

  lemma RowQuiet(t: Tables, r: RunId, row: Run)
    requires r in t.runs && RunEvolves(t.runs[r], row) && row.spent == t.runs[r].spent
    requires Finished(t.runs[r].status) ==> row.status == t.runs[r].status && row.completed == t.runs[r].completed
    ensures Quiet(t, t.(runs := t.runs[r := row]))
  {
  }

  lemma TasksQuiet(t: Tables, tasks: Tasks)
    requires tasks.Keys == t.tasks.Keys && forall k :: k in tasks ==> tasks[k].spent == t.tasks[k].spent
    ensures Quiet(t, t.(tasks := tasks))
  {
  }

  lemma FinishQuiet(t: Tables, r: RunId, status: RunStatus, now: int, latest: Option<ArtifactId>)
    requires r in t.runs && Finished(status) && (t.runs[r].status == Interrupted ==> status != Succeeded)
    requires !Finished(t.runs[r].status) || (t.runs[r].status == status == Canceled && t.runs[r].completed == Some(now))
    ensures Quiet(t, FinishRows(t, r, status, now, latest))
  {
    hide Quiet;
    var u := FinishRows(t, r, status, now, latest);
    RowQuiet(t, r, u.runs[r]);
    TasksQuiet(t.(runs := u.runs), u.tasks);
    QuietOn(t, t.(runs := u.runs), u);
  }

  lemma SetStatusQuiet(t: Tables, r: RunId, status: RunStatus)
    requires r in t.runs && Active(t.runs[r].status)
    ensures Quiet(t, SetStatus(t, r, status))
  {
    hide Quiet;
    RowQuiet(t, r, t.runs[r].(status := status));
  }

  lemma StartQuiet(t: Tables, r: RunId, session: SessionId, now: int)
    requires r in t.runs && Active(t.runs[r].status)
    ensures Quiet(t, StartRows(t, r, session, now))
  {
    hide Quiet, ClaimActions;
    var u := StartRun(t, r, session, now);
    var v := StartTasks(u, r, now);
    RowQuiet(t, r, u.runs[r]);
    TasksQuiet(u, v.tasks);
    ClaimQuiet(v, r, Launch);
    QuietOn(t, u, v);
    QuietOn(t, v, StartRows(t, r, session, now));
  }

  lemma ClaimQuiet(t: Tables, r: RunId, kind: ActionKind)
    ensures Quiet(t, ClaimActions(t, r, kind))
  {
  }

  lemma DropActionsQuiet(t: Tables, r: RunId, states: set<GateState>)
    ensures Quiet(t, DropActions(t, r, states))
  {
  }

  lemma DropApprovalsQuiet(t: Tables, r: RunId)
    ensures Quiet(t, DropApprovals(t, r))
  {
  }

  lemma DropAllApprovalsQuiet(t: Tables)
    ensures Quiet(t, DropAllApprovals(t))
  {
  }

  lemma FailLoadsQuiet(t: Tables)
    ensures Quiet(t, FailLoads(t))
  {
  }

  lemma SetLoadQuiet(t: Tables, r: RunId, load: Load)
    ensures Quiet(t, SetLoad(t, r, load))
  {
    hide Quiet;
    if r in t.runs {
      RowQuiet(t, r, t.runs[r].(load := load));
    } else {
      QuietStays(t);
    }
  }

  lemma CountEvolves(t: Tables, r: RunId, task: TaskId)
    requires BudgetLeft(t, r, task)
    ensures Evolves(t, CountAction(t, r, task))
  {
  }

  lemma SettleQuiet(t: Tables, a: ApprovalId, to: GateState, resolver: Option<SessionId>)
    requires a in t.gates.approvals && t.gates.approvals[a].state == Pending && to != Pending
    ensures Quiet(t, SettleApproval(t, a, to, resolver))
  {
  }

  lemma ExpireRunsEvolve(t: Tables, a: ApprovalId, now: int)
    requires a in t.gates.approvals && t.gates.approvals[a].state == Pending
    requires t.gates.approvals[a].run in t.runs ==> t.runs[t.gates.approvals[a].run].status != Canceled
    ensures var u := ExpireRows(t, a, now);
      RunsEvolve(t.runs, u.runs) && OutcomesStand(t.runs, t.gates.approvals, u.runs, u.gates.approvals)
      && LatchEvolves(t, u) && Frugal(t, u)
  {
    assert PendingNames(t.gates.approvals, t.gates.approvals[a].run);
  }

  lemma ExpireGatesEvolve(t: Tables, a: ApprovalId, now: int)
    requires a in t.gates.approvals && t.gates.approvals[a].state == Pending
    ensures var u := ExpireRows(t, a, now);
      GatesEvolve(t.gates, u.gates) && FlowEvolves(t.flow, u.flow) && DraftsEvolve(t, u)
  {
  }

  /** Expiry finishes the run a pending approval names, even a run that had finished: the one way to finish twice. */
  lemma ExpireQuiet(t: Tables, a: ApprovalId, now: int)
    requires a in t.gates.approvals && t.gates.approvals[a].state == Pending
    requires t.gates.approvals[a].run in t.runs ==> t.runs[t.gates.approvals[a].run].status != Canceled
    ensures Quiet(t, ExpireRows(t, a, now))
  {
    hide RunsEvolve, OutcomesStand, GatesEvolve, FlowEvolves, DraftsEvolve, LatchEvolves, ExpireRows, Frugal;
    ExpireRunsEvolve(t, a, now);
    ExpireGatesEvolve(t, a, now);
  }

  lemma HandoffQuiet(t: Tables, r: RunId, to: HandoffState)
    requires Rejectable(t, r) && to != Accepted
    ensures Quiet(t, SetHandoff(t, r, to))
  {
  }

  lemma RejectQuiet(t: Tables, r: RunId, to: HandoffState, status: RunStatus, now: int)
    requires (to == Rejected || to == Lapsed) && (status == Failed || status == Canceled)
    requires Rejectable(t, r) ==> r in t.runs && !Finished(t.runs[r].status)
    ensures Quiet(t, RejectRows(t, r, to, status, now))
  {
    hide Quiet, FinishRows, DropActions;
    if Rejectable(t, r) {
      var u := SetHandoff(t, r, to);
      var v := FinishRows(u, r, status, now, None);
      HandoffQuiet(t, r, to);
      FinishQuiet(u, r, status, now, None);
      DropActionsQuiet(v, r, {Pending});
      QuietOn(t, u, v);
      QuietOn(t, v, RejectRows(t, r, to, status, now));
    } else {
      QuietStays(t);
    }
  }

  lemma RejectRow(t: Tables, r: RunId, to: HandoffState, status: RunStatus, now: int)
    requires Finished(status) && r in t.runs
    ensures var u := RejectRows(t, r, to, status, now);
      r in u.runs
      && if Rejectable(t, r) then u.runs[r].status == status && u.runs[r].completed == Some(now) else u == t
  {
  }

  lemma CancelQuiet(t: Tables, r: RunId, now: int)
    requires r in t.runs && !Finished(t.runs[r].status)
    ensures Quiet(t, CancelRows(t, r, now))
  {
    hide Quiet, RejectRows, FinishRows, DropActions;
    var u := RejectRows(t, r, Rejected, Canceled, now);
    var v := FinishRows(u, r, Canceled, now, None);
    RejectQuiet(t, r, Rejected, Canceled, now);
    RejectRow(t, r, Rejected, Canceled, now);
    FinishQuiet(u, r, Canceled, now, None);
    DropActionsQuiet(v, r, {Pending, Allowed});
    QuietOn(t, u, v);
    QuietOn(t, v, CancelRows(t, r, now));
  }

  lemma InsertTaskEvolves(t: Tables, ids: Ids, session: SessionId, bot: Bot, provider: Provider, now: int)
    requires FreshIds(t, ids) && !t.stopped
    ensures Evolves(t, InsertTask(t, ids, session, bot, provider, now))
  {
  }

  lemma InsertHandoffEvolves(t: Tables, ids: Ids, source: RunId, now: int)
    requires FreshIds(t, ids) && !t.stopped && source in t.runs && ids.run !in t.flow.handoffs
    ensures Evolves(t, InsertHandoff(t, ids, source, now))
  {
  }

  lemma GatesQuiet(t: Tables, r: RunId, a: ApprovalId, row: Approval, x: ActionId, action: Action)
    requires Working(t, r) && a !in t.gates.approvals && x !in t.gates.actions && row.run == r && action.kind == Tool
    ensures Quiet(t, t.(gates := Gates(t.gates.approvals[a := row], t.gates.actions[x := action])))
  {
  }

  lemma OpenQuiet(t: Tables, r: RunId, a: ApprovalId, x: ActionId, now: int)
    requires Working(t, r) && a !in t.gates.approvals && x !in t.gates.actions
    ensures Quiet(t, OpenApproval(t, r, t.runs[r].task, a, x, now))
  {
    hide Quiet;
    var row := Approval(r, t.runs[r].task, Pending, now + APPROVAL_TTL_MS, None);
    var action := Action(r, Tool, Pending, Some(a));
    var u := t.(gates := Gates(t.gates.approvals[a := row], t.gates.actions[x := action]));
    GatesQuiet(t, r, a, row, x, action);
    SetStatusQuiet(u, r, WaitingApproval);
    QuietOn(t, u, OpenApproval(t, r, t.runs[r].task, a, x, now));
  }

  lemma ArtifactQuiet(t: Tables, a: ArtifactId, row: Artifact)
    requires !t.stopped && a !in t.flow.artifacts
    ensures Quiet(t, t.(flow := t.flow.(artifacts := t.flow.artifacts[a := row])))
  {
  }

  lemma CompleteQuiet(t: Tables, r: RunId, a: ArtifactId, size: nat, sha256: Digest, now: int)
    requires Working(t, r) && a !in t.flow.artifacts
    ensures Quiet(t, FinishRows(InsertArtifact(t, r, t.runs[r].task, a, size, sha256), r, Succeeded, now, Some(a)))
  {
    hide Quiet, FinishRows;
    var u := InsertArtifact(t, r, t.runs[r].task, a, size, sha256);
    ArtifactQuiet(t, a, Artifact(t.runs[r].task, r, t.runs[r].bot, size, sha256));
    FinishQuiet(u, r, Succeeded, now, Some(a));
    QuietOn(t, u, FinishRows(u, r, Succeeded, now, Some(a)));
  }

  lemma AcceptQuiet(t: Tables, r: RunId, x: ActionId, now: int)
    requires Rejectable(t, r) && !t.stopped && x !in t.gates.actions
    ensures Quiet(t, AcceptRows(t, r, x, now))
  {
  }

  lemma LatchQuiet(t: Tables)
    ensures Quiet(t, t.(stopped := true))
  {
  }
}
