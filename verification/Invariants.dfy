/** What holds of the tables between transactions, and that every row update the transactions
    are made of keeps it. */
module Invariants {
  import opened Types
  import opened Rows
  import opened Transactions

  // ---------- how rows refer to each other ----------

  predicate RunsLinked(tasks: Tasks, runs: Runs) {
    forall r :: r in runs ==> runs[r].task in tasks
  }

  predicate ApprovalsLinked(runs: Runs, approvals: Approvals, handoffs: Handoffs) {
    forall a | a in approvals ::
      approvals[a].run in runs && approvals[a].task == runs[approvals[a].run].task
      && approvals[a].run !in handoffs
  }

  predicate ActionsLinked(runs: Runs, gates: Gates) {
    (forall x :: x in gates.actions ==> gates.actions[x].run in runs) &&
    (forall x | x in gates.actions && gates.actions[x].approval.Some? ::
      gates.actions[x].approval.value in gates.approvals
      && gates.approvals[gates.actions[x].approval.value].run == gates.actions[x].run
      && gates.actions[x].kind == Tool)
  }

  predicate SourceOf(runs: Runs, handoffs: Handoffs, r: RunId, h: Handoff) {
    r in runs && h.source in runs && h.source !in handoffs
    && runs[r].task == h.task == runs[h.source].task
    && runs[r].bot == Ivo && runs[r].provider == Claude
    && runs[h.source].bot == Mara && Finished(runs[h.source].status)
  }

  /** A task has one run it was submitted with and at most one handoff, hence at most two runs. */
  predicate HandoffsLinked(runs: Runs, handoffs: Handoffs) {
    (forall r :: r in handoffs ==> SourceOf(runs, handoffs, r, handoffs[r])) &&
    (forall r, q :: r in handoffs && q in handoffs && handoffs[r].task == handoffs[q].task ==> r == q) &&
    (forall r, q | r in runs && q in runs && r !in handoffs && q !in handoffs
      && runs[r].task == runs[q].task :: r == q)
  }

  /** An accepted handoff owns the task through its recipient run; any other leaves it with the source. */
  predicate Owned(tasks: Tasks, handoffs: Handoffs) {
    forall r | r in handoffs ::
      handoffs[r].task in tasks &&
      tasks[handoffs[r].task].current == (if handoffs[r].state == Accepted then r else handoffs[r].source)
  }

  predicate Drafted(actions: Actions, handoffs: Handoffs) {
    (forall x :: x in actions && actions[x].kind == HandoffDraft ==>
      actions[x].run in handoffs && handoffs[actions[x].run].state == Accepted) &&
    (forall x, y | x in actions && y in actions && actions[x].kind == HandoffDraft
      && actions[y].kind == HandoffDraft && actions[x].run == actions[y].run :: x == y)
  }

  predicate Authored(runs: Runs, flow: Flow) {
    (forall a | a in flow.artifacts ::
      flow.artifacts[a].run in runs && flow.artifacts[a].task == runs[flow.artifacts[a].run].task
      && flow.artifacts[a].author == runs[flow.artifacts[a].run].bot
      && (flow.artifacts[a].run in flow.handoffs ==> flow.handoffs[flow.artifacts[a].run].state == Accepted)) &&
    (forall a, b :: a in flow.artifacts && b in flow.artifacts && flow.artifacts[a].run == flow.artifacts[b].run ==> a == b)
  }

  predicate Links(t: Tables) {
    RunsLinked(t.tasks, t.runs) && ApprovalsLinked(t.runs, t.gates.approvals, t.flow.handoffs)
    && ActionsLinked(t.runs, t.gates) && HandoffsLinked(t.runs, t.flow.handoffs) && Owned(t.tasks, t.flow.handoffs)
    && Drafted(t.gates.actions, t.flow.handoffs) && Authored(t.runs, t.flow)
  }

  // ---------- what the rows say ----------

  predicate Projects(task: TaskStatus, run: RunStatus) {
    match task
    case Completed => run == Succeeded
    case TaskFailed => run == Failed
    case TaskCanceled => run == Canceled
    case Open => !Finished(run)
    case InProgress => !Finished(run)
  }

  /** A task's owner and status are those of its current run. */
  predicate Projected(tasks: Tasks, runs: Runs) {
    forall k | k in tasks ::
      tasks[k].current in runs && runs[tasks[k].current].task == k
      && tasks[k].bot == runs[tasks[k].current].bot
      && Projects(tasks[k].status, runs[tasks[k].current].status)
  }

  predicate Admitted(runs: Runs) {
    (forall r, q | r in runs && q in runs && Occupies(runs[r]) && Occupies(runs[q])
      && runs[r].bot == runs[q].bot :: r == q) &&
    (forall r :: r in runs && runs[r].load == Loading ==> !Active(runs[r].status))
  }

  predicate Gated(runs: Runs, gates: Gates) {
    (forall a :: a in gates.approvals && gates.approvals[a].state == Pending ==>
      gates.approvals[a].run in runs && runs[gates.approvals[a].run].status != Canceled) &&
    (forall x | x in gates.actions && gates.actions[x].approval.Some?
      && gates.actions[x].approval.value in gates.approvals
      && gates.approvals[gates.actions[x].approval.value].state == Pending
      :: gates.actions[x].state == Pending)
  }

  /** A proposed handoff keeps its recipient unfinished, and lapses no later than the recipient's deadline. */
  predicate Bounded(runs: Runs, handoffs: Handoffs) {
    forall r | r in handoffs :: r in runs &&
      match handoffs[r].state
      case Proposed => !Finished(runs[r].status) && handoffs[r].expires <= runs[r].deadline
      case Accepted => true
      case _ => runs[r].status == Failed || runs[r].status == Canceled
  }

  predicate Delivered(runs: Runs, artifacts: Artifacts) {
    (forall a | a in artifacts ::
      artifacts[a].run in runs
      && (runs[artifacts[a].run].status == Succeeded || runs[artifacts[a].run].status == Failed)) &&
    (forall r :: r in runs && runs[r].status == Succeeded ==> HasArtifact(artifacts, r))
  }

  predicate Budgeted(runs: Runs) {
    forall r :: r in runs ==> runs[r].budget == MAX_ACTIONS_PER_RUN && runs[r].spent <= runs[r].budget
  }

  predicate Barred(runs: Runs, approvals: Approvals, stopped: bool) {
    (stopped ==> forall r :: r in runs ==> !Occupies(runs[r])) &&
    (stopped ==> forall a :: a in approvals ==> approvals[a].state != Pending)
  }

  predicate Live(t: Tables) {
    Projected(t.tasks, t.runs) && Admitted(t.runs) && Gated(t.runs, t.gates) && Bounded(t.runs, t.flow.handoffs)
    && Delivered(t.runs, t.flow.artifacts) && Budgeted(t.runs) && Barred(t.runs, t.gates.approvals, t.stopped)
  }

  predicate Inv(t: Tables) {
    Links(t) && Live(t)
  }

  predicate PendingNames(approvals: Approvals, r: RunId) {
    exists a :: a in approvals && approvals[a].state == Pending && approvals[a].run == r
  }

  // ---------- updates that insert nothing and transfer nothing ----------

  predicate RunMove(a: Run, b: Run) {
    a.task == b.task && a.bot == b.bot && a.provider == b.provider && a.budget == b.budget && a.deadline == b.deadline
    && (Active(b.status) ==> Active(a.status)) && (Finished(a.status) ==> Finished(b.status))
    && a.spent <= b.spent && (b.spent <= b.budget || a.spent == b.spent)
  }

  /** What must hold for a run's status to have changed. */
  predicate StatusMove(t: Tables, u: Tables, r: RunId)
    requires r in t.runs && r in u.runs
  {
    var a, b := t.runs[r].status, u.runs[r].status;
    a == b || (Active(a) && !Finished(b)) ||
    (Finished(b) && !Rejectable(u, r)
     && (b == Succeeded ==> HasArtifact(u.flow.artifacts, r)
                            && (r in u.flow.handoffs ==> u.flow.handoffs[r].state == Accepted))
     && (b == Canceled ==> !HasArtifact(u.flow.artifacts, r) && !PendingNames(u.gates.approvals, r)))
  }

  predicate RunsSteady(t: Tables, u: Tables) {
    t.runs.Keys == u.runs.Keys &&
    (forall r | r in u.runs :: RunMove(t.runs[r], u.runs[r]))
  }

  predicate OccupancySteady(runs: Runs, after: Runs)
    requires runs.Keys == after.Keys
  {
    (forall r :: r in after && Occupies(after[r]) ==> Occupies(runs[r])) &&
    (forall r :: r in after && after[r].load == Loading ==> runs[r].load == Loading)
  }

  predicate StatusSteady(t: Tables, u: Tables)
    requires t.runs.Keys == u.runs.Keys
  {
    forall r | r in u.runs :: StatusMove(t, u, r)
  }

  predicate TasksSteady(t: Tables, u: Tables) {
    t.tasks.Keys == u.tasks.Keys &&
    (forall k | k in u.tasks ::
      t.tasks[k].current == u.tasks[k].current && t.tasks[k].bot == u.tasks[k].bot
      && u.tasks[k].current in u.runs && Projects(u.tasks[k].status, u.runs[u.tasks[k].current].status))
  }

  predicate GatesSteady(t: Gates, u: Gates) {
    t.approvals.Keys == u.approvals.Keys && t.actions.Keys == u.actions.Keys &&
    (forall a | a in u.approvals ::
      t.approvals[a].run == u.approvals[a].run && t.approvals[a].task == u.approvals[a].task
      && (u.approvals[a].state == Pending ==> t.approvals[a].state == Pending)) &&
    (forall x | x in u.actions ::
      t.actions[x].run == u.actions[x].run && t.actions[x].kind == u.actions[x].kind
      && t.actions[x].approval == u.actions[x].approval) &&
    (forall x | x in u.actions && u.actions[x].approval.Some? && u.actions[x].approval.value in u.approvals
      && u.approvals[u.actions[x].approval.value].state == Pending :: t.actions[x].state == u.actions[x].state)
  }

  predicate FlowSteady(t: Tables, u: Tables) {
    t.flow.artifacts == u.flow.artifacts && t.flow.handoffs.Keys == u.flow.handoffs.Keys &&
    (forall r | r in u.flow.handoffs ::
      t.flow.handoffs[r].(state := u.flow.handoffs[r].state) == u.flow.handoffs[r]
      && (t.flow.handoffs[r].state == u.flow.handoffs[r].state ||
          (t.flow.handoffs[r].state == Proposed && u.flow.handoffs[r].state != Accepted && r in u.runs
           && (u.runs[r].status == Failed || u.runs[r].status == Canceled))))
  }

  predicate Steady(t: Tables, u: Tables) {
    RunsSteady(t, u) && OccupancySteady(t.runs, u.runs) && StatusSteady(t, u) && TasksSteady(t, u)
    && GatesSteady(t.gates, u.gates) && FlowSteady(t, u) && t.stopped == u.stopped
  }

  lemma SteadyRuns(t: Tables, u: Tables)
    requires RunsSteady(t, u) && TasksSteady(t, u) && RunsLinked(t.tasks, t.runs)
    ensures RunsLinked(u.tasks, u.runs)
  {
  }

  lemma SteadyApprovals(t: Tables, u: Tables)
    requires RunsSteady(t, u) && GatesSteady(t.gates, u.gates) && FlowSteady(t, u)
      && ApprovalsLinked(t.runs, t.gates.approvals, t.flow.handoffs)
    ensures ApprovalsLinked(u.runs, u.gates.approvals, u.flow.handoffs)
  {
  }

  lemma SteadyActions(t: Tables, u: Tables)
    requires RunsSteady(t, u) && GatesSteady(t.gates, u.gates) && ActionsLinked(t.runs, t.gates)
    ensures ActionsLinked(u.runs, u.gates)
  {
  }

  lemma SteadyHandoffs(t: Tables, u: Tables)
    requires RunsSteady(t, u) && FlowSteady(t, u) && HandoffsLinked(t.runs, t.flow.handoffs)
    ensures HandoffsLinked(u.runs, u.flow.handoffs)
  {
  }

  lemma SteadyOwned(t: Tables, u: Tables)
    requires TasksSteady(t, u) && FlowSteady(t, u) && Owned(t.tasks, t.flow.handoffs)
    ensures Owned(u.tasks, u.flow.handoffs)
  {
  }

  lemma SteadyDrafted(t: Tables, u: Tables)
    requires GatesSteady(t.gates, u.gates) && FlowSteady(t, u) && Drafted(t.gates.actions, t.flow.handoffs)
    ensures Drafted(u.gates.actions, u.flow.handoffs)
  {
  }

  lemma SteadyAuthored(t: Tables, u: Tables)
    requires RunsSteady(t, u) && FlowSteady(t, u) && Authored(t.runs, t.flow)
    ensures Authored(u.runs, u.flow)
  {
  }

  lemma SteadyProjected(t: Tables, u: Tables)
    requires RunsSteady(t, u) && TasksSteady(t, u) && Projected(t.tasks, t.runs)
    ensures Projected(u.tasks, u.runs)
  {
  }

  lemma SteadyAdmitted(t: Tables, u: Tables)
    requires RunsSteady(t, u) && OccupancySteady(t.runs, u.runs) && Admitted(t.runs)
    ensures Admitted(u.runs)
  {
  }

  lemma SteadyGated(t: Tables, u: Tables)
    requires RunsSteady(t, u) && StatusSteady(t, u) && GatesSteady(t.gates, u.gates) && Gated(t.runs, t.gates)
    ensures Gated(u.runs, u.gates)
  {
  }

  lemma SteadyBounded(t: Tables, u: Tables)
    requires RunsSteady(t, u) && StatusSteady(t, u) && FlowSteady(t, u) && Bounded(t.runs, t.flow.handoffs)
    ensures Bounded(u.runs, u.flow.handoffs)
  {
  }

  lemma SteadyDelivered(t: Tables, u: Tables)
    requires RunsSteady(t, u) && StatusSteady(t, u) && FlowSteady(t, u) && Delivered(t.runs, t.flow.artifacts)
    ensures Delivered(u.runs, u.flow.artifacts)
  {
  }

  lemma SteadyBudgeted(t: Tables, u: Tables)
    requires RunsSteady(t, u) && Budgeted(t.runs)
    ensures Budgeted(u.runs)
  {
  }

  lemma SteadyBarred(t: Tables, u: Tables)
    requires RunsSteady(t, u) && OccupancySteady(t.runs, u.runs) && GatesSteady(t.gates, u.gates)
    requires t.stopped == u.stopped && Barred(t.runs, t.gates.approvals, t.stopped)
    ensures Barred(u.runs, u.gates.approvals, u.stopped)
  {
  }

  lemma SteadyKeeps(t: Tables, u: Tables)
    requires Inv(t) && Steady(t, u)
    ensures Inv(u)
  {
    hide RunsLinked, ApprovalsLinked, ActionsLinked, HandoffsLinked, Owned, Drafted, Authored, Projected, Admitted,
      Gated, Bounded, Delivered, Budgeted,
      Barred, RunsSteady, OccupancySteady, StatusSteady, TasksSteady, GatesSteady, FlowSteady;
    SteadyRuns(t, u);
    SteadyApprovals(t, u);
    SteadyActions(t, u);
    SteadyHandoffs(t, u);
    SteadyOwned(t, u);
    SteadyDrafted(t, u);
    SteadyAuthored(t, u);
    SteadyProjected(t, u);
    SteadyAdmitted(t, u);
    SteadyGated(t, u);
    SteadyBounded(t, u);
    SteadyDelivered(t, u);
    SteadyBudgeted(t, u);
    SteadyBarred(t, u);
  }
}
