/** Every transaction keeps the invariant, so it holds in every reachable state. */
module Reachability {
  import opened Types
  import opened Rows
  import opened Transactions
  import opened Invariants
  import opened Preservation
  import opened Insertions

  // ---------- updates shared by several transactions ----------

  lemma FinishKeeps(t: Tables, r: RunId, status: RunStatus, now: int, latest: Option<ArtifactId>)
    requires Inv(t) && r in t.runs && MayFinish(t, r, status)
    ensures Inv(FinishRows(t, r, status, now, latest))
  {
    hide Projected, Steady, Links;
    FinishSteady(t, r, status, now, latest);
    SteadyKeeps(t, FinishRows(t, r, status, now, latest));
  }

  lemma SetStatusKeeps(t: Tables, r: RunId, status: RunStatus)
    requires Inv(t) && r in t.runs && Active(t.runs[r].status) && !Finished(status)
    ensures Inv(SetStatus(t, r, status))
  {
    hide Projected, Steady, Links;
    SetStatusSteady(t, r, status);
    SteadyKeeps(t, SetStatus(t, r, status));
  }

  lemma SettleKeeps(t: Tables, a: ApprovalId, to: GateState, resolver: Option<SessionId>)
    requires Inv(t) && a in t.gates.approvals && to != Pending
    ensures Inv(SettleApproval(t, a, to, resolver))
  {
    hide Projected, Steady, Links;
    SettleSteady(t, a, to, resolver);
    SteadyKeeps(t, SettleApproval(t, a, to, resolver));
  }

  lemma DropActionsKeeps(t: Tables, r: RunId, states: set<GateState>)
    requires Inv(t) && !PendingNames(t.gates.approvals, r)
    ensures Inv(DropActions(t, r, states))
  {
    hide Projected, Steady, ActionsLinked, PendingNames;
    DropActionsSteady(t, r, states);
    SteadyKeeps(t, DropActions(t, r, states));
  }

  lemma FailLoadsKeeps(t: Tables)
    requires Inv(t)
    ensures Inv(FailLoads(t))
  {
    hide Projected, Steady, Links;
    FailLoadsSteady(t);
    SteadyKeeps(t, FailLoads(t));
  }

  lemma DropApprovalsKeeps(t: Tables, r: RunId)
    requires Inv(t)
    ensures Inv(DropApprovals(t, r)) && !PendingNames(DropApprovals(t, r).gates.approvals, r)
  {
    hide Projected, Steady, Links, PendingNames;
    DropApprovalsSteady(t, r);
    SteadyKeeps(t, DropApprovals(t, r));
  }

  lemma DropAllApprovalsKeeps(t: Tables)
    requires Inv(t)
    ensures Inv(DropAllApprovals(t)) && forall r :: !PendingNames(DropAllApprovals(t).gates.approvals, r)
  {
    hide Projected, Steady, Links, PendingNames;
    DropAllApprovalsSteady(t);
    SteadyKeeps(t, DropAllApprovals(t));
  }

  /** A recipient run has no approvals, and before acceptance no artifact. */
  lemma ProposedRecipient(t: Tables, r: RunId)
    requires Inv(t) && r in t.flow.handoffs
    ensures r in t.runs && !PendingNames(t.gates.approvals, r)
    ensures t.flow.handoffs[r].state == Proposed ==> !HasArtifact(t.flow.artifacts, r) && !Finished(t.runs[r].status)
  {
    hide RunsLinked, ActionsLinked, Owned, Drafted, Projected, Admitted, Gated, Delivered, Budgeted, Barred;
    RecipientRow(t.runs, t.flow.handoffs, r);
  }

  lemma RejectKeeps(t: Tables, r: RunId, to: HandoffState, status: RunStatus, now: int)
    requires Inv(t) && (to == Rejected || to == Lapsed) && (status == Failed || status == Canceled)
    ensures Inv(RejectRows(t, r, to, status, now))
  {
    if Rejectable(t, r) {
      hide Projected, Steady, Links, PendingNames, HasArtifact;
      ProposedRecipient(t, r);
      var u := FinishRows(SetHandoff(t, r, to), r, status, now, None);
      RejectSteady(t, r, to, status, now);
      SteadyKeeps(t, u);
      DropActionsKeeps(u, r, {Pending});
    }
  }

  lemma SettleFrame(t: Tables, a: ApprovalId, to: GateState, resolver: Option<SessionId>)
    requires a in t.gates.approvals
    ensures var u := SettleApproval(t, a, to, resolver);
      u.tasks == t.tasks && u.runs == t.runs && u.flow == t.flow && u.stopped == t.stopped
  {
  }

  lemma FinishFrame(t: Tables, r: RunId, status: RunStatus, now: int, latest: Option<ArtifactId>)
    requires Finished(status)
    ensures var u := FinishRows(t, r, status, now, latest);
      u.gates == t.gates && u.flow == t.flow && u.stopped == t.stopped && u.runs.Keys == t.runs.Keys
  {
  }

  lemma ExpireKeeps(t: Tables, a: ApprovalId, now: int)
    requires Inv(t) && a in t.gates.approvals
    ensures Inv(ExpireRows(t, a, now))
  {
    hide Inv, SettleApproval, FinishRows;
    ApprovalRun(t, a);
    var u := SettleApproval(t, a, Expired, t.gates.approvals[a].resolver);
    SettleKeeps(t, a, Expired, t.gates.approvals[a].resolver);
    SettleFrame(t, a, Expired, t.gates.approvals[a].resolver);
    FinishKeeps(u, t.gates.approvals[a].run, Failed, now, None);
  }

  lemma ApprovalRun(t: Tables, a: ApprovalId)
    requires Inv(t) && a in t.gates.approvals
    ensures t.gates.approvals[a].run in t.runs && t.gates.approvals[a].run !in t.flow.handoffs
    ensures t.gates.approvals[a].task == t.runs[t.gates.approvals[a].run].task
  {
    hide RunsLinked, ActionsLinked, HandoffsLinked, Owned, Drafted, Authored, Live;
  }

  // ---------- canceling ----------

  predicate Cancelable(t: Tables, r: RunId) {
    r in t.runs && !Finished(t.runs[r].status)
  }

  /** What rejecting leaves in place, whether or not there was a proposed handoff. */
  lemma RejectFrame(t: Tables, r: RunId, to: HandoffState, status: RunStatus, now: int)
    requires Finished(status) && to != Proposed
    ensures var u := RejectRows(t, r, to, status, now);
      !Rejectable(u, r) && u.runs.Keys == t.runs.Keys && u.flow.artifacts == t.flow.artifacts
      && u.gates.approvals == t.gates.approvals && u.stopped == t.stopped
  {
  }

  lemma CancelableHasNoArtifact(t: Tables, r: RunId)
    requires Inv(t) && Cancelable(t, r)
    ensures !HasArtifact(t.flow.artifacts, r)
  {
    hide Links, Projected, Admitted, Gated, Bounded, Budgeted, Barred, Delivered, HasArtifact;
    ActiveHasNoArtifact(t, r);
  }

  lemma CancelOneKeeps(t: Tables, r: RunId, now: int)
    requires Inv(t) && Cancelable(t, r) && !PendingNames(t.gates.approvals, r)
    ensures Inv(CancelRows(t, r, now))
  {
    hide Inv, PendingNames, HasArtifact, RejectRows, FinishRows, DropActions;
    CancelableHasNoArtifact(t, r);
    RejectKeeps(t, r, Rejected, Canceled, now);
    RejectFrame(t, r, Rejected, Canceled, now);
    var u := RejectRows(t, r, Rejected, Canceled, now);
    FinishKeeps(u, r, Canceled, now, None);
    FinishFrame(u, r, Canceled, now, None);
    DropActionsKeeps(FinishRows(u, r, Canceled, now, None), r, {Pending, Allowed});
  }

  function Regate(t: Tables, approvals: Approvals, stopped: bool): Tables {
    t.(gates := t.gates.(approvals := approvals), stopped := stopped)
  }

  lemma RejectRegates(t: Tables, approvals: Approvals, stopped: bool, r: RunId, now: int)
    ensures RejectRows(Regate(t, approvals, stopped), r, Rejected, Canceled, now)
         == Regate(RejectRows(t, r, Rejected, Canceled, now), approvals, stopped)
  {
  }

  /** Canceling a run reads neither the approvals nor the latch, so changing those before or after is the same. */
  lemma CancelRegates(t: Tables, approvals: Approvals, stopped: bool, r: RunId, now: int)
    ensures CancelRows(Regate(t, approvals, stopped), r, now) == Regate(CancelRows(t, r, now), approvals, stopped)
    ensures CancelRows(t, r, now).gates.approvals == t.gates.approvals && CancelRows(t, r, now).stopped == t.stopped
  {
    RejectRegates(t, approvals, stopped, r, now);
    RejectFrame(t, r, Rejected, Canceled, now);
    hide RejectRows;
  }

  lemma CancelKeeps(t: Tables, r: RunId, now: int)
    requires Inv(t) && Cancelable(t, r)
    ensures Inv(DropApprovals(CancelRows(t, r, now), r))
  {
    hide Inv, CancelRows, PendingNames;
    var d := DropApprovals(t, r);
    DropApprovalsKeeps(t, r);
    CancelOneKeeps(d, r, now);
    CancelRegates(t, d.gates.approvals, t.stopped, r, now);
    var u := CancelRows(t, r, now);
    assert d == Regate(t, d.gates.approvals, t.stopped);
    assert DropApprovals(u, r).gates.approvals == d.gates.approvals;
  }
}
