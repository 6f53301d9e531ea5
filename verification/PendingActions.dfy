/** What the pending actions say in every reachable state: each run has one launch, claimed just when it was started; each
    approval one tool action, which follows the decision; and each accepted handoff its draft. */
module PendingActions {
  import opened Types
  import opened Rows
  import opened Transactions
  import opened Invariants
  import opened Reachability
  import opened Stopping
  import opened Sweeping
  import opened Reachable

  predicate IsLaunch(actions: Actions, x: ActionId, r: RunId) {
    x in actions && actions[x].kind == Launch && actions[x].run == r
  }

  predicate IsDraft(actions: Actions, x: ActionId, r: RunId) {
    x in actions && actions[x].kind == HandoffDraft && actions[x].run == r
  }

  predicate IsTool(actions: Actions, x: ActionId, a: ApprovalId) {
    x in actions && actions[x].kind == Tool && actions[x].approval == Some(a)
  }

  ghost predicate OneLaunch(runs: set<RunId>, actions: Actions) {
    (forall r | r in runs :: exists x :: IsLaunch(actions, x, r)) &&
    (forall x, y, r :: IsLaunch(actions, x, r) && IsLaunch(actions, y, r) ==> x == y) &&
    (forall x | x in actions :: actions[x].run in runs)
  }

  ghost predicate OneTool(approvals: set<ApprovalId>, actions: Actions) {
    (forall a | a in approvals :: exists x :: IsTool(actions, x, a)) &&
    (forall x, y, a :: IsTool(actions, x, a) && IsTool(actions, y, a) ==> x == y) &&
    (forall x | x in actions && actions[x].approval.Some? :: actions[x].kind == Tool && actions[x].approval.value in approvals)
  }

  ghost predicate HasDrafts(handoffs: Handoffs, actions: Actions) {
    forall r | r in handoffs && handoffs[r].state == Accepted :: exists x :: IsDraft(actions, x, r)
  }

  /** A launch is claimed just when its run has a session, and not dropped while the run is active. */
  predicate LaunchesFollow(runs: Runs, actions: Actions) {
    forall x | x in actions && actions[x].kind == Launch && actions[x].run in runs ::
      (actions[x].state == Claimed <==> runs[actions[x].run].session.Some?)
      && (Active(runs[actions[x].run].status) ==> actions[x].state == Pending || actions[x].state == Claimed)
  }

  /** What an action may say next to its approval: the same, or that it was dropped; of a dropped approval it may also not
      have heard. */
  predicate Follows(approval: GateState, action: GateState) {
    action == approval || action == Dropped || (approval == Dropped && action == Pending)
  }

  predicate ToolsFollow(approvals: Approvals, actions: Actions) {
    forall x | x in actions && actions[x].approval.Some? && actions[x].approval.value in approvals ::
      Follows(approvals[actions[x].approval.value].state, actions[x].state)
  }

  ghost predicate Manned(t: Tables) {
    OneLaunch(t.runs.Keys, t.gates.actions) && OneTool(t.gates.approvals.Keys, t.gates.actions)
    && HasDrafts(t.flow.handoffs, t.gates.actions) && LaunchesFollow(t.runs, t.gates.actions)
    && ToolsFollow(t.gates.approvals, t.gates.actions)
  }

  // ---------- updates that add no row ----------

  predicate SameActions(actions: Actions, later: Actions) {
    later.Keys == actions.Keys
    && forall x | x in actions :: later[x].(state := actions[x].state) == actions[x]
  }

  predicate NoneAccepted(handoffs: Handoffs, later: Handoffs) {
    forall r | r in later && later[r].state == Accepted :: r in handoffs && handoffs[r].state == Accepted
  }

  /** Which actions there are stays as it was. */
  lemma SameRows(t: Tables, u: Tables)
    requires Manned(t) && SameActions(t.gates.actions, u.gates.actions) && u.runs.Keys == t.runs.Keys
    requires u.gates.approvals.Keys == t.gates.approvals.Keys && NoneAccepted(t.flow.handoffs, u.flow.handoffs)
    ensures OneLaunch(u.runs.Keys, u.gates.actions) && OneTool(u.gates.approvals.Keys, u.gates.actions)
    ensures HasDrafts(u.flow.handoffs, u.gates.actions)
  {
    var before, after := t.gates.actions, u.gates.actions;
    assert forall x, r :: IsLaunch(before, x, r) <==> IsLaunch(after, x, r);
    assert forall x, r :: IsDraft(before, x, r) <==> IsDraft(after, x, r);
    assert forall x, a :: IsTool(before, x, a) <==> IsTool(after, x, a);
    hide IsLaunch, IsDraft, IsTool;
  }

  /** The actions are as they were, and no run was started or woken. */
  lemma RestManned(t: Tables, u: Tables)
    requires Manned(t) && u.gates == t.gates && u.runs.Keys == t.runs.Keys && NoneAccepted(t.flow.handoffs, u.flow.handoffs)
    requires forall r | r in t.runs :: u.runs[r].session == t.runs[r].session
    requires forall r | r in t.runs && Active(u.runs[r].status) :: Active(t.runs[r].status)
    ensures Manned(u)
  {
    SameRows(t, u);
    hide OneLaunch, OneTool, HasDrafts;
  }

  lemma FinishManned(t: Tables, r: RunId, status: RunStatus, now: int, latest: Option<ArtifactId>)
    requires Manned(t) && Finished(status)
    ensures Manned(FinishRows(t, r, status, now, latest))
  {
    RestManned(t, FinishRows(t, r, status, now, latest));
  }

  lemma StatusManned(t: Tables, r: RunId, status: RunStatus)
    requires Manned(t) && (r in t.runs && Active(status) ==> Active(t.runs[r].status))
    ensures Manned(SetStatus(t, r, status))
  {
    RestManned(t, SetStatus(t, r, status));
  }

  /** Every action is as it was, or one of these moved to this state. */
  predicate Moved(actions: Actions, later: Actions, these: set<ActionId>, to: GateState) {
    SameActions(actions, later)
    && forall x | x in actions :: later[x].state == if x in these then to else actions[x].state
  }

  function Droppable(t: Tables, r: RunId, states: set<GateState>): set<ActionId> {
    set x | x in t.gates.actions && t.gates.actions[x].run == r && t.gates.actions[x].state in states
  }

  function Claimable(t: Tables, r: RunId, kind: ActionKind): set<ActionId> {
    set x | x in t.gates.actions && t.gates.actions[x].run == r && t.gates.actions[x].kind == kind
                                 && t.gates.actions[x].state == Pending
  }

  function Waiting(t: Tables, a: ApprovalId): set<ActionId> {
    set x | x in t.gates.actions && t.gates.actions[x].approval == Some(a) && t.gates.actions[x].state == Pending
  }

  lemma DroppedActions(t: Tables, r: RunId, states: set<GateState>)
    ensures var u := DropActions(t, r, states);
      u == t.(gates := t.gates.(actions := u.gates.actions))
      && Moved(t.gates.actions, u.gates.actions, Droppable(t, r, states), Dropped)
  {
  }

  lemma ClaimedActions(t: Tables, r: RunId, kind: ActionKind)
    ensures var u := ClaimActions(t, r, kind);
      u == t.(gates := t.gates.(actions := u.gates.actions))
      && Moved(t.gates.actions, u.gates.actions, Claimable(t, r, kind), Claimed)
  {
  }

  lemma SettledActions(t: Tables, a: ApprovalId, to: GateState, resolver: Option<SessionId>)
    requires a in t.gates.approvals
    ensures var u := SettleApproval(t, a, to, resolver);
      u == t.(gates := u.gates) && Moved(t.gates.actions, u.gates.actions, Waiting(t, a), to)
      && u.gates.approvals == t.gates.approvals[a := t.gates.approvals[a].(state := to, resolver := resolver)]
  {
  }

  lemma LaunchesKept(runs: Runs, actions: Actions, later: Actions, these: set<ActionId>, to: GateState)
    requires LaunchesFollow(runs, actions) && Moved(actions, later, these, to)
    requires forall x | x in these && x in actions && actions[x].kind == Launch && actions[x].run in runs ::
      to == Dropped && actions[x].state != Claimed && !Active(runs[actions[x].run].status)
    ensures LaunchesFollow(runs, later)
  {
  }

  lemma ToolsKept(approvals: Approvals, actions: Actions, later: Actions, these: set<ActionId>, to: GateState)
    requires ToolsFollow(approvals, actions) && Moved(actions, later, these, to)
    requires to == Dropped || forall x | x in these && x in actions :: actions[x].approval.None?
    ensures ToolsFollow(approvals, later)
  {
  }

  lemma ToolsAreTools(t: Tables)
    requires OneTool(t.gates.approvals.Keys, t.gates.actions)
    ensures forall x :: x in t.gates.actions && t.gates.actions[x].approval.Some? ==> t.gates.actions[x].kind == Tool
  {
  }

  /** Dropping actions of a run that is not active. */
  lemma DropManned(t: Tables, r: RunId, states: set<GateState>)
    requires Manned(t) && Claimed !in states && (r in t.runs ==> !Active(t.runs[r].status))
    ensures Manned(DropActions(t, r, states))
  {
    hide DropActions, OneLaunch, OneTool, HasDrafts, LaunchesFollow, ToolsFollow, SameActions;
    var u := DropActions(t, r, states);
    DroppedActions(t, r, states);
    SameRows(t, u);
    LaunchesKept(t.runs, t.gates.actions, u.gates.actions, Droppable(t, r, states), Dropped);
    ToolsKept(t.gates.approvals, t.gates.actions, u.gates.actions, Droppable(t, r, states), Dropped);
  }

  lemma RejectManned(t: Tables, r: RunId, to: HandoffState, status: RunStatus, now: int)
    requires Manned(t) && Finished(status) && to != Accepted
    ensures Manned(RejectRows(t, r, to, status, now))
  {
    if Rejectable(t, r) {
      var u := SetHandoff(t, r, to);
      RestManned(t, u);
      FinishManned(u, r, status, now, None);
      DropManned(FinishRows(u, r, status, now, None), r, {Pending});
    }
  }

  lemma CancelManned(t: Tables, r: RunId, now: int)
    requires Manned(t)
    ensures Manned(CancelRows(t, r, now))
  {
    hide Manned, RejectRows;
    var u := RejectRows(t, r, Rejected, Canceled, now);
    RejectManned(t, r, Rejected, Canceled, now);
    FinishManned(u, r, Canceled, now, None);
    DropManned(FinishRows(u, r, Canceled, now, None), r, {Pending, Allowed});
  }

  lemma ClaimManned(t: Tables, r: RunId)
    requires Manned(t)
    ensures Manned(ClaimActions(t, r, HandoffDraft))
  {
    hide ClaimActions, OneLaunch, OneTool, HasDrafts, LaunchesFollow, ToolsFollow, SameActions;
    var u := ClaimActions(t, r, HandoffDraft);
    ClaimedActions(t, r, HandoffDraft);
    SameRows(t, u);
    ToolsAreTools(t);
    LaunchesKept(t.runs, t.gates.actions, u.gates.actions, Claimable(t, r, HandoffDraft), Claimed);
    ToolsKept(t.gates.approvals, t.gates.actions, u.gates.actions, Claimable(t, r, HandoffDraft), Claimed);
  }

  lemma SettleManned(t: Tables, a: ApprovalId, to: GateState, resolver: Option<SessionId>)
    requires Manned(t) && a in t.gates.approvals && t.gates.approvals[a].state == Pending
    ensures Manned(SettleApproval(t, a, to, resolver))
  {
    hide SettleApproval, OneLaunch, OneTool, HasDrafts, LaunchesFollow, ToolsFollow, SameActions;
    var u := SettleApproval(t, a, to, resolver);
    SettledActions(t, a, to, resolver);
    SameRows(t, u);
    ToolsAreTools(t);
    LaunchesKept(t.runs, t.gates.actions, u.gates.actions, Waiting(t, a), to);
    ToolsSettled(t, u, a, to, resolver);
  }

  lemma ToolsSettled(t: Tables, u: Tables, a: ApprovalId, to: GateState, resolver: Option<SessionId>)
    requires ToolsFollow(t.gates.approvals, t.gates.actions) && a in t.gates.approvals && t.gates.approvals[a].state == Pending
    requires u.gates.approvals == t.gates.approvals[a := t.gates.approvals[a].(state := to, resolver := resolver)]
    requires Moved(t.gates.actions, u.gates.actions, Waiting(t, a), to)
    ensures ToolsFollow(u.gates.approvals, u.gates.actions)
  {
  }

  lemma ExpireManned(t: Tables, a: ApprovalId, now: int)
    requires Manned(t) && a in t.gates.approvals && t.gates.approvals[a].state == Pending
    ensures Manned(ExpireRows(t, a, now))
  {
    hide Manned, FinishRows, SettleApproval;
    SettleManned(t, a, Expired, t.gates.approvals[a].resolver);
    FinishManned(SettleApproval(t, a, Expired, t.gates.approvals[a].resolver), t.gates.approvals[a].run, Failed, now, None);
  }

  lemma DropApprovalsManned(t: Tables, r: RunId)
    requires Manned(t)
    ensures Manned(DropApprovals(t, r)) && Manned(DropAllApprovals(t))
  {
    SameRows(t, DropApprovals(t, r));
    SameRows(t, DropAllApprovals(t));
    hide OneLaunch, OneTool, HasDrafts;
  }

  lemma FailLoadsManned(t: Tables)
    requires Manned(t)
    ensures Manned(FailLoads(t))
  {
    RestManned(t, FailLoads(t));
  }

  /** Starting a run claims its launch. */
  lemma StartManned(t: Tables, r: RunId, session: SessionId, now: int)
    requires Manned(t) && r in t.runs && Active(t.runs[r].status)
    ensures Manned(StartRows(t, r, session, now))
  {
    hide ClaimActions, StartTasks, OneLaunch, OneTool, HasDrafts, LaunchesFollow, ToolsFollow, SameActions;
    var v, u := StartTasks(StartRun(t, r, session, now), r, now), StartRows(t, r, session, now);
    StartedTasks(StartRun(t, r, session, now), r, now);
    ClaimedActions(v, r, Launch);
    SameRows(t, u);
    ToolsAreTools(t);
    StartedFollows(t, u, r);
    ToolsKept(t.gates.approvals, t.gates.actions, u.gates.actions, Claimable(t, r, Launch), Claimed);
  }

  lemma StartedTasks(t: Tables, r: RunId, now: int)
    ensures StartTasks(t, r, now) == t.(tasks := StartTasks(t, r, now).tasks)
  {
  }

  lemma StartedFollows(t: Tables, u: Tables, r: RunId)
    requires LaunchesFollow(t.runs, t.gates.actions) && r in t.runs && Active(t.runs[r].status)
    requires u.runs.Keys == t.runs.Keys && u.runs[r].session.Some? && forall q | q in t.runs && q != r :: u.runs[q] == t.runs[q]
    requires Moved(t.gates.actions, u.gates.actions, Claimable(t, r, Launch), Claimed)
    ensures LaunchesFollow(u.runs, u.gates.actions)
  {
  }

  // ---------- updates that add rows ----------

  /** An action that was not there before. */
  lemma AddedAction(actions: Actions, x: ActionId, action: Action)
    requires x !in actions
    ensures var later := actions[x := action];
      && (forall y: ActionId, r: RunId ::
            IsLaunch(later, y, r) <==>
            IsLaunch(actions, y, r) || (y == x && action.kind == Launch && action.run == r))
      && (forall y: ActionId, r: RunId ::
            IsDraft(later, y, r) <==>
            IsDraft(actions, y, r) || (y == x && action.kind == HandoffDraft && action.run == r))
      && (forall y: ActionId, a: ApprovalId ::
            IsTool(later, y, a) <==>
            IsTool(actions, y, a) || (y == x && action.kind == Tool && action.approval == Some(a)))
  {
  }

  lemma BeginManned(t: Tables, u: Tables, r: RunId, row: Run, x: ActionId)
    requires Manned(t) && r !in t.runs && x !in t.gates.actions && row.session.None? && u.runs == t.runs[r := row]
    requires u.gates == t.gates.(actions := t.gates.actions[x := Action(r, Launch, Pending, None)])
    requires NoneAccepted(t.flow.handoffs, u.flow.handoffs)
    ensures Manned(u)
  {
    hide OneLaunch, OneTool, HasDrafts, LaunchesFollow, ToolsFollow, NoneAccepted;
    var action := Action(r, Launch, Pending, None);
    LaunchAdded(t.runs.Keys, t.gates.actions, r, x);
    KeptTools(t.gates.approvals.Keys, t.gates.actions, x, action);
    KeptDrafts(t, u);
    LaunchFollows(t.runs, t.gates.actions, r, row, x);
    ToolFollows(t.gates.approvals, t.gates.actions, x, action);
    assert u.runs.Keys == t.runs.Keys + {r};
  }

  lemma LaunchAdded(runs: set<RunId>, actions: Actions, r: RunId, x: ActionId)
    requires OneLaunch(runs, actions) && r !in runs && x !in actions
    ensures OneLaunch(runs + {r}, actions[x := Action(r, Launch, Pending, None)])
  {
    var later := actions[x := Action(r, Launch, Pending, None)];
    AddedAction(actions, x, Action(r, Launch, Pending, None));
    assert forall y: ActionId :: !IsLaunch(actions, y, r);
    assert IsLaunch(later, x, r);
    forall q | q in runs ensures exists y :: IsLaunch(later, y, q) {
      var y :| IsLaunch(actions, y, q);
      assert IsLaunch(later, y, q);
    }
  }

  lemma KeptLaunches(runs: set<RunId>, actions: Actions, x: ActionId, action: Action)
    requires OneLaunch(runs, actions) && x !in actions && action.kind != Launch && action.run in runs
    ensures OneLaunch(runs, actions[x := action])
  {
    var later := actions[x := action];
    AddedAction(actions, x, action);
    forall r | r in runs ensures exists y :: IsLaunch(later, y, r) {
      var y :| IsLaunch(actions, y, r);
      assert IsLaunch(later, y, r);
    }
  }

  lemma ToolAdded(approvals: set<ApprovalId>, actions: Actions, r: RunId, a: ApprovalId, x: ActionId)
    requires OneTool(approvals, actions) && a !in approvals && x !in actions
    ensures OneTool(approvals + {a}, actions[x := Action(r, Tool, Pending, Some(a))])
  {
    var later := actions[x := Action(r, Tool, Pending, Some(a))];
    AddedAction(actions, x, Action(r, Tool, Pending, Some(a)));
    assert forall y: ActionId :: !IsTool(actions, y, a);
    assert IsTool(later, x, a);
    forall b | b in approvals ensures exists y :: IsTool(later, y, b) {
      var y :| IsTool(actions, y, b);
      assert IsTool(later, y, b);
    }
  }

  lemma KeptTools(approvals: set<ApprovalId>, actions: Actions, x: ActionId, action: Action)
    requires OneTool(approvals, actions) && x !in actions && action.kind != Tool && action.approval.None?
    ensures OneTool(approvals, actions[x := action])
  {
    var later := actions[x := action];
    AddedAction(actions, x, action);
    forall a | a in approvals ensures exists y :: IsTool(later, y, a) {
      var y :| IsTool(actions, y, a);
      assert IsTool(later, y, a);
    }
  }

  lemma KeptDrafts(t: Tables, u: Tables)
    requires HasDrafts(t.flow.handoffs, t.gates.actions) && NoneAccepted(t.flow.handoffs, u.flow.handoffs)
    requires forall x :: x in t.gates.actions ==> x in u.gates.actions && u.gates.actions[x] == t.gates.actions[x]
    ensures HasDrafts(u.flow.handoffs, u.gates.actions)
  {
    forall r | r in u.flow.handoffs && u.flow.handoffs[r].state == Accepted ensures exists x :: IsDraft(u.gates.actions, x, r) {
      var x :| IsDraft(t.gates.actions, x, r);
      assert IsDraft(u.gates.actions, x, r);
    }
  }

  lemma DraftAdded(handoffs: Handoffs, actions: Actions, r: RunId, h: Handoff, x: ActionId)
    requires HasDrafts(handoffs, actions) && x !in actions
    ensures HasDrafts(handoffs[r := h], actions[x := Action(r, HandoffDraft, Pending, None)])
  {
    var later := actions[x := Action(r, HandoffDraft, Pending, None)];
    assert IsDraft(later, x, r);
    forall q | q in handoffs && handoffs[q].state == Accepted ensures exists y :: IsDraft(later, y, q) {
      var y :| IsDraft(actions, y, q);
      assert IsDraft(later, y, q);
    }
  }

  lemma LaunchFollows(runs: Runs, actions: Actions, r: RunId, row: Run, x: ActionId)
    requires LaunchesFollow(runs, actions) && OneLaunch(runs.Keys, actions) && r !in runs && x !in actions && row.session.None?
    ensures LaunchesFollow(runs[r := row], actions[x := Action(r, Launch, Pending, None)])
  {
  }

  lemma OtherFollows(runs: Runs, after: Runs, actions: Actions, x: ActionId, action: Action)
    requires LaunchesFollow(runs, actions) && x !in actions && action.kind != Launch && after.Keys == runs.Keys
    requires forall r | r in runs :: after[r].session == runs[r].session && (Active(after[r].status) ==> Active(runs[r].status))
    ensures LaunchesFollow(after, actions[x := action])
  {
  }

  lemma ToolFollows(approvals: Approvals, actions: Actions, x: ActionId, action: Action)
    requires ToolsFollow(approvals, actions) && x !in actions && action.approval.None?
    ensures ToolsFollow(approvals, actions[x := action])
  {
  }

  lemma OpenFollows(approvals: Approvals, actions: Actions, a: ApprovalId, row: Approval, x: ActionId, action: Action)
    requires ToolsFollow(approvals, actions) && OneTool(approvals.Keys, actions) && x !in actions && a !in approvals
    requires action.approval == Some(a) && action.state == row.state
    ensures ToolsFollow(approvals[a := row], actions[x := action])
  {
    assert forall y | y in actions && actions[y].approval.Some? :: actions[y].approval.value in approvals.Keys;
  }

  lemma AcceptManned(t: Tables, r: RunId, x: ActionId, now: int)
    requires Manned(t) && r in t.flow.handoffs && r in t.runs && x !in t.gates.actions
    ensures Manned(AcceptRows(t, r, x, now))
  {
    hide OneLaunch, OneTool, HasDrafts, LaunchesFollow, ToolsFollow;
    var action := Action(r, HandoffDraft, Pending, None);
    KeptLaunches(t.runs.Keys, t.gates.actions, x, action);
    KeptTools(t.gates.approvals.Keys, t.gates.actions, x, action);
    DraftAdded(t.flow.handoffs, t.gates.actions, r, t.flow.handoffs[r].(state := Accepted), x);
    OtherFollows(t.runs, t.runs, t.gates.actions, x, action);
    ToolFollows(t.gates.approvals, t.gates.actions, x, action);
  }

  lemma OpenManned(t: Tables, r: RunId, task: TaskId, a: ApprovalId, x: ActionId, now: int)
    requires Manned(t) && Working(t, r) && a !in t.gates.approvals && x !in t.gates.actions
    ensures Manned(OpenApproval(t, r, task, a, x, now))
  {
    hide OneLaunch, OneTool, HasDrafts, LaunchesFollow, ToolsFollow;
    var u, action := OpenApproval(t, r, task, a, x, now), Action(r, Tool, Pending, Some(a));
    KeptLaunches(t.runs.Keys, t.gates.actions, x, action);
    ToolAdded(t.gates.approvals.Keys, t.gates.actions, r, a, x);
    KeptDrafts(t, u);
    OtherFollows(t.runs, u.runs, t.gates.actions, x, action);
    OpenFollows(t.gates.approvals, t.gates.actions, a, u.gates.approvals[a], x, action);
    assert u.gates.approvals.Keys == t.gates.approvals.Keys + {a};
    assert u.runs.Keys == t.runs.Keys;
  }

  // ---------- loops ----------

  lemma {:induction false} CancelEachManned(s: State, rows: seq<RunId>, now: int)
    requires Manned(s.t)
    ensures Manned(CancelEach(s, rows, now).t)
  {
    hide Manned, CancelRows;
    if rows != [] {
      CancelEachManned(s, rows[..|rows|-1], now);
      CancelManned(CancelEach(s, rows[..|rows|-1], now).t, rows[|rows|-1], now);
    }
  }

  lemma StopManned(s: State, rows: seq<RunId>, now: int)
    requires Manned(s.t)
    ensures Manned(StopRows(s, rows, now))
  {
    var s0 := s.(t := s.t.(stopped := true));
    RestManned(s.t, s0.t);
    hide Manned, CancelEach, FailLoads, DropAllApprovals;
    CancelEachManned(s0, rows, now);
    DropApprovalsManned(CancelEach(s0, rows, now).t, 0);
    FailLoadsManned(DropAllApprovals(CancelEach(s0, rows, now).t));
  }

  lemma {:induction false} LapseManned(s: State, rows: seq<RunId>, now: int)
    requires Manned(s.t)
    ensures Manned(LapseHandoffs(s, rows, now).s.t)
  {
    hide Manned, RejectRows;
    if rows != [] {
      LapseManned(s, rows[..|rows|-1], now);
      RejectManned(LapseHandoffs(s, rows[..|rows|-1], now).s.t, rows[|rows|-1], Lapsed, Failed, now);
    }
  }

  lemma {:induction false} OverdueManned(s: State, rows: seq<RunId>, now: int)
    requires Manned(s.t)
    ensures Manned(FailOverdue(s, rows, now).t)
  {
    hide Manned, FinishRows;
    if rows != [] {
      OverdueManned(s, rows[..|rows|-1], now);
      FinishManned(FailOverdue(s, rows[..|rows|-1], now).t, rows[|rows|-1], Failed, now, None);
    }
  }

  lemma {:induction false} ExpireEachManned(s: State, rows: seq<ApprovalId>, now: int)
    requires Manned(s.t) && ApprovalsHaveRuns(s.t)
    requires forall a :: a in rows ==> a in s.t.gates.approvals && s.t.gates.approvals[a].state == Pending
    requires forall i, j :: 0 <= i < j < |rows| ==> rows[i] != rows[j]
    ensures Manned(ExpireEach(s, rows, now).s.t)
  {
    hide Manned, ExpireRows;
    if rows != [] {
      var n := |rows| - 1;
      ExpireEachManned(s, rows[..n], now);
      ExpireEachFrame(s, rows[..n], now);
      assert rows[n] in rows && rows[n] !in rows[..n];
      ExpireManned(ExpireEach(s, rows[..n], now).s.t, rows[n], now);
    }
  }

  lemma SweepManned(s: State, hs: seq<RunId>, rs: seq<RunId>, xs: seq<ApprovalId>, now: int)
    requires Inv(s.t) && Manned(s.t) && SweepRows(s, hs, rs, xs, now)
    ensures Manned(Sweep(s, hs, rs, xs, now).s.t)
  {
    hide Manned, Inv, LapseHandoffs, FailOverdue, ExpireEach;
    var s1 := LapseHandoffs(s, hs, now).s;
    var s2 := FailOverdue(s1, rs, now);
    LapseManned(s, hs, now);
    OverdueManned(s1, rs, now);
    LapseKeeps(s, hs, now);
    OverdueIsDecided(s, hs, now);
    OverdueKeeps(s1, rs, now);
    RowsLinked(s2.t);
    ExpireEachManned(s2, xs, now);
  }

  lemma {:induction false} InterruptManned(s: State, rows: seq<RunId>, now: int)
    requires Manned(s.t)
    ensures Manned(InterruptEach(s, rows, now).t)
  {
    hide Manned, SetStatus;
    if rows != [] {
      InterruptManned(s, rows[..|rows|-1], now);
      StatusManned(InterruptEach(s, rows[..|rows|-1], now).t, rows[|rows|-1], Interrupted);
    }
  }

  // ---------- every transaction ----------

  lemma ResolveManned(s: State, input: Input, a: ApprovalId, allow: bool)
    requires Manned(s.t)
    ensures Manned(Resolve(s, input, a, allow).s.t)
  {
    hide Manned, SettleApproval, FinishRows, SetStatus, ExpireRows;
    if a in s.t.gates.approvals && s.t.gates.approvals[a].state == Pending {
      var r, to := s.t.gates.approvals[a].run, if allow then Allowed else Denied;
      var u := SettleApproval(s.t, a, to, Some(input.session));
      ExpireManned(s.t, a, input.now);
      SettleManned(s.t, a, to, Some(input.session));
      SettleFrame(s.t, a, to, Some(input.session));
      FinishManned(u, r, Failed, input.now, None);
      if r in s.t.runs && s.t.runs[r].status == WaitingApproval {
        StatusManned(u, r, Running);
      }
    }
  }

  lemma LoadManned(t: Tables, r: RunId, load: Load)
    requires Manned(t)
    ensures Manned(SetLoad(t, r, load))
  {
    RestManned(t, SetLoad(t, r, load));
  }

  lemma SubmitManned(s: State, input: Input, bot: BotChoice, unsupported: bool, plan: bool)
    requires Manned(s.t) && FreshIds(s.t, input.ids)
    ensures Manned(Submit(s, input, bot, unsupported, plan).s.t)
  {
    hide Manned, SubmitDenial;
    var u := Submit(s, input, bot, unsupported, plan).s.t;
    if SubmitDenial(s.t, input, bot, unsupported, plan).None? {
      BeginManned(s.t, u, input.ids.run, u.runs[input.ids.run], input.ids.action);
    }
  }

  lemma ProposeManned(s: State, input: Input, source: RunId)
    requires Manned(s.t) && FreshIds(s.t, input.ids)
    ensures Manned(Propose(s, input, source).s.t)
  {
    hide Manned, TaskHandedOff, HasSmallDraft, Occupants, OccupantsOf;
    var u := Propose(s, input, source).s.t;
    if ProposeDenial(s.t, input, source).None? {
      BeginManned(s.t, u, input.ids.run, u.runs[input.ids.run], input.ids.action);
    }
  }

  lemma DispatchManned(s: State, input: Input)
    requires Manned(s.t) && FreshIds(s.t, input.ids)
    ensures Manned(Dispatch(s, input).s.t)
  {
    hide Manned, Submit, Propose, Resolve, DropApprovals, CancelRows, SetLoad, SetStatus, CancelEach, FreshIds,
      Enumerates, LoadDenial;
    match input.command {
      case SubmitTask(bot, unsupported, plan) => SubmitManned(s, input, bot, unsupported, plan);
      case ProposeHandoff(source) => ProposeManned(s, input, source);
      case ResolveApproval(a, allow) => ResolveManned(s, input, a, allow);
      case AnswerInput(r, _) =>
        if r in s.t.runs && Active(s.t.runs[r].status) {
          StatusManned(s.t, r, Running);
        }
      case CancelRun(r) =>
        CancelManned(s.t, r, input.now);
        DropApprovalsManned(CancelRows(s.t, r, input.now), r);
      case LoadSession(r) => LoadManned(s.t, r, Loading);
      case StopAll => StopManned(s, input.rows, input.now);
    }
  }

  lemma CountManned(t: Tables, r: RunId, task: TaskId)
    requires Manned(t) && r in t.runs
    ensures Manned(CountAction(t, r, task))
  {
    RestManned(t, CountAction(t, r, task));
  }

  lemma CompleteManned(t: Tables, r: RunId, task: TaskId, a: ArtifactId, size: nat, sha256: Digest, now: int)
    requires Manned(t) && r in t.runs
    ensures Manned(FinishRows(InsertArtifact(t, r, task, a, size, sha256), r, Succeeded, now, Some(a)))
  {
    var u := InsertArtifact(t, r, task, a, size, sha256);
    RestManned(t, u);
    hide Manned, FinishRows, InsertArtifact;
    FinishManned(u, r, Succeeded, now, Some(a));
  }

  lemma RestartManned(s: State, rows: seq<RunId>, now: int)
    requires Manned(s.t)
    ensures Manned(Restart(s, rows, now).t)
  {
    hide Manned, InterruptEach, FailLoads;
    InterruptManned(s, rows, now);
    FailLoadsManned(InterruptEach(s, rows, now).t);
  }

  lemma NextManned(s: State, step: Step)
    requires Inv(s.t) && Manned(s.t) && Legal(s, step)
    ensures Manned(Next(s, step).t)
  {
    hide Manned, Inv, Dispatch, StartRows, SetLoad, OpenApproval, SetStatus, FinishRows, RejectRows, CountAction, AcceptRows,
      ClaimActions, Sweep, Restart, SweepRows, Enumerates, InsertArtifact, Accepts;
    match step {
      case DoApply(input) => DispatchManned(s, input);
      case DoMarkRunning(r, session, now) =>
        if Working(s.t, r) {
          StartManned(s.t, r, session, now);
        }
      case DoSaveLoad(r, load) => LoadManned(s.t, r, load);
      case DoWaitApproval(r, task, a, x, now) =>
        if Working(s.t, r) {
          OpenManned(s.t, r, task, a, x, now);
        }
      case DoWaitInput(r, prompt) =>
        if Working(s.t, r) {
          StatusManned(s.t, r, WaitingInput);
        }
      case DoComplete(r, task, a, size, sha256, now) =>
        if MayComplete(s.t, r) {
          CompleteManned(s.t, r, task, a, size, sha256, now);
        }
      case DoFail(r, error, now) =>
        RejectManned(s.t, r, Rejected, Failed, now);
        FinishManned(s.t, r, Failed, now, None);
      case DoBump(r, task) =>
        if BudgetLeft(s.t, r, task) {
          CountManned(s.t, r, task);
        }
      case DoDecide(r, session, verdict, x, now) =>
        RejectManned(s.t, r, Lapsed, Failed, now);
        RejectManned(s.t, r, Rejected, Failed, now);
        if Rejectable(s.t, r) && MayDecide(s.t, r, session) {
          AcceptManned(s.t, r, x, now);
        }
      case DoClaimDraft(r) => ClaimManned(s.t, r);
      case DoPeerProgress(r, body) =>
      case DoSweep(hs, rs, xs, now) => SweepManned(s, hs, rs, xs, now);
      case DoRestart(rows, now) => RestartManned(s, rows, now);
    }
  }

  lemma {:induction false} ExecManned(s: State, steps: seq<Step>)
    requires Inv(s.t) && Manned(s.t) && LegalRun(s, steps)
    ensures Manned(Exec(s, steps).t)
    decreases |steps|
  {
    hide Inv, Manned, Next, Legal;
    if steps != [] {
      NextManned(s, steps[0]);
      NextKeeps(s, steps[0]);
      ExecManned(Next(s, steps[0]), steps[1..]);
    }
  }

  /** In every reachable state: one launch per run, claimed just when the run was ever started; one tool action per approval,
      in step with it; one draft per accepted handoff. */
  lemma ActionsAreManned(steps: seq<Step>)
    requires LegalRun(EMPTY, steps)
    ensures Manned(Exec(EMPTY, steps).t)
  {
    EmptyInv();
    hide Inv, Exec, LegalRun;
    ExecManned(EMPTY, steps);
  }
}
