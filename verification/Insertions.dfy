/** The updates that insert a row or transfer a task keep the invariant. */
module Insertions {
  import opened Types
  import opened Rows
  import opened Transactions
  import opened Invariants
  import opened Preservation

  // ---------- a new run, with its launch action ----------

  predicate NewRow(runs: Runs, r: RunId, row: Run) {
    r !in runs && row.status == Queued && row.load == Idle && row.spent == 0 && row.budget == MAX_ACTIONS_PER_RUN
  }

  predicate BotFree(runs: Runs, bot: Bot) {
    forall q :: q in runs && Occupies(runs[q]) ==> runs[q].bot != bot
  }

  lemma NoOccupant(t: Tables, bot: Bot)
    requires |OccupantsOf(t, bot)| < MAX_ACTIVE_RUNS_PER_BOT
    ensures BotFree(t.runs, bot)
  {
    assert OccupantsOf(t, bot) == {};
    forall q | q in t.runs && Occupies(t.runs[q]) ensures t.runs[q].bot != bot {
      assert q !in OccupantsOf(t, bot);
    }
  }

  lemma AddAdmitted(runs: Runs, r: RunId, row: Run)
    requires Admitted(runs) && NewRow(runs, r, row) && BotFree(runs, row.bot)
    ensures Admitted(runs[r := row])
  {
  }

  lemma AddBudgeted(runs: Runs, r: RunId, row: Run)
    requires Budgeted(runs) && NewRow(runs, r, row)
    ensures Budgeted(runs[r := row])
  {
  }

  lemma AddActions(runs: Runs, gates: Gates, r: RunId, row: Run, x: ActionId)
    requires ActionsLinked(runs, gates) && r !in runs && x !in gates.actions
    ensures ActionsLinked(runs[r := row], gates.(actions := gates.actions[x := Action(r, Launch, Pending, None)]))
  {
  }

  lemma AddGated(runs: Runs, gates: Gates, r: RunId, row: Run, x: ActionId)
    requires Gated(runs, gates) && r !in runs && x !in gates.actions
    ensures Gated(runs[r := row], gates.(actions := gates.actions[x := Action(r, Launch, Pending, None)]))
  {
  }

  lemma AddDelivered(runs: Runs, artifacts: Artifacts, r: RunId, row: Run)
    requires Delivered(runs, artifacts) && NewRow(runs, r, row)
    ensures Delivered(runs[r := row], artifacts)
  {
  }

  lemma AddAuthored(runs: Runs, flow: Flow, r: RunId, row: Run)
    requires Authored(runs, flow) && r !in runs
    ensures Authored(runs[r := row], flow)
  {
  }

  lemma AddApprovals(runs: Runs, approvals: Approvals, handoffs: Handoffs, r: RunId, row: Run)
    requires ApprovalsLinked(runs, approvals, handoffs) && r !in runs
    ensures ApprovalsLinked(runs[r := row], approvals, handoffs)
  {
  }

  // ---------- with a new task ----------

  lemma AddTaskRuns(tasks: Tasks, runs: Runs, r: RunId, row: Run, task: Task)
    requires RunsLinked(tasks, runs) && r !in runs && row.task !in tasks
    ensures RunsLinked(tasks[row.task := task], runs[r := row])
  {
  }

  lemma AddTaskHandoffs(tasks: Tasks, runs: Runs, handoffs: Handoffs, r: RunId, row: Run)
    requires RunsLinked(tasks, runs) && HandoffsLinked(runs, handoffs) && r !in runs && row.task !in tasks
    ensures HandoffsLinked(runs[r := row], handoffs)
  {
    assert forall q :: q in runs ==> runs[q].task != row.task;
    forall q | q in handoffs ensures SourceOf(runs[r := row], handoffs, q, handoffs[q]) {
      assert SourceOf(runs, handoffs, q, handoffs[q]);
    }
  }

  lemma AddTaskOwned(tasks: Tasks, handoffs: Handoffs, k: TaskId, task: Task)
    requires Owned(tasks, handoffs) && k !in tasks
    ensures Owned(tasks[k := task], handoffs)
  {
  }

  lemma AddTaskProjected(tasks: Tasks, runs: Runs, r: RunId, row: Run, task: Task)
    requires Projected(tasks, runs) && NewRow(runs, r, row) && row.task !in tasks
    requires task.current == r && task.bot == row.bot && task.status == Open
    ensures Projected(tasks[row.task := task], runs[r := row])
  {
  }

  lemma AddTaskBounded(runs: Runs, handoffs: Handoffs, r: RunId, row: Run)
    requires Bounded(runs, handoffs) && r !in runs
    ensures Bounded(runs[r := row], handoffs)
  {
  }

  lemma AddLaunchDrafted(actions: Actions, handoffs: Handoffs, r: RunId, x: ActionId)
    requires Drafted(actions, handoffs) && x !in actions
    ensures Drafted(actions[x := Action(r, Launch, Pending, None)], handoffs)
  {
  }

  lemma InsertTaskKeeps(t: Tables, ids: Ids, session: SessionId, bot: Bot, provider: Provider, now: int)
    requires Inv(t) && FreshIds(t, ids) && !t.stopped && BotFree(t.runs, bot)
    ensures Inv(InsertTask(t, ids, session, bot, provider, now))
  {
    var r, x := ids.run, ids.action;
    var row := NewRun(ids.task, bot, provider, MAX_ACTIONS_PER_RUN, now);
    var task := Task(session, bot, r, None, Open, 0, now);
    assert NewRow(t.runs, r, row);
    hide NewRow, BotFree, RunsLinked, ApprovalsLinked, ActionsLinked, HandoffsLinked, Owned, Drafted, Authored, Projected,
      Admitted, Gated, Bounded, Delivered, Budgeted;
    AddAdmitted(t.runs, r, row);
    AddBudgeted(t.runs, r, row);
    AddActions(t.runs, t.gates, r, row, x);
    AddGated(t.runs, t.gates, r, row, x);
    AddDelivered(t.runs, t.flow.artifacts, r, row);
    AddAuthored(t.runs, t.flow, r, row);
    AddApprovals(t.runs, t.gates.approvals, t.flow.handoffs, r, row);
    AddTaskRuns(t.tasks, t.runs, r, row, task);
    AddTaskHandoffs(t.tasks, t.runs, t.flow.handoffs, r, row);
    AddTaskOwned(t.tasks, t.flow.handoffs, ids.task, task);
    AddTaskProjected(t.tasks, t.runs, r, row, task);
    AddTaskBounded(t.runs, t.flow.handoffs, r, row);
    AddLaunchDrafted(t.gates.actions, t.flow.handoffs, r, x);
  }

  // ---------- with a new handoff ----------

  lemma AddHandoffApprovals(runs: Runs, approvals: Approvals, handoffs: Handoffs, r: RunId, h: Handoff)
    requires ApprovalsLinked(runs, approvals, handoffs) && r !in runs
    ensures ApprovalsLinked(runs, approvals, handoffs[r := h])
  {
  }

  lemma AddHandoffAuthored(runs: Runs, flow: Flow, r: RunId, h: Handoff)
    requires Authored(runs, flow) && r !in runs
    ensures Authored(runs, flow.(handoffs := flow.handoffs[r := h]))
  {
  }

  lemma AddHandoffDrafted(runs: Runs, gates: Gates, handoffs: Handoffs, r: RunId, h: Handoff)
    requires Drafted(gates.actions, handoffs) && ActionsLinked(runs, gates) && r !in runs
    ensures Drafted(gates.actions, handoffs[r := h])
  {
  }

  lemma AddHandoffRuns(tasks: Tasks, runs: Runs, r: RunId, row: Run)
    requires RunsLinked(tasks, runs) && row.task in tasks
    ensures RunsLinked(tasks, runs[r := row])
  {
  }

  lemma AddHandoffProjected(tasks: Tasks, runs: Runs, r: RunId, row: Run)
    requires Projected(tasks, runs) && r !in runs
    ensures Projected(tasks, runs[r := row])
  {
  }

  lemma AddHandoffBounded(runs: Runs, handoffs: Handoffs, r: RunId, row: Run, h: Handoff)
    requires Bounded(runs, handoffs) && NewRow(runs, r, row) && h.state == Proposed && h.expires <= row.deadline
    ensures Bounded(runs[r := row], handoffs[r := h])
  {
  }

  predicate FirstHandoff(runs: Runs, handoffs: Handoffs, r: RunId, row: Run, h: Handoff) {
    NewRow(runs, r, row) && r !in handoffs && h.source in runs && h.source !in handoffs
    && row.task == h.task == runs[h.source].task && row.bot == Ivo && row.provider == Claude
    && runs[h.source].bot == Mara
    && Finished(runs[h.source].status) && (forall q :: q in handoffs ==> handoffs[q].task != h.task)
  }

  lemma AddHandoffHandoffs(runs: Runs, handoffs: Handoffs, r: RunId, row: Run, h: Handoff)
    requires HandoffsLinked(runs, handoffs) && FirstHandoff(runs, handoffs, r, row, h)
    ensures HandoffsLinked(runs[r := row], handoffs[r := h])
  {
    forall q | q in handoffs ensures SourceOf(runs[r := row], handoffs[r := h], q, handoffs[q]) {
      assert SourceOf(runs, handoffs, q, handoffs[q]);
    }
  }

  /** Without a handoff the source run is the task's current run. */
  lemma SourceIsCurrent(t: Tables, source: RunId)
    requires HandoffsLinked(t.runs, t.flow.handoffs) && Projected(t.tasks, t.runs)
    requires source in t.runs && t.runs[source].task in t.tasks && t.runs[source].bot == Mara
    requires forall q :: q in t.flow.handoffs ==> t.flow.handoffs[q].task != t.runs[source].task
    ensures source !in t.flow.handoffs && t.tasks[t.runs[source].task].current == source
  {
    var c := t.tasks[t.runs[source].task].current;
    assert c in t.flow.handoffs ==> SourceOf(t.runs, t.flow.handoffs, c, t.flow.handoffs[c]);
    assert source in t.flow.handoffs ==> SourceOf(t.runs, t.flow.handoffs, source, t.flow.handoffs[source]);
  }

  lemma AddHandoffOwned(tasks: Tasks, handoffs: Handoffs, r: RunId, h: Handoff)
    requires Owned(tasks, handoffs) && r !in handoffs && h.task in tasks && tasks[h.task].current == h.source
    requires h.state == Proposed
    ensures Owned(tasks, handoffs[r := h])
  {
  }

  function ProposedRun(t: Tables, source: RunId, now: int): Run
    requires source in t.runs
  {
    NewRun(t.runs[source].task, Ivo, Claude, t.runs[source].budget, now)
  }

  function ProposedHandoff(t: Tables, input: Input, source: RunId): Handoff
    requires source in t.runs
  {
    Handoff(input.ids.handoff, t.runs[source].task, source, Proposed, input.now + HANDOFF_TTL_MS)
  }

  lemma ProposeGuards(t: Tables, input: Input, source: RunId)
    requires ProposeDenial(t, input, source).None? && Budgeted(t.runs) && input.ids.run !in t.runs
    ensures source in t.runs && t.runs[source].task in t.tasks && t.runs[source].bot == Mara
    ensures Finished(t.runs[source].status) && !t.stopped && BotFree(t.runs, Ivo)
    ensures NewRow(t.runs, input.ids.run, ProposedRun(t, source, input.now))
    ensures forall q :: q in t.flow.handoffs ==> t.flow.handoffs[q].task != t.runs[source].task
  {
    assert !TaskHandedOff(t, t.runs[source].task);
    NoOccupant(t, Ivo);
  }

  lemma ProposeFirst(t: Tables, input: Input, source: RunId)
    requires Inv(t) && FreshIds(t, input.ids) && ProposeDenial(t, input, source).None?
    ensures source in t.runs && t.runs[source].task in t.tasks && t.tasks[t.runs[source].task].current == source
    ensures FirstHandoff(t.runs, t.flow.handoffs, input.ids.run, ProposedRun(t, source, input.now),
                         ProposedHandoff(t, input, source))
  {
    hide RunsLinked, ApprovalsLinked, ActionsLinked, Owned, Drafted, Authored, Admitted, Gated, Bounded, Delivered,
      Barred,
      ProposeDenial;
    ProposeGuards(t, input, source);
    SourceIsCurrent(t, source);
    assert input.ids.run in t.flow.handoffs ==>
        SourceOf(t.runs, t.flow.handoffs, input.ids.run, t.flow.handoffs[input.ids.run]);
  }

  lemma InsertHandoffKeeps(t: Tables, input: Input, source: RunId)
    requires Inv(t) && FreshIds(t, input.ids) && ProposeDenial(t, input, source).None?
    ensures source in t.runs && Inv(InsertHandoff(t, input.ids, source, input.now))
  {
    hide NewRow, BotFree, FirstHandoff, RunsLinked, ApprovalsLinked, ActionsLinked, HandoffsLinked, Owned, Drafted,
      Authored,
      Projected, Admitted, Gated, Bounded, Delivered, Budgeted, ProposeDenial;
    ProposeGuards(t, input, source);
    ProposeFirst(t, input, source);
    AddHandoffKeeps(t, input.ids.run, ProposedRun(t, source, input.now), ProposedHandoff(t, input, source),
                    input.ids.action);
  }

  lemma AddHandoffKeeps(t: Tables, r: RunId, row: Run, h: Handoff, x: ActionId)
    requires Inv(t) && !t.stopped && x !in t.gates.actions && FirstHandoff(t.runs, t.flow.handoffs, r, row, h)
    requires BotFree(t.runs, row.bot) && h.task in t.tasks && t.tasks[h.task].current == h.source
    requires h.state == Proposed && h.expires <= row.deadline
    ensures Inv(t.(flow := t.flow.(handoffs := t.flow.handoffs[r := h]), runs := t.runs[r := row],
                   gates := t.gates.(actions := t.gates.actions[x := Action(r, Launch, Pending, None)])))
  {
    assert NewRow(t.runs, r, row);
    hide NewRow, BotFree, FirstHandoff, RunsLinked, ApprovalsLinked, ActionsLinked, HandoffsLinked, Owned, Drafted,
      Authored,
      Projected, Admitted, Gated, Bounded, Delivered, Budgeted;
    AddAdmitted(t.runs, r, row);
    AddBudgeted(t.runs, r, row);
    AddActions(t.runs, t.gates, r, row, x);
    AddGated(t.runs, t.gates, r, row, x);
    AddDelivered(t.runs, t.flow.artifacts, r, row);
    AddHandoffAuthored(t.runs, t.flow, r, h);
    AddAuthored(t.runs, t.flow.(handoffs := t.flow.handoffs[r := h]), r, row);
    AddHandoffApprovals(t.runs, t.gates.approvals, t.flow.handoffs, r, h);
    AddApprovals(t.runs, t.gates.approvals, t.flow.handoffs[r := h], r, row);
    AddHandoffDrafted(t.runs, t.gates, t.flow.handoffs, r, h);
    AddLaunchDrafted(t.gates.actions, t.flow.handoffs[r := h], r, x);
    AddHandoffRuns(t.tasks, t.runs, r, row);
    AddHandoffProjected(t.tasks, t.runs, r, row);
    AddHandoffBounded(t.runs, t.flow.handoffs, r, row, h);
    AddHandoffHandoffs(t.runs, t.flow.handoffs, r, row, h);
    AddHandoffOwned(t.tasks, t.flow.handoffs, r, h);
  }

  // ---------- acceptance transfers the task ----------

  function Taken(h: Handoff): Handoff {
    h.(state := Accepted)
  }

  lemma AcceptApprovals(runs: Runs, approvals: Approvals, handoffs: Handoffs, r: RunId)
    requires ApprovalsLinked(runs, approvals, handoffs) && r in handoffs
    ensures ApprovalsLinked(runs, approvals, handoffs[r := Taken(handoffs[r])])
  {
  }

  lemma AcceptActions(runs: Runs, gates: Gates, r: RunId, x: ActionId)
    requires ActionsLinked(runs, gates) && r in runs && x !in gates.actions
    ensures ActionsLinked(runs, gates.(actions := gates.actions[x := Action(r, HandoffDraft, Pending, None)]))
  {
  }

  lemma AcceptHandoffs(runs: Runs, handoffs: Handoffs, r: RunId)
    requires HandoffsLinked(runs, handoffs) && r in handoffs
    ensures HandoffsLinked(runs, handoffs[r := Taken(handoffs[r])])
  {
    forall q | q in handoffs ensures
      SourceOf(runs, handoffs[r := Taken(handoffs[r])], q, handoffs[r := Taken(handoffs[r])][q])
    {
      assert SourceOf(runs, handoffs, q, handoffs[q]);
    }
  }

  lemma AcceptOwned(tasks: Tasks, runs: Runs, handoffs: Handoffs, r: RunId, task: Task)
    requires Owned(tasks, handoffs) && HandoffsLinked(runs, handoffs) && r in handoffs && task.current == r
    ensures Owned(tasks[handoffs[r].task := task], handoffs[r := Taken(handoffs[r])])
  {
  }

  lemma AcceptDrafted(actions: Actions, handoffs: Handoffs, r: RunId, x: ActionId)
    requires Drafted(actions, handoffs) && r in handoffs && handoffs[r].state == Proposed && x !in actions
    ensures Drafted(actions[x := Action(r, HandoffDraft, Pending, None)], handoffs[r := Taken(handoffs[r])])
  {
  }

  lemma AcceptAuthored(runs: Runs, flow: Flow, r: RunId)
    requires Authored(runs, flow) && r in flow.handoffs
    ensures Authored(runs, flow.(handoffs := flow.handoffs[r := Taken(flow.handoffs[r])]))
  {
  }

  lemma AcceptProjected(tasks: Tasks, runs: Runs, r: RunId, task: Task)
    requires Projected(tasks, runs) && r in runs && runs[r].task in tasks && task.current == r
    requires task.bot == runs[r].bot && Projects(task.status, runs[r].status)
    ensures Projected(tasks[runs[r].task := task], runs)
  {
  }

  lemma AcceptGated(runs: Runs, gates: Gates, r: RunId, x: ActionId)
    requires Gated(runs, gates)
    ensures Gated(runs, gates.(actions := gates.actions[x := Action(r, HandoffDraft, Pending, None)]))
  {
  }

  lemma AcceptBounded(runs: Runs, handoffs: Handoffs, r: RunId)
    requires Bounded(runs, handoffs) && r in handoffs
    ensures Bounded(runs, handoffs[r := Taken(handoffs[r])])
  {
  }

  lemma TransferRuns(tasks: Tasks, runs: Runs, k: TaskId, task: Task)
    requires RunsLinked(tasks, runs)
    ensures RunsLinked(tasks[k := task], runs)
  {
  }

  /** The recipient of a handoff runs for Ivo, on the handoff's task. */
  lemma RecipientRow(runs: Runs, handoffs: Handoffs, r: RunId)
    requires HandoffsLinked(runs, handoffs) && r in handoffs
    ensures r in runs && runs[r].task == handoffs[r].task && runs[r].bot == Ivo && runs[r].provider == Claude
  {
    assert SourceOf(runs, handoffs, r, handoffs[r]);
  }

  lemma AcceptKeeps(t: Tables, r: RunId, x: ActionId, session: SessionId, now: int)
    requires Inv(t) && Rejectable(t, r) && MayDecide(t, r, session) && x !in t.gates.actions
    ensures Inv(AcceptRows(t, r, x, now))
  {
    hide RunsLinked, ApprovalsLinked, ActionsLinked, HandoffsLinked, Owned, Drafted, Authored, Projected, Admitted, Gated,
      Bounded, Delivered, Budgeted, Barred;
    RecipientRow(t.runs, t.flow.handoffs, r);
    var task := t.tasks[t.flow.handoffs[r].task].(bot := Ivo, status := InProgress, current := r, updated := now);
    TransferRuns(t.tasks, t.runs, t.flow.handoffs[r].task, task);
    AcceptApprovals(t.runs, t.gates.approvals, t.flow.handoffs, r);
    AcceptActions(t.runs, t.gates, r, x);
    AcceptHandoffs(t.runs, t.flow.handoffs, r);
    AcceptOwned(t.tasks, t.runs, t.flow.handoffs, r, task);
    AcceptDrafted(t.gates.actions, t.flow.handoffs, r, x);
    AcceptAuthored(t.runs, t.flow, r);
    AcceptProjected(t.tasks, t.runs, r, task);
    AcceptGated(t.runs, t.gates, r, x);
    AcceptBounded(t.runs, t.flow.handoffs, r);
  }

  // ---------- a new approval, with its tool action ----------

  function OpenedGates(gates: Gates, a: ApprovalId, row: Approval, x: ActionId): Gates {
    Gates(gates.approvals[a := row], gates.actions[x := Action(row.run, Tool, Pending, Some(a))])
  }

  lemma OpenApprovals(runs: Runs, approvals: Approvals, handoffs: Handoffs, a: ApprovalId, row: Approval)
    requires ApprovalsLinked(runs, approvals, handoffs)
    requires row.run in runs && row.task == runs[row.run].task && row.run !in handoffs
    ensures ApprovalsLinked(runs, approvals[a := row], handoffs)
  {
  }

  lemma OpenActions(runs: Runs, gates: Gates, a: ApprovalId, row: Approval, x: ActionId)
    requires ActionsLinked(runs, gates) && a !in gates.approvals && row.run in runs
    ensures ActionsLinked(runs, OpenedGates(gates, a, row, x))
  {
  }

  lemma OpenDrafted(actions: Actions, handoffs: Handoffs, x: ActionId, action: Action)
    requires Drafted(actions, handoffs) && x !in actions && action.kind == Tool
    ensures Drafted(actions[x := action], handoffs)
  {
  }

  lemma OpenGated(runs: Runs, gates: Gates, a: ApprovalId, row: Approval, x: ActionId)
    requires Gated(runs, gates) && ActionsLinked(runs, gates) && a !in gates.approvals && x !in gates.actions
    requires row.run in runs && runs[row.run].status != Canceled
    ensures Gated(runs, OpenedGates(gates, a, row, x))
  {
  }

  lemma OpenApprovalKeeps(t: Tables, r: RunId, a: ApprovalId, x: ActionId, now: int)
    requires Inv(t) && Working(t, r) && r !in t.flow.handoffs && a !in t.gates.approvals && x !in t.gates.actions
    ensures Inv(OpenApproval(t, r, t.runs[r].task, a, x, now))
  {
    hide RunsLinked, ApprovalsLinked, ActionsLinked, HandoffsLinked, Owned, Drafted, Authored, Projected, Admitted, Gated,
      Bounded, Delivered, Budgeted, Barred, Steady;
    var row := Approval(r, t.runs[r].task, Pending, now + APPROVAL_TTL_MS, None);
    var u := t.(gates := OpenedGates(t.gates, a, row, x));
    OpenApprovals(t.runs, t.gates.approvals, t.flow.handoffs, a, row);
    OpenActions(t.runs, t.gates, a, row, x);
    OpenDrafted(t.gates.actions, t.flow.handoffs, x, Action(r, Tool, Pending, Some(a)));
    OpenGated(t.runs, t.gates, a, row, x);
    NotBarred(u.runs, u.gates.approvals, u.stopped);
    SetStatusSteady(u, r, WaitingApproval);
    SteadyKeeps(u, SetStatus(u, r, WaitingApproval));
  }

  lemma NotBarred(runs: Runs, approvals: Approvals, stopped: bool)
    requires !stopped
    ensures Barred(runs, approvals, stopped)
  {
  }

  // ---------- a result ----------

  lemma ActiveHasNoArtifact(t: Tables, r: RunId)
    requires Delivered(t.runs, t.flow.artifacts) && r in t.runs && !t.runs[r].status.Succeeded?
      && !t.runs[r].status.Failed?
    ensures !HasArtifact(t.flow.artifacts, r)
  {
  }

  lemma ResultAuthored(runs: Runs, flow: Flow, a: ArtifactId, row: Artifact)
    requires Authored(runs, flow) && a !in flow.artifacts && !HasArtifact(flow.artifacts, row.run)
    requires row.run in runs && row.task == runs[row.run].task && row.author == runs[row.run].bot
    requires row.run in flow.handoffs ==> flow.handoffs[row.run].state == Accepted
    ensures Authored(runs, flow.(artifacts := flow.artifacts[a := row]))
  {
  }

  lemma ResultDelivered(runs: Runs, artifacts: Artifacts, a: ArtifactId, row: Artifact, run: Run)
    requires Delivered(runs, artifacts) && a !in artifacts && row.run in runs && run.status == Succeeded
    ensures Delivered(runs[row.run := run], artifacts[a := row])
  {
    var after := runs[row.run := run];
    forall r | r in after && after[r].status == Succeeded ensures HasArtifact(artifacts[a := row], r) {
      if r == row.run {
        assert artifacts[a := row][a].run == r;
      } else {
        var b :| b in artifacts && artifacts[b].run == r;
        assert artifacts[a := row][b].run == r;
      }
    }
  }

  lemma CompleteKeeps(t: Tables, r: RunId, a: ArtifactId, size: nat, sha256: Digest, now: int)
    requires Inv(t) && MayComplete(t, r) && a !in t.flow.artifacts
    ensures Inv(FinishRows(InsertArtifact(t, r, t.runs[r].task, a, size, sha256), r, Succeeded, now, Some(a)))
  {
    hide RunsLinked, ApprovalsLinked, ActionsLinked, HandoffsLinked, Owned, Drafted, Authored, Projected, Admitted, Gated,
      Bounded, Delivered, Budgeted, Barred, RunsSteady, StatusSteady, TasksSteady, GatesSteady, FlowSteady;
    var row := Artifact(t.runs[r].task, r, t.runs[r].bot, size, sha256);
    var v := InsertArtifact(t, r, t.runs[r].task, a, size, sha256);
    var u := FinishRows(v, r, Succeeded, now, Some(a));
    assert v.flow.artifacts[a].run == r;
    ActiveHasNoArtifact(t, r);
    ResultAuthored(t.runs, t.flow, a, row);
    ResultDelivered(t.runs, t.flow.artifacts, a, row, u.runs[r]);
    FinishSteady(v, r, Succeeded, now, Some(a));
    SteadyRuns(v, u);
    SteadyApprovals(v, u);
    SteadyActions(v, u);
    SteadyHandoffs(v, u);
    SteadyOwned(v, u);
    SteadyDrafted(v, u);
    SteadyAuthored(v, u);
    SteadyProjected(v, u);
    SteadyAdmitted(v, u);
    SteadyGated(v, u);
    SteadyBounded(v, u);
    SteadyBudgeted(v, u);
    SteadyBarred(v, u);
  }

  // ---------- loading a session, and the stop latch ----------

  lemma LoadAdmitted(runs: Runs, r: RunId)
    requires Admitted(runs) && r in runs && !Active(runs[r].status) && BotFree(runs, runs[r].bot)
    ensures Admitted(runs[r := runs[r].(load := Loading)])
  {
  }

  lemma LoadSteady(t: Tables, r: RunId)
    requires Projected(t.tasks, t.runs) && r in t.runs
    ensures var u := SetLoad(t, r, Loading);
      RunsSteady(t, u) && StatusSteady(t, u) && TasksSteady(t, u) && GatesSteady(t.gates, u.gates) && FlowSteady(t, u)
  {
  }

  lemma LoadGuards(t: Tables, r: RunId)
    requires LoadDenial(t, r).None?
    ensures r in t.runs && !Active(t.runs[r].status) && t.runs[r].session.Some? && !t.stopped
    ensures BotFree(t.runs, t.runs[r].bot)
  {
    NoOccupant(t, t.runs[r].bot);
  }

  lemma BeginLoadKeeps(t: Tables, r: RunId)
    requires Inv(t) && LoadDenial(t, r).None?
    ensures Inv(SetLoad(t, r, Loading))
  {
    LoadGuards(t, r);
    hide LoadDenial, RunsLinked, ApprovalsLinked, ActionsLinked, HandoffsLinked, Owned, Drafted, Authored, Projected,
      Admitted, Gated,
      Bounded, Delivered, Budgeted, Barred, RunsSteady, StatusSteady, TasksSteady, GatesSteady, FlowSteady, BotFree;
    var u := SetLoad(t, r, Loading);
    LoadAdmitted(t.runs, r);
    LoadSteady(t, r);
    SteadyRuns(t, u);
    SteadyApprovals(t, u);
    SteadyActions(t, u);
    SteadyHandoffs(t, u);
    SteadyAuthored(t, u);
    SteadyProjected(t, u);
    SteadyGated(t, u);
    SteadyBounded(t, u);
    SteadyDelivered(t, u);
    SteadyBudgeted(t, u);
    NotBarred(u.runs, u.gates.approvals, u.stopped);
  }

  lemma LatchKeeps(t: Tables)
    requires Inv(t)
    requires forall r :: r in t.runs ==> !Occupies(t.runs[r])
    requires forall a :: a in t.gates.approvals ==> t.gates.approvals[a].state != Pending
    ensures Inv(t.(stopped := true))
  {
    hide RunsLinked, ApprovalsLinked, ActionsLinked, HandoffsLinked, Owned, Drafted, Authored, Projected, Admitted, Gated,
      Bounded, Delivered, Budgeted;
  }
}
