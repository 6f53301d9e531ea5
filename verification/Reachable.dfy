/** The invariant holds after every transaction, and so in every reachable state. */
module Reachable {
  import opened Types
  import opened Rows
  import opened Transactions
  import opened Invariants
  import opened Preservation
  import opened Insertions
  import opened Reachability
  import opened Stopping
  import opened Sweeping

  lemma SubmitKeeps(s: State, input: Input, bot: BotChoice, unsupported: bool, plan: bool)
    requires Inv(s.t) && FreshIds(s.t, input.ids)
    ensures Inv(Submit(s, input, bot, unsupported, plan).s.t)
  {
    hide Inv, InsertTask, FreshIds;
    if SubmitDenial(s.t, input, bot, unsupported, plan).None? {
      var name := if bot.Named? then bot.bot else Mara;
      NoOccupant(s.t, name);
      InsertTaskKeeps(s.t, input.ids, input.session, name, ProviderFor(input.provider, name), input.now);
    }
  }

  lemma ProposeKeeps(s: State, input: Input, source: RunId)
    requires Inv(s.t) && FreshIds(s.t, input.ids)
    ensures Inv(Propose(s, input, source).s.t)
  {
    hide Inv, InsertHandoff, FreshIds, ProposeDenial;
    if ProposeDenial(s.t, input, source).None? {
      InsertHandoffKeeps(s.t, input, source);
    }
  }

  lemma ResolveKeeps(s: State, input: Input, a: ApprovalId, allow: bool)
    requires Inv(s.t)
    ensures Inv(Resolve(s, input, a, allow).s.t)
  {
    hide Inv, SettleApproval, FinishRows, SetStatus, ExpireRows;
    if a in s.t.gates.approvals {
      var row := s.t.gates.approvals[a];
      var to := if allow then Allowed else Denied;
      ApprovalRun(s.t, a);
      ExpireKeeps(s.t, a, input.now);
      SettleKeeps(s.t, a, to, Some(input.session));
      SettleFrame(s.t, a, to, Some(input.session));
      var u := SettleApproval(s.t, a, to, Some(input.session));
      FinishKeeps(u, row.run, Failed, input.now, None);
      if Active(u.runs[row.run].status) {
        SetStatusKeeps(u, row.run, Running);
      }
    }
  }

  lemma DispatchKeeps(s: State, input: Input)
    requires Inv(s.t) && Legal(s, DoApply(input))
    ensures Inv(Dispatch(s, input).s.t)
  {
    hide Inv, Submit, Propose, Resolve, DropApprovals, CancelRows, SetLoad, SetStatus, CancelEach, FreshIds, Enumerates,
      LoadDenial;
    match input.command
    case SubmitTask(bot, unsupported, plan) => SubmitKeeps(s, input, bot, unsupported, plan);
    case ProposeHandoff(source) => ProposeKeeps(s, input, source);
    case ResolveApproval(a, allow) => ResolveKeeps(s, input, a, allow);
    case AnswerInput(r, _) =>
      if r in s.t.runs && Active(s.t.runs[r].status) {
        SetStatusKeeps(s.t, r, Running);
      }
    case CancelRun(r) =>
      if Cancelable(s.t, r) {
        CancelKeeps(s.t, r, input.now);
      }
    case LoadSession(r) =>
      if LoadDenial(s.t, r).None? {
        BeginLoadKeeps(s.t, r);
      }
    case StopAll => StopKeeps(s, input.rows, input.now);
  }

  lemma MarkRunningKeeps(t: Tables, r: RunId, session: SessionId, now: int)
    requires Inv(t) && Working(t, r)
    ensures Inv(StartRows(t, r, session, now))
  {
    hide Links, Projected, Steady, StartTasks, ClaimActions, ActionsLinked;
    var u1 := StartRun(t, r, session, now);
    StartRunSteady(t, r, session, now);
    SteadyKeeps(t, u1);
    var u2 := StartTasks(u1, r, now);
    StartTasksSteady(u1, r, now);
    SteadyKeeps(u1, u2);
    LaunchClaimKeeps(u2, r, Launch);
  }

  lemma LaunchClaimKeeps(t: Tables, r: RunId, kind: ActionKind)
    requires Inv(t) && kind != Tool
    ensures Inv(ClaimActions(t, r, kind))
  {
    hide Projected, Steady, ActionsLinked;
    ClaimSteady(t, r, kind);
    SteadyKeeps(t, ClaimActions(t, r, kind));
  }

  lemma CountKeeps(t: Tables, r: RunId, task: TaskId)
    requires Inv(t) && BudgetLeft(t, r, task)
    ensures Inv(CountAction(t, r, task))
  {
    hide Projected, Steady, Links;
    CountSteady(t, r, task);
    SteadyKeeps(t, CountAction(t, r, task));
  }

  lemma SaveLoadKeeps(t: Tables, r: RunId, load: Load)
    requires Inv(t) && (load == Loading ==> r in t.runs && t.runs[r].load == Loading)
    ensures Inv(SetLoad(t, r, load))
  {
    hide Projected, Steady, Links;
    if r in t.runs {
      SaveLoadSteady(t, r, load);
      SteadyKeeps(t, SetLoad(t, r, load));
    }
  }

  lemma NextKeeps(s: State, step: Step)
    requires Inv(s.t) && Legal(s, step)
    ensures Inv(Next(s, step).t)
  {
    hide Inv, Dispatch, StartRows, SetLoad, OpenApproval, SetStatus, FinishRows, RejectRows, CountAction, AcceptRows,
      ClaimActions, Sweep, Restart, SweepRows, Enumerates, FreshIds;
    match step
    case DoApply(input) => DispatchKeeps(s, input);
    case DoMarkRunning(r, session, now) =>
      if Working(s.t, r) {
        MarkRunningKeeps(s.t, r, session, now);
      }
    case DoSaveLoad(r, load) => SaveLoadKeeps(s.t, r, load);
    case DoWaitApproval(r, task, a, x, now) =>
      if Working(s.t, r) {
        OpenApprovalKeeps(s.t, r, a, x, now);
      }
    case DoWaitInput(r, prompt) =>
      if Working(s.t, r) {
        SetStatusKeeps(s.t, r, WaitingInput);
      }
    case DoComplete(r, task, a, size, sha256, now) =>
      if MayComplete(s.t, r) {
        CompleteKeeps(s.t, r, a, size, sha256, now);
      }
    case DoFail(r, error, now) =>
      RejectKeeps(s.t, r, Rejected, Failed, now);
      if Working(s.t, r) && !Rejectable(s.t, r) {
        FinishKeeps(s.t, r, Failed, now, None);
      }
    case DoBump(r, task) =>
      if BudgetLeft(s.t, r, task) {
        CountKeeps(s.t, r, task);
      }
    case DoDecide(r, session, verdict, x, now) =>
      RejectKeeps(s.t, r, Lapsed, Failed, now);
      RejectKeeps(s.t, r, Rejected, Failed, now);
      if Rejectable(s.t, r) && MayDecide(s.t, r, session) {
        AcceptKeeps(s.t, r, x, session, now);
      }
    case DoClaimDraft(r) => LaunchClaimKeeps(s.t, r, HandoffDraft);
    case DoPeerProgress(r, body) =>
    case DoSweep(hs, rs, xs, now) => SweepKeeps(s, hs, rs, xs, now);
    case DoRestart(rows, now) => RestartKeeps(s, rows, now);
  }

  lemma EmptyInv()
    ensures Inv(EMPTY.t)
  {
  }
}
