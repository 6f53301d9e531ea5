/** Every transaction evolves the tables, so any two moments of a run of the store are related. */
module Traces {
  import opened Types
  import opened Rows
  import opened Transactions
  import opened Invariants
  import opened Preservation
  import opened Insertions
  import opened Reachability
  import opened Stopping
  import opened Sweeping
  import opened Reachable
  import opened Lifecycle
  import opened Budgets

  lemma {:induction false} CancelEachQuiet(s: State, rows: seq<RunId>, now: int)
    requires forall r :: r in rows ==> Cancelable(s.t, r)
    requires forall i, j :: 0 <= i < j < |rows| ==> rows[i] != rows[j]
    ensures Quiet(s.t, CancelEach(s, rows, now).t)
  {
    hide Quiet, CancelRows;
    if rows == [] {
      QuietStays(s.t);
    } else {
      var n := |rows| - 1;
      var u := CancelEach(s, rows[..n], now).t;
      CancelEachQuiet(s, rows[..n], now);
      CancelEachFrame(s, rows[..n], now);
      assert rows[n] in rows && rows[n] !in rows[..n];
      CancelQuiet(u, rows[n], now);
      QuietOn(s.t, u, CancelEach(s, rows, now).t);
    }
  }

  lemma StopQuiet(s: State, rows: seq<RunId>, now: int)
    requires Enumerates(rows, ActiveRuns(s.t))
    ensures Quiet(s.t, StopRows(s, rows, now))
  {
    hide Quiet, CancelEach, FailLoads, DropAllApprovals;
    var t0 := s.t.(stopped := true);
    var t1 := CancelEach(s.(t := t0), rows, now).t;
    LatchQuiet(s.t);
    CancelEachQuiet(s.(t := t0), rows, now);
    DropAllApprovalsQuiet(t1);
    FailLoadsQuiet(DropAllApprovals(t1));
    QuietOn(s.t, t0, t1);
    QuietOn(s.t, t1, DropAllApprovals(t1));
    QuietOn(s.t, DropAllApprovals(t1), StopRows(s, rows, now));
  }

  lemma {:induction false} LapseQuiet(s: State, rows: seq<RunId>, now: int)
    requires Inv(s.t)
    ensures Quiet(s.t, LapseHandoffs(s, rows, now).s.t)
  {
    hide Quiet, Inv, RejectRows;
    if rows == [] {
      QuietStays(s.t);
    } else {
      var n := |rows| - 1;
      var u := LapseHandoffs(s, rows[..n], now).s.t;
      LapseQuiet(s, rows[..n], now);
      LapseKeeps(s, rows[..n], now);
      RowsLinked(u);
      RejectQuiet(u, rows[n], Lapsed, Failed, now);
      QuietOn(s.t, u, RejectRows(u, rows[n], Lapsed, Failed, now));
    }
  }

  lemma {:induction false} OverdueQuiet(s: State, rows: seq<RunId>, now: int)
    requires forall r :: r in rows ==> r in s.t.runs && Active(s.t.runs[r].status)
    requires forall i, j :: 0 <= i < j < |rows| ==> rows[i] != rows[j]
    ensures Quiet(s.t, FailOverdue(s, rows, now).t)
  {
    hide Quiet, FinishRows;
    if rows == [] {
      QuietStays(s.t);
    } else {
      var n := |rows| - 1;
      var u := FailOverdue(s, rows[..n], now).t;
      OverdueQuiet(s, rows[..n], now);
      OverdueFrame(s, rows[..n], now);
      assert rows[n] in rows && rows[n] !in rows[..n];
      FinishQuiet(u, rows[n], Failed, now, None);
      QuietOn(s.t, u, FailOverdue(s, rows, now).t);
    }
  }

  lemma PendingRun(t: Tables, a: ApprovalId)
    requires Inv(t) && a in t.gates.approvals && t.gates.approvals[a].state == Pending
    ensures t.gates.approvals[a].run in t.runs && t.runs[t.gates.approvals[a].run].status != Canceled
    ensures !t.stopped
  {
    hide Links, Projected, Admitted, Bounded, Delivered, Budgeted;
  }

  lemma {:induction false} ExpireEachQuiet(s: State, rows: seq<ApprovalId>, now: int)
    requires Inv(s.t)
    requires forall a :: a in rows ==> a in s.t.gates.approvals && s.t.gates.approvals[a].state == Pending
    requires forall i, j :: 0 <= i < j < |rows| ==> rows[i] != rows[j]
    ensures Quiet(s.t, ExpireEach(s, rows, now).s.t)
  {
    hide Quiet, Inv, ExpireRows;
    if rows == [] {
      QuietStays(s.t);
    } else {
      var n := |rows| - 1;
      var u := ExpireEach(s, rows[..n], now).s.t;
      ExpireEachQuiet(s, rows[..n], now);
      ExpireEachKeeps(s, rows[..n], now);
      RowsLinked(s.t);
      ExpireEachFrame(s, rows[..n], now);
      assert rows[n] in rows && rows[n] !in rows[..n];
      PendingRun(u, rows[n]);
      ExpireQuiet(u, rows[n], now);
      QuietOn(s.t, u, ExpireEach(s, rows, now).s.t);
    }
  }

  lemma SweepQuiet(s: State, hs: seq<RunId>, rs: seq<RunId>, xs: seq<ApprovalId>, now: int)
    requires Inv(s.t) && SweepRows(s, hs, rs, xs, now)
    ensures Quiet(s.t, Sweep(s, hs, rs, xs, now).s.t)
  {
    hide Quiet, Inv, LapseHandoffs, FailOverdue, ExpireEach;
    var s1 := LapseHandoffs(s, hs, now).s;
    var s2 := FailOverdue(s1, rs, now);
    LapseQuiet(s, hs, now);
    LapseKeeps(s, hs, now);
    OverdueIsDecided(s, hs, now);
    OverdueQuiet(s1, rs, now);
    OverdueKeeps(s1, rs, now);
    ExpireEachQuiet(s2, xs, now);
    QuietOn(s.t, s1.t, s2.t);
    QuietOn(s.t, s2.t, ExpireEach(s2, xs, now).s.t);
  }

  lemma {:induction false} InterruptQuiet(s: State, rows: seq<RunId>, now: int)
    requires forall r :: r in rows ==> r in s.t.runs && Active(s.t.runs[r].status)
    requires forall i, j :: 0 <= i < j < |rows| ==> rows[i] != rows[j]
    requires Inv(s.t)
    ensures Quiet(s.t, InterruptEach(s, rows, now).t)
  {
    hide Quiet, Inv;
    if rows == [] {
      QuietStays(s.t);
    } else {
      var n := |rows| - 1;
      var u := InterruptEach(s, rows[..n], now).t;
      InterruptQuiet(s, rows[..n], now);
      InterruptKeeps(s, rows[..n], now);
      assert rows[n] in rows && rows[n] !in rows[..n];
      SetStatusQuiet(u, rows[n], Interrupted);
      QuietOn(s.t, u, InterruptEach(s, rows, now).t);
    }
  }

  lemma RestartQuiet(s: State, rows: seq<RunId>, now: int)
    requires Inv(s.t) && Enumerates(rows, ActiveRuns(s.t))
    ensures Quiet(s.t, Restart(s, rows, now).t)
  {
    hide Quiet, Inv, InterruptEach, FailLoads;
    var u := InterruptEach(s, rows, now).t;
    InterruptQuiet(s, rows, now);
    FailLoadsQuiet(u);
    QuietOn(s.t, u, FailLoads(u));
  }

  lemma ResolveQuiet(s: State, input: Input, a: ApprovalId, allow: bool)
    requires Inv(s.t)
    ensures Quiet(s.t, Resolve(s, input, a, allow).s.t)
  {
    hide Quiet, Inv, SettleApproval, FinishRows, SetStatus, ExpireRows;
    QuietStays(s.t);
    if a in s.t.gates.approvals && s.t.gates.approvals[a].state == Pending {
      var r := s.t.gates.approvals[a].run;
      var to := if allow then Allowed else Denied;
      PendingRun(s.t, a);
      ExpireQuiet(s.t, a, input.now);
      var u := SettleApproval(s.t, a, to, Some(input.session));
      SettleQuiet(s.t, a, to, Some(input.session));
      SettleFrame(s.t, a, to, Some(input.session));
      if s.t.runs[r].status == WaitingApproval {
        FinishQuiet(u, r, Failed, input.now, None);
        QuietOn(s.t, u, FinishRows(u, r, Failed, input.now, None));
        SetStatusQuiet(u, r, Running);
        QuietOn(s.t, u, SetStatus(u, r, Running));
      }
    }
  }

  lemma CancelCommandQuiet(t: Tables, r: RunId, now: int)
    requires Cancelable(t, r)
    ensures Quiet(t, DropApprovals(CancelRows(t, r, now), r))
  {
    hide Quiet, CancelRows, DropApprovals;
    CancelQuiet(t, r, now);
    DropApprovalsQuiet(CancelRows(t, r, now), r);
    QuietOn(t, CancelRows(t, r, now), DropApprovals(CancelRows(t, r, now), r));
  }

  // ---------- one transaction, and a run of them ----------

  /** What any transaction does to the tables: nothing is undone and actions stay conserved. */
  ghost predicate Onward(t: Tables, u: Tables) {
    Evolves(t, u) && (Conserved(t) ==> Conserved(u))
  }

  function SpentBy(t: Tables, r: RunId): nat {
    if r in t.runs then t.runs[r].spent else 0
  }

  /** No run has an action more or less counted, and a new one has none. */
  ghost predicate Thrifty(t: Tables, u: Tables) {
    forall r: RunId :: SpentBy(u, r) == SpentBy(t, r)
  }

  lemma QuietOnward(t: Tables, u: Tables)
    requires Quiet(t, u)
    ensures Onward(t, u) && Thrifty(t, u)
  {
    QuietThrifty(t, u);
    hide Evolves, Conserved, Frugal, Thrifty;
    if Conserved(t) {
      QuietConserves(t, u);
    }
  }

  lemma QuietThrifty(t: Tables, u: Tables)
    requires Quiet(t, u)
    ensures Thrifty(t, u)
  {
    hide Evolves;
  }

  lemma SubmitOnward(s: State, input: Input, bot: BotChoice, unsupported: bool, plan: bool)
    requires Inv(s.t) && FreshIds(s.t, input.ids)
    requires SubmitDenial(s.t, input, bot, unsupported, plan).None?
    ensures Onward(s.t, Submit(s, input, bot, unsupported, plan).s.t)
    ensures Thrifty(s.t, Submit(s, input, bot, unsupported, plan).s.t)
  {
    var u := Submit(s, input, bot, unsupported, plan).s.t;
    assert forall r: RunId :: SpentBy(u, r) == SpentBy(s.t, r);
    hide Evolves, Conserved, InsertTask, Thrifty, ApprovalsLinked, ActionsLinked, HandoffsLinked, Owned, Drafted, Authored, Live;
    var name := if bot.Named? then bot.bot else Mara;
    InsertTaskEvolves(s.t, input.ids, input.session, name, ProviderFor(input.provider, name), input.now);
    if Conserved(s.t) {
      InsertTaskConserves(s.t, input.ids, input.session, name, ProviderFor(input.provider, name), input.now);
    }
  }

  lemma ProposeOpen(t: Tables, input: Input, source: RunId)
    requires Inv(t) && ProposeDenial(t, input, source).None? && input.ids.run !in t.runs
    ensures !t.stopped && source in t.runs && input.ids.run !in t.flow.handoffs
  {
    hide Inv;
    RowsLinked(t);
  }

  lemma ProposeOnward(s: State, input: Input, source: RunId)
    requires Inv(s.t) && FreshIds(s.t, input.ids) && ProposeDenial(s.t, input, source).None?
    ensures Onward(s.t, Propose(s, input, source).s.t) && Thrifty(s.t, Propose(s, input, source).s.t)
  {
    hide Evolves, Conserved, Inv, ProposeDenial;
    ProposeOpen(s.t, input, source);
    var u := Propose(s, input, source).s.t;
    assert forall r: RunId :: SpentBy(u, r) == SpentBy(s.t, r);
    hide InsertHandoff, Thrifty;
    InsertHandoffEvolves(s.t, input.ids, source, input.now);
    if Conserved(s.t) {
      InsertHandoffConserves(s.t, input.ids, source, input.now);
    }
  }

  lemma BumpOnward(t: Tables, r: RunId, task: TaskId)
    requires BudgetLeft(t, r, task) && t.runs[r].task == task
    ensures Onward(t, CountAction(t, r, task))
  {
    hide Evolves, Conserved, CountAction;
    CountEvolves(t, r, task);
    if Conserved(t) {
      CountConserves(t, r, task);
    }
  }

  lemma DispatchOnward(s: State, input: Input)
    requires Inv(s.t) && Legal(s, DoApply(input))
    ensures Onward(s.t, Dispatch(s, input).s.t) && Thrifty(s.t, Dispatch(s, input).s.t)
  {
    hide Quiet, Onward, Thrifty, Inv, Submit, Propose, Resolve, DropApprovals, CancelRows, SetLoad, SetStatus, CancelEach,
      Enumerates, LoadDenial;
    var u := Dispatch(s, input).s.t;
    QuietStays(s.t);
    match input.command {
      case SubmitTask(bot, unsupported, plan) =>
        SubmitRefused(s, input, bot, unsupported, plan);
        if SubmitDenial(s.t, input, bot, unsupported, plan).None? {
          SubmitOnward(s, input, bot, unsupported, plan);
        }
      case ProposeHandoff(source) =>
        ProposeRefused(s, input, source);
        if ProposeDenial(s.t, input, source).None? {
          ProposeOnward(s, input, source);
        }
      case ResolveApproval(a, allow) => ResolveQuiet(s, input, a, allow);
      case AnswerInput(r, _) =>
        if r in s.t.runs && Active(s.t.runs[r].status) {
          SetStatusQuiet(s.t, r, Running);
        }
      case CancelRun(r) =>
        if Cancelable(s.t, r) {
          CancelCommandQuiet(s.t, r, input.now);
        }
      case LoadSession(r) => SetLoadQuiet(s.t, r, Loading);
      case StopAll => StopQuiet(s, input.rows, input.now);
    }
    if Quiet(s.t, u) {
      QuietOnward(s.t, u);
    }
  }

  lemma SubmitRefused(s: State, input: Input, bot: BotChoice, unsupported: bool, plan: bool)
    ensures SubmitDenial(s.t, input, bot, unsupported, plan).Some? ==> Submit(s, input, bot, unsupported, plan).s == s
  {
  }

  lemma ProposeRefused(s: State, input: Input, source: RunId)
    ensures ProposeDenial(s.t, input, source).Some? ==> Propose(s, input, source).s == s
  {
  }

  lemma NextOnward(s: State, step: Step)
    requires Inv(s.t) && Legal(s, step)
    ensures Onward(s.t, Next(s, step).t) && (!step.DoBump? ==> Thrifty(s.t, Next(s, step).t))
  {
    hide Quiet, Onward, Thrifty, Inv, Dispatch, StartRows, SetLoad, OpenApproval, SetStatus, FinishRows, RejectRows, CountAction,
      AcceptRows, ClaimActions, Sweep, Restart, SweepRows, Enumerates, FreshIds;
    var u := Next(s, step).t;
    QuietStays(s.t);
    match step {
      case DoApply(input) =>
        if Commits(s, input) {
          DispatchOnward(s, input);
        }
      case DoMarkRunning(r, session, now) =>
        if Working(s.t, r) {
          StartQuiet(s.t, r, session, now);
        }
      case DoSaveLoad(r, load) => SetLoadQuiet(s.t, r, load);
      case DoWaitApproval(r, task, a, x, now) =>
        if Working(s.t, r) {
          OpenQuiet(s.t, r, a, x, now);
        }
      case DoWaitInput(r, prompt) =>
        if Working(s.t, r) {
          SetStatusQuiet(s.t, r, WaitingInput);
        }
      case DoComplete(r, task, a, size, sha256, now) =>
        if MayComplete(s.t, r) {
          CompleteQuiet(s.t, r, a, size, sha256, now);
        }
      case DoFail(r, error, now) =>
        RowsLinked(s.t);
        RejectQuiet(s.t, r, Rejected, Failed, now);
        if Working(s.t, r) && !Rejectable(s.t, r) {
          FinishQuiet(s.t, r, Failed, now, None);
        }
      case DoBump(r, task) =>
        if BudgetLeft(s.t, r, task) {
          BumpOnward(s.t, r, task);
        }
      case DoDecide(r, session, verdict, x, now) =>
        RowsLinked(s.t);
        RejectQuiet(s.t, r, Lapsed, Failed, now);
        RejectQuiet(s.t, r, Rejected, Failed, now);
        if Rejectable(s.t, r) && MayDecide(s.t, r, session) {
          AcceptQuiet(s.t, r, x, now);
        }
      case DoClaimDraft(r) => ClaimQuiet(s.t, r, HandoffDraft);
      case DoPeerProgress(r, body) =>
      case DoSweep(hs, rs, xs, now) => SweepQuiet(s, hs, rs, xs, now);
      case DoRestart(rows, now) => RestartQuiet(s, rows, now);
    }
    if Quiet(s.t, u) {
      QuietOnward(s.t, u);
    }
  }

  lemma OnwardOn(t: Tables, u: Tables, v: Tables)
    requires Onward(t, u) && Onward(u, v)
    ensures Onward(t, v)
  {
    hide Evolves, Conserved;
    EvolvesOn(t, u, v);
  }

  /** Any two moments of a run of the store: nothing that happens in between undoes what Evolves says. */
  lemma {:induction false} TraceOnward(s: State, steps: seq<Step>)
    requires Inv(s.t) && LegalRun(s, steps)
    ensures Onward(s.t, Exec(s, steps).t) && Inv(Exec(s, steps).t)
    decreases |steps|
  {
    hide Inv, Next, Legal, Onward, Quiet;
    if steps == [] {
      QuietStays(s.t);
      QuietOnward(s.t, s.t);
    } else {
      var u := Next(s, steps[0]);
      NextOnward(s, steps[0]);
      NextKeeps(s, steps[0]);
      TraceOnward(u, steps[1..]);
      OnwardOn(s.t, u.t, Exec(u, steps[1..]).t);
    }
  }
}
