/** Only a request of its own provider makes a run wait for its owner, and only the owner's answer to it
    issues the effect that replies to the provider. */
module Waiting {
  import opened Types
  import opened Rows
  import opened Transactions
  import opened Invariants
  import opened Reachability
  import opened Stopping
  import opened Sweeping

  predicate Awaits(status: RunStatus) {
    status.WaitingApproval? || status.WaitingInput?
  }

  predicate CalmRuns(runs: Runs, after: Runs) {
    (forall r | r in after && Awaits(after[r].status) :: r in runs && runs[r].status == after[r].status) &&
    (forall r | r in runs :: r in after && after[r].provider == runs[r].provider
                             && (Active(after[r].status) ==> Active(runs[r].status)))
  }

  predicate CalmApprovals(approvals: Approvals, later: Approvals) {
    (forall a | a in approvals :: a in later && later[a].run == approvals[a].run
                                  && (approvals[a].state != Pending ==> later[a] == approvals[a])) &&
    (forall a | a in later :: a in approvals && (later[a].state == Pending ==> approvals[a].state == Pending))
  }

  /** No run starts to wait and no approval becomes pending. */
  predicate Calm(t: Tables, u: Tables) {
    CalmRuns(t.runs, u.runs) && CalmApprovals(t.gates.approvals, u.gates.approvals)
  }

  lemma CalmOn(t: Tables, u: Tables, v: Tables)
    requires Calm(t, u) && Calm(u, v)
    ensures Calm(t, v)
  {
  }

  lemma CalmRow(t: Tables, u: Tables, r: RunId, row: Run)
    requires u.runs == t.runs[r := row] && u.gates.approvals == t.gates.approvals
    requires r in t.runs ==> row.provider == t.runs[r].provider && (Active(row.status) ==> Active(t.runs[r].status))
    requires Awaits(row.status) ==> r in t.runs && t.runs[r].status == row.status
    ensures Calm(t, u)
  {
  }

  lemma CalmStays(t: Tables, u: Tables)
    requires u.runs == t.runs && u.gates.approvals == t.gates.approvals
    ensures Calm(t, u)
  {
  }

  lemma FinishCalm(t: Tables, r: RunId, status: RunStatus, now: int, latest: Option<ArtifactId>)
    requires Finished(status)
    ensures Calm(t, FinishRows(t, r, status, now, latest))
  {
    hide Calm;
    var u := FinishRows(t, r, status, now, latest);
    if r in t.runs {
      CalmRow(t, u, r, u.runs[r]);
    } else {
      CalmStays(t, u);
    }
  }

  lemma SetStatusCalm(t: Tables, r: RunId, status: RunStatus)
    requires status == Running || status == Interrupted
    requires status == Running && r in t.runs ==> Active(t.runs[r].status)
    ensures Calm(t, SetStatus(t, r, status))
  {
    hide Calm;
    if r in t.runs {
      CalmRow(t, SetStatus(t, r, status), r, t.runs[r].(status := status));
    } else {
      CalmStays(t, t);
    }
  }

  lemma SettleCalm(t: Tables, a: ApprovalId, to: GateState, resolver: Option<SessionId>)
    requires a in t.gates.approvals && t.gates.approvals[a].state == Pending && to != Pending
    ensures Calm(t, SettleApproval(t, a, to, resolver))
    ensures var u := SettleApproval(t, a, to, resolver).gates.approvals; a in u && u[a].state == to
  {
  }

  lemma DropCalm(t: Tables, r: RunId)
    ensures Calm(t, DropApprovals(t, r))
  {
  }

  lemma DropAllCalm(t: Tables)
    ensures Calm(t, DropAllApprovals(t))
  {
  }

  lemma FailLoadsCalm(t: Tables)
    ensures Calm(t, FailLoads(t))
  {
  }

  lemma RejectCalm(t: Tables, r: RunId, to: HandoffState, status: RunStatus, now: int)
    requires Finished(status)
    ensures Calm(t, RejectRows(t, r, to, status, now))
  {
    hide Calm, FinishRows;
    if Rejectable(t, r) {
      var u := SetHandoff(t, r, to);
      var v := FinishRows(u, r, status, now, None);
      CalmStays(t, u);
      FinishCalm(u, r, status, now, None);
      CalmStays(v, RejectRows(t, r, to, status, now));
      CalmOn(t, u, v);
      CalmOn(t, v, RejectRows(t, r, to, status, now));
    } else {
      CalmStays(t, t);
    }
  }

  lemma CancelCalm(t: Tables, r: RunId, now: int)
    ensures Calm(t, CancelRows(t, r, now))
  {
    hide Calm, FinishRows, RejectRows;
    var u := RejectRows(t, r, Rejected, Canceled, now);
    var v := FinishRows(u, r, Canceled, now, None);
    RejectCalm(t, r, Rejected, Canceled, now);
    FinishCalm(u, r, Canceled, now, None);
    CalmStays(v, CancelRows(t, r, now));
    CalmOn(t, u, v);
    CalmOn(t, v, CancelRows(t, r, now));
  }

  lemma ExpireCalm(t: Tables, a: ApprovalId, now: int)
    requires a in t.gates.approvals && t.gates.approvals[a].state == Pending
    ensures Calm(t, ExpireRows(t, a, now))
  {
    hide Calm, FinishRows, SettleApproval;
    var row := t.gates.approvals[a];
    var u := SettleApproval(t, a, Expired, row.resolver);
    SettleCalm(t, a, Expired, row.resolver);
    FinishCalm(u, row.run, Failed, now, None);
    CalmOn(t, u, ExpireRows(t, a, now));
  }

  // ---------- loops ----------

  lemma {:induction false} CancelEachCalm(s: State, rows: seq<RunId>, now: int)
    ensures Calm(s.t, CancelEach(s, rows, now).t)
  {
    hide Calm, CancelRows;
    if rows == [] {
      CalmStays(s.t, s.t);
    } else {
      var u := CancelEach(s, rows[..|rows|-1], now).t;
      CancelEachCalm(s, rows[..|rows|-1], now);
      CancelCalm(u, rows[|rows|-1], now);
      CalmOn(s.t, u, CancelEach(s, rows, now).t);
    }
  }

  lemma StopCalm(s: State, rows: seq<RunId>, now: int)
    ensures Calm(s.t, StopRows(s, rows, now))
  {
    hide Calm, CancelEach, FailLoads, DropAllApprovals;
    var u := CancelEach(s.(t := s.t.(stopped := true)), rows, now).t;
    CalmStays(s.t, s.t.(stopped := true));
    CancelEachCalm(s.(t := s.t.(stopped := true)), rows, now);
    CalmOn(s.t, s.t.(stopped := true), u);
    DropAllCalm(u);
    CalmOn(s.t, u, DropAllApprovals(u));
    FailLoadsCalm(DropAllApprovals(u));
    CalmOn(s.t, DropAllApprovals(u), StopRows(s, rows, now));
  }

  lemma {:induction false} LapseCalm(s: State, rows: seq<RunId>, now: int)
    ensures Calm(s.t, LapseHandoffs(s, rows, now).s.t)
  {
    hide Calm, RejectRows;
    if rows == [] {
      CalmStays(s.t, s.t);
    } else {
      var u := LapseHandoffs(s, rows[..|rows|-1], now).s.t;
      LapseCalm(s, rows[..|rows|-1], now);
      RejectCalm(u, rows[|rows|-1], Lapsed, Failed, now);
      CalmOn(s.t, u, RejectRows(u, rows[|rows|-1], Lapsed, Failed, now));
    }
  }

  lemma {:induction false} OverdueCalm(s: State, rows: seq<RunId>, now: int)
    ensures Calm(s.t, FailOverdue(s, rows, now).t)
  {
    hide Calm, FinishRows;
    if rows == [] {
      CalmStays(s.t, s.t);
    } else {
      var u := FailOverdue(s, rows[..|rows|-1], now).t;
      OverdueCalm(s, rows[..|rows|-1], now);
      FinishCalm(u, rows[|rows|-1], Failed, now, None);
      CalmOn(s.t, u, FailOverdue(s, rows, now).t);
    }
  }

  lemma {:induction false} ExpireEachCalm(s: State, rows: seq<ApprovalId>, now: int)
    requires ApprovalsHaveRuns(s.t)
    requires forall a :: a in rows ==> a in s.t.gates.approvals && s.t.gates.approvals[a].state == Pending
    requires forall i, j :: 0 <= i < j < |rows| ==> rows[i] != rows[j]
    ensures Calm(s.t, ExpireEach(s, rows, now).s.t)
  {
    hide Calm, ExpireRows;
    if rows == [] {
      CalmStays(s.t, s.t);
    } else {
      var n := |rows| - 1;
      var u := ExpireEach(s, rows[..n], now).s.t;
      ExpireEachCalm(s, rows[..n], now);
      ExpireEachFrame(s, rows[..n], now);
      assert rows[n] in rows && rows[n] !in rows[..n];
      ExpireCalm(u, rows[n], now);
      CalmOn(s.t, u, ExpireEach(s, rows, now).s.t);
    }
  }

  lemma SweepCalm(s: State, hs: seq<RunId>, rs: seq<RunId>, xs: seq<ApprovalId>, now: int)
    requires Inv(s.t) && SweepRows(s, hs, rs, xs, now)
    ensures Calm(s.t, Sweep(s, hs, rs, xs, now).s.t)
  {
    hide Calm, Inv, LapseHandoffs, FailOverdue, ExpireEach;
    var s1 := LapseHandoffs(s, hs, now).s;
    var s2 := FailOverdue(s1, rs, now);
    LapseCalm(s, hs, now);
    OverdueCalm(s1, rs, now);
    CalmOn(s.t, s1.t, s2.t);
    LapseKeeps(s, hs, now);
    OverdueIsDecided(s, hs, now);
    OverdueKeeps(s1, rs, now);
    RowsLinked(s2.t);
    ExpireEachCalm(s2, xs, now);
    CalmOn(s.t, s2.t, ExpireEach(s2, xs, now).s.t);
  }

  lemma {:induction false} InterruptCalm(s: State, rows: seq<RunId>, now: int)
    ensures Calm(s.t, InterruptEach(s, rows, now).t)
  {
    hide Calm, SetStatus;
    if rows == [] {
      CalmStays(s.t, s.t);
    } else {
      var u := InterruptEach(s, rows[..|rows|-1], now).t;
      InterruptCalm(s, rows[..|rows|-1], now);
      SetStatusCalm(u, rows[|rows|-1], Interrupted);
      CalmOn(s.t, u, InterruptEach(s, rows, now).t);
    }
  }

  lemma RestartCalm(s: State, rows: seq<RunId>, now: int)
    ensures Calm(s.t, Restart(s, rows, now).t)
  {
    hide Calm, InterruptEach, FailLoads;
    var u := InterruptEach(s, rows, now).t;
    InterruptCalm(s, rows, now);
    FailLoadsCalm(u);
    CalmOn(s.t, u, FailLoads(u));
  }

  // ---------- commands and the effects they issue ----------

  predicate Replies(effect: Effect) {
    effect.DispatchTool? || effect.RejectTool? || effect.ResumeInput?
  }

  /** What a reply effect says about the command that issued it. */
  predicate Warranted(t: Tables, u: Tables, receipt: Receipt)
    requires receipt.effects != []
  {
    && receipt.run.Some? && receipt.run.value in t.runs && receipt.run.value in u.runs
    && !Awaits(u.runs[receipt.run.value].status)
    && var before := t.runs[receipt.run.value].status;
       if receipt.effects[0].ResumeInput? then before == WaitingInput
       else
         before == WaitingApproval && receipt.approval.Some?
         && Decided(t.gates.approvals, u.gates.approvals, receipt.approval.value, receipt.run.value,
                    if receipt.effects[0].DispatchTool? then Allowed else Denied)
  }

  predicate Decided(approvals: Approvals, later: Approvals, a: ApprovalId, r: RunId, to: GateState) {
    a in approvals && approvals[a].run == r && approvals[a].state == Pending && a in later && later[a].state == to
  }

  lemma ResolveCalm(s: State, input: Input, a: ApprovalId, allow: bool)
    ensures var o := Resolve(s, input, a, allow);
      Calm(s.t, o.s.t) && |o.receipt.effects| <= 1
      && (o.receipt.effects != [] && Replies(o.receipt.effects[0]) ==> Warranted(s.t, o.s.t, o.receipt))
  {
    hide Calm, SettleApproval, FinishRows, SetStatus, ExpireRows;
    CalmStays(s.t, s.t);
    if a in s.t.gates.approvals && s.t.gates.approvals[a].state == Pending {
      var r := s.t.gates.approvals[a].run;
      var to := if allow then Allowed else Denied;
      ExpireCalm(s.t, a, input.now);
      SettleCalm(s.t, a, to, Some(input.session));
      SettleFrame(s.t, a, to, Some(input.session));
      var u := SettleApproval(s.t, a, to, Some(input.session));
      if r in s.t.runs && s.t.runs[r].status == WaitingApproval {
        FinishCalm(u, r, Failed, input.now, None);
        FinishRowFrame(u, r, Failed, input.now);
        FinishFrame(u, r, Failed, input.now, None);
        CalmOn(s.t, u, FinishRows(u, r, Failed, input.now, None));
        SetStatusCalm(u, r, Running);
        StatusFrame(u, r);
        CalmOn(s.t, u, SetStatus(u, r, Running));
      }
    }
  }

  lemma StatusFrame(t: Tables, r: RunId)
    requires r in t.runs
    ensures var u := SetStatus(t, r, Running); r in u.runs && u.runs[r].status == Running && u.gates == t.gates
  {
  }

  lemma AnswerCalm(s: State, input: Input, r: RunId)
    ensures var o := AnswerRun(s, input, r);
      Calm(s.t, o.s.t) && |o.receipt.effects| <= 1
      && (o.receipt.effects != [] && Replies(o.receipt.effects[0]) ==> Warranted(s.t, o.s.t, o.receipt))
  {
    hide Calm;
    CalmStays(s.t, s.t);
    if r in s.t.runs && s.t.runs[r].status == WaitingInput {
      SetStatusCalm(s.t, r, Running);
    }
  }

  lemma CancelCommandCalm(s: State, input: Input, r: RunId)
    ensures Calm(s.t, Cancel(s, input, r).s.t)
  {
    hide Calm, CancelRows, DropApprovals;
    CalmStays(s.t, s.t);
    var u := CancelRows(s.t, r, input.now);
    CancelCalm(s.t, r, input.now);
    DropCalm(u, r);
    CalmOn(s.t, u, DropApprovals(u, r));
  }

  lemma DispatchCalm(s: State, input: Input)
    requires FreshIds(s.t, input.ids)
    ensures var o := Dispatch(s, input);
      Calm(s.t, o.s.t) && |o.receipt.effects| <= 1
      && (o.receipt.effects != [] && Replies(o.receipt.effects[0]) ==> Warranted(s.t, o.s.t, o.receipt))
  {
    hide Calm, Resolve, AnswerRun, CancelRows, DropApprovals, CancelEach, SubmitDenial, ProposeDenial, LoadDenial,
      Warranted, Inv;
    CalmStays(s.t, s.t);
    match input.command {
      case SubmitTask(bot, unsupported, plan) => SubmitCalm(s, input, bot, unsupported, plan);
      case ProposeHandoff(source) => ProposeCalm(s, input, source);
      case ResolveApproval(a, allow) => ResolveCalm(s, input, a, allow);
      case AnswerInput(r, _) => AnswerCalm(s, input, r);
      case CancelRun(r) => CancelCommandCalm(s, input, r);
      case LoadSession(r) => LoadCalm(s.t, r, Loading);
      case StopAll => StopCalm(s, input.rows, input.now);
    }
  }

  lemma SubmitCalm(s: State, input: Input, bot: BotChoice, unsupported: bool, plan: bool)
    requires FreshIds(s.t, input.ids)
    ensures Calm(s.t, Submit(s, input, bot, unsupported, plan).s.t)
  {
    hide Calm, SubmitDenial;
    CalmStays(s.t, s.t);
    var u := Submit(s, input, bot, unsupported, plan).s.t;
    if SubmitDenial(s.t, input, bot, unsupported, plan).None? {
      CalmRow(s.t, u, input.ids.run, u.runs[input.ids.run]);
    }
  }

  lemma ProposeCalm(s: State, input: Input, source: RunId)
    requires FreshIds(s.t, input.ids)
    ensures Calm(s.t, Propose(s, input, source).s.t)
  {
    hide Calm;
    CalmStays(s.t, s.t);
    var u := Propose(s, input, source).s.t;
    if ProposeDenial(s.t, input, source).None? {
      CalmRow(s.t, u, input.ids.run, u.runs[input.ids.run]);
    }
  }

  lemma LoadCalm(t: Tables, r: RunId, load: Load)
    ensures Calm(t, SetLoad(t, r, load))
  {
    hide Calm;
    if r in t.runs {
      CalmRow(t, SetLoad(t, r, load), r, t.runs[r].(load := load));
    } else {
      CalmStays(t, t);
    }
  }

  // ---------- every other transaction ----------

  lemma StartCalm(t: Tables, r: RunId, session: SessionId, now: int)
    requires r in t.runs && Active(t.runs[r].status)
    ensures Calm(t, StartRows(t, r, session, now))
  {
    hide Calm;
    var u := StartRows(t, r, session, now);
    CalmRow(t, u, r, StartRun(t, r, session, now).runs[r]);
  }

  lemma CompleteCalm(t: Tables, r: RunId, task: TaskId, a: ArtifactId, size: nat, sha256: Digest, now: int)
    requires r in t.runs
    ensures Calm(t, FinishRows(InsertArtifact(t, r, task, a, size, sha256), r, Succeeded, now, Some(a)))
  {
    hide Calm, FinishRows;
    var u := InsertArtifact(t, r, task, a, size, sha256);
    CalmStays(t, u);
    FinishCalm(u, r, Succeeded, now, Some(a));
    CalmOn(t, u, FinishRows(u, r, Succeeded, now, Some(a)));
  }

  lemma BumpCalm(t: Tables, r: RunId, task: TaskId)
    requires r in t.runs
    ensures Calm(t, CountAction(t, r, task))
  {
    hide Calm;
    CalmRow(t, CountAction(t, r, task), r, t.runs[r].(spent := t.runs[r].spent + 1));
  }

  predicate Asks(step: Step) {
    step.DoWaitApproval? || step.DoWaitInput?
  }

  /** No transaction but the two callbacks that ask makes a run wait or an approval pending. */
  lemma NextCalm(s: State, step: Step)
    requires Inv(s.t) && Legal(s, step) && !Asks(step)
    ensures Calm(s.t, Next(s, step).t)
  {
    hide Calm, Inv, Dispatch, StartRows, FinishRows, RejectRows, AcceptRows, SetLoad, CountAction, ClaimActions, Sweep,
      Restart,
      InsertArtifact, SweepRows, Enumerates, Accepts, MayDecide;
    CalmStays(s.t, s.t);
    match step {
      case DoApply(input) => DispatchCalm(s, input);
      case DoMarkRunning(r, session, now) =>
        if Working(s.t, r) {
          StartCalm(s.t, r, session, now);
        }
      case DoSaveLoad(r, load) => LoadCalm(s.t, r, load);
      case DoWaitApproval(_, _, _, _, _) =>
      case DoWaitInput(_, _) =>
      case DoComplete(r, task, a, size, sha256, now) =>
        if MayComplete(s.t, r) {
          CompleteCalm(s.t, r, task, a, size, sha256, now);
        }
      case DoFail(r, error, now) =>
        RejectCalm(s.t, r, Rejected, Failed, now);
        FinishCalm(s.t, r, Failed, now, None);
      case DoBump(r, task) =>
        if r in s.t.runs {
          BumpCalm(s.t, r, task);
        }
      case DoDecide(r, session, verdict, x, now) =>
        RejectCalm(s.t, r, Lapsed, Failed, now);
        RejectCalm(s.t, r, Rejected, Failed, now);
        if r in s.t.flow.handoffs {
          AcceptCalm(s.t, r, x, now);
        }
      case DoClaimDraft(r) => ClaimCalm(s.t, r);
      case DoPeerProgress(r, body) =>
      case DoSweep(hs, rs, xs, now) => SweepCalm(s, hs, rs, xs, now);
      case DoRestart(rows, now) => RestartCalm(s, rows, now);
    }
  }

  lemma AcceptCalm(t: Tables, r: RunId, x: ActionId, now: int)
    requires r in t.flow.handoffs
    ensures Calm(t, AcceptRows(t, r, x, now))
  {
    hide Calm;
    CalmStays(t, AcceptRows(t, r, x, now));
  }

  lemma ClaimCalm(t: Tables, r: RunId)
    ensures Calm(t, ClaimActions(t, r, HandoffDraft))
  {
    hide Calm;
    CalmStays(t, ClaimActions(t, r, HandoffDraft));
  }
}
