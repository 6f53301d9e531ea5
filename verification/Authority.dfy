/** Who can do what: of all the transactions, in whatever order, exactly which one grants an approval, accepts a
    handoff, makes a run succeed or begins one, and when. */
module Authority {
  import opened Types
  import opened Rows
  import opened Transactions
  import opened Invariants
  import opened Insertions
  import opened Reachability
  import opened Stopping
  import opened Sweeping
  import opened Budgets
  import opened Guarantees

  predicate Ruled(state: GateState) {
    state == Allowed || state == Denied
  }

  predicate NoneRuled(approvals: Approvals, later: Approvals) {
    forall a | a in later && Ruled(later[a].state) :: a in approvals && approvals[a].state == later[a].state
  }

  predicate NoneAccepted(handoffs: Handoffs, later: Handoffs) {
    forall r | r in later && later[r].state == Accepted :: r in handoffs && handoffs[r].state == Accepted
  }

  predicate NoneSucceeded(runs: Runs, after: Runs) {
    forall r | r in after && after[r].status == Succeeded :: r in runs && runs[r].status == Succeeded
  }

  /** Nothing is decided, accepted, delivered or begun. */
  predicate Plain(t: Tables, u: Tables) {
    NoneRuled(t.gates.approvals, u.gates.approvals) && NoneAccepted(t.flow.handoffs, u.flow.handoffs)
    && NoneSucceeded(t.runs, u.runs) && u.runs.Keys == t.runs.Keys && u.flow.handoffs.Keys == t.flow.handoffs.Keys
  }

  lemma PlainOn(t: Tables, u: Tables, v: Tables)
    requires Plain(t, u) && Plain(u, v)
    ensures Plain(t, v)
  {
  }

  lemma PlainRow(t: Tables, u: Tables, r: RunId, row: Run)
    requires r in t.runs && u.runs == t.runs[r := row] && u.gates.approvals == t.gates.approvals
      && u.flow.handoffs == t.flow.handoffs
    requires row.status == Succeeded ==> t.runs[r].status == Succeeded
    ensures Plain(t, u)
  {
  }

  lemma PlainRest(t: Tables, u: Tables)
    requires u.runs == t.runs && u.gates.approvals == t.gates.approvals && u.flow.handoffs == t.flow.handoffs
    ensures Plain(t, u)
  {
  }

  lemma FinishPlain(t: Tables, r: RunId, status: RunStatus, now: int)
    requires Finished(status) && status != Succeeded
    ensures Plain(t, FinishRows(t, r, status, now, None))
  {
    hide Plain;
    var u := FinishRows(t, r, status, now, None);
    if r in t.runs {
      PlainRow(t, u, r, u.runs[r]);
    } else {
      PlainRest(t, u);
    }
  }

  lemma RejectPlain(t: Tables, r: RunId, to: HandoffState, status: RunStatus, now: int)
    requires Finished(status) && status != Succeeded && to != Accepted
    ensures Plain(t, RejectRows(t, r, to, status, now))
  {
    hide FinishRows, NoneRuled, NoneSucceeded;
    if Rejectable(t, r) {
      var u := SetHandoff(t, r, to);
      var v := FinishRows(u, r, status, now, None);
      FinishPlain(u, r, status, now);
      HandoffPlain(t, r, to);
      hide Plain;
      PlainRest(v, RejectRows(t, r, to, status, now));
      PlainOn(t, u, v);
      PlainOn(t, v, RejectRows(t, r, to, status, now));
    } else {
      hide Plain;
      PlainRest(t, t);
    }
  }

  lemma HandoffPlain(t: Tables, r: RunId, to: HandoffState)
    requires r in t.flow.handoffs && to != Accepted
    ensures Plain(t, SetHandoff(t, r, to))
  {
  }

  lemma CancelPlain(t: Tables, r: RunId, now: int)
    ensures Plain(t, CancelRows(t, r, now))
  {
    hide Plain, FinishRows, RejectRows;
    var u := RejectRows(t, r, Rejected, Canceled, now);
    var v := FinishRows(u, r, Canceled, now, None);
    RejectPlain(t, r, Rejected, Canceled, now);
    FinishPlain(u, r, Canceled, now);
    PlainRest(v, CancelRows(t, r, now));
    PlainOn(t, u, v);
    PlainOn(t, v, CancelRows(t, r, now));
  }

  lemma DropPlain(t: Tables, r: RunId)
    ensures Plain(t, DropApprovals(t, r)) && Plain(t, DropAllApprovals(t))
  {
  }

  lemma FailLoadsPlain(t: Tables)
    ensures Plain(t, FailLoads(t))
  {
  }

  lemma ExpirePlain(t: Tables, a: ApprovalId, now: int)
    requires a in t.gates.approvals
    ensures Plain(t, ExpireRows(t, a, now))
  {
    hide FinishRows;
    var u := SettleApproval(t, a, Expired, t.gates.approvals[a].resolver);
    SettleFrame(t, a, Expired, t.gates.approvals[a].resolver);
    assert Plain(t, u);
    hide Plain;
    FinishPlain(u, t.gates.approvals[a].run, Failed, now);
    PlainOn(t, u, ExpireRows(t, a, now));
  }

  // ---------- loops ----------

  lemma {:induction false} CancelEachPlain(s: State, rows: seq<RunId>, now: int)
    ensures Plain(s.t, CancelEach(s, rows, now).t)
  {
    hide Plain, CancelRows;
    if rows == [] {
      PlainRest(s.t, s.t);
    } else {
      var u := CancelEach(s, rows[..|rows|-1], now).t;
      CancelEachPlain(s, rows[..|rows|-1], now);
      CancelPlain(u, rows[|rows|-1], now);
      PlainOn(s.t, u, CancelEach(s, rows, now).t);
    }
  }

  lemma StopPlain(s: State, rows: seq<RunId>, now: int)
    ensures Plain(s.t, StopRows(s, rows, now))
  {
    hide Plain, CancelEach, FailLoads, DropAllApprovals;
    var t0 := s.t.(stopped := true);
    var u := CancelEach(s.(t := t0), rows, now).t;
    PlainRest(s.t, t0);
    CancelEachPlain(s.(t := t0), rows, now);
    PlainOn(s.t, t0, u);
    DropPlain(u, 0);
    PlainOn(s.t, u, DropAllApprovals(u));
    FailLoadsPlain(DropAllApprovals(u));
    PlainOn(s.t, DropAllApprovals(u), StopRows(s, rows, now));
  }

  lemma {:induction false} LapsePlain(s: State, rows: seq<RunId>, now: int)
    ensures Plain(s.t, LapseHandoffs(s, rows, now).s.t)
  {
    hide Plain, RejectRows;
    if rows == [] {
      PlainRest(s.t, s.t);
    } else {
      var u := LapseHandoffs(s, rows[..|rows|-1], now).s.t;
      LapsePlain(s, rows[..|rows|-1], now);
      RejectPlain(u, rows[|rows|-1], Lapsed, Failed, now);
      PlainOn(s.t, u, RejectRows(u, rows[|rows|-1], Lapsed, Failed, now));
    }
  }

  lemma {:induction false} OverduePlain(s: State, rows: seq<RunId>, now: int)
    ensures Plain(s.t, FailOverdue(s, rows, now).t)
  {
    hide Plain, FinishRows;
    if rows == [] {
      PlainRest(s.t, s.t);
    } else {
      var u := FailOverdue(s, rows[..|rows|-1], now).t;
      OverduePlain(s, rows[..|rows|-1], now);
      FinishPlain(u, rows[|rows|-1], Failed, now);
      PlainOn(s.t, u, FailOverdue(s, rows, now).t);
    }
  }

  lemma {:induction false} ExpireEachPlain(s: State, rows: seq<ApprovalId>, now: int)
    ensures Plain(s.t, ExpireEach(s, rows, now).s.t)
  {
    hide Plain, ExpireRows;
    if rows == [] {
      PlainRest(s.t, s.t);
    } else {
      var n := |rows| - 1;
      var u := ExpireEach(s, rows[..n], now).s.t;
      ExpireEachPlain(s, rows[..n], now);
      if rows[n] in u.gates.approvals {
        ExpirePlain(u, rows[n], now);
        PlainOn(s.t, u, ExpireEach(s, rows, now).s.t);
      }
    }
  }

  lemma SweepPlain(s: State, hs: seq<RunId>, rs: seq<RunId>, xs: seq<ApprovalId>, now: int)
    ensures Plain(s.t, Sweep(s, hs, rs, xs, now).s.t)
  {
    hide Plain, LapseHandoffs, FailOverdue, ExpireEach;
    var s1 := LapseHandoffs(s, hs, now).s;
    var s2 := FailOverdue(s1, rs, now);
    LapsePlain(s, hs, now);
    OverduePlain(s1, rs, now);
    ExpireEachPlain(s2, xs, now);
    PlainOn(s.t, s1.t, s2.t);
    PlainOn(s.t, s2.t, ExpireEach(s2, xs, now).s.t);
  }

  lemma RestartPlain(s: State, rows: seq<RunId>, now: int)
    requires Inv(s.t) && Enumerates(rows, ActiveRuns(s.t))
    ensures Plain(s.t, Restart(s, rows, now).t)
  {
    hide Inv, InterruptEach, FailLoads;
    var u := InterruptEach(s, rows, now).t;
    InterruptKeeps(s, rows, now);
    assert Plain(s.t, u);
    hide Plain;
    FailLoadsPlain(u);
    PlainOn(s.t, u, FailLoads(u));
  }

  // ---------- the exceptions ----------

  /** An approval the owner can still decide. */
  predicate Actionable(t: Tables, a: ApprovalId, now: int) {
    && a in t.gates.approvals && t.gates.approvals[a].state == Pending && now < t.gates.approvals[a].expires
    && t.gates.approvals[a].run in t.runs && t.runs[t.gates.approvals[a].run].status == WaitingApproval && !t.stopped
  }

  /** The owner's decision, in time, on a run that waits for it. */
  predicate Rules(s: State, step: Step, a: ApprovalId, allow: bool) {
    && step.DoApply? && Commits(s, step.input) && step.input.command == ResolveApproval(a, allow)
    && Actionable(s.t, a, step.input.now)
  }

  /** An accepting answer that names the handoff, in time, from the session the recipient runs in. */
  predicate Takes(s: State, step: Step, r: RunId) {
    && step.DoDecide? && step.run == r && Rejectable(s.t, r) && step.now < s.t.flow.handoffs[r].expires
    && MayDecide(s.t, r, step.session) && Accepts(s.t, r, step.verdict)
  }

  predicate Delivers(s: State, step: Step, r: RunId) {
    step.DoComplete? && step.run == r && MayComplete(s.t, r)
  }

  /** The same, without the checks that the state of the handoff already decides. */
  lemma TakesExactly(s: State, step: Step, r: RunId)
    requires Inv(s.t) && Rejectable(s.t, r)
    ensures r in s.t.runs && s.t.runs[r].task in s.t.tasks
    ensures Takes(s, step, r) <==>
      && step.DoDecide? && step.run == r && step.verdict == Verdict(s.t.flow.handoffs[r].id, true)
      && step.now < s.t.flow.handoffs[r].expires
      && s.t.runs[r].status == Running && s.t.runs[r].session == Some(step.session) && !s.t.stopped
      && s.t.tasks[s.t.runs[r].task].spent < MAX_ACTIONS_PER_TASK
  {
    hide Inv;
    RecipientTask(s.t, r);
  }

  lemma RecipientTask(t: Tables, r: RunId)
    requires Inv(t) && Rejectable(t, r)
    ensures r in t.runs && t.runs[r].task == t.flow.handoffs[r].task
    ensures t.runs[r].task in t.tasks && t.tasks[t.runs[r].task].bot == Mara
  {
    hide Inv, RunsOf;
    OwnershipIsExact(t, r);
    RecipientOf(t, r);
  }

  lemma RecipientOf(t: Tables, r: RunId)
    requires Inv(t) && r in t.flow.handoffs
    ensures r in t.runs && t.runs[r].task == t.flow.handoffs[r].task
  {
    hide RunsLinked, ApprovalsLinked, ActionsLinked, Owned, Drafted, Authored, Live;
    RecipientRow(t.runs, t.flow.handoffs, r);
  }

  /** A granted submission or proposal that drew this identifier. */
  predicate Begins(s: State, step: Step, r: RunId) {
    && step.DoApply? && Commits(s, step.input) && step.input.ids.run == r
    && match step.input.command
       case SubmitTask(bot, unsupported, plan) => SubmitDenial(s.t, step.input, bot, unsupported, plan).None?
       case ProposeHandoff(source) => ProposeDenial(s.t, step.input, source).None?
       case _ => false
  }

  // ---------- what the four do ----------

  predicate RuledOnly(t: Tables, u: Tables, a: ApprovalId, allow: bool, resolver: SessionId) {
    && a in t.gates.approvals && u.gates.approvals.Keys == t.gates.approvals.Keys
    && u.gates.approvals[a] == t.gates.approvals[a].(state := if allow then Allowed else Denied, resolver := Some(resolver))
    && (forall b :: b in u.gates.approvals && b != a ==> u.gates.approvals[b] == t.gates.approvals[b])
    && u.flow.handoffs == t.flow.handoffs && u.runs.Keys == t.runs.Keys && NoneSucceeded(t.runs, u.runs)
  }

  predicate AcceptedOnly(t: Tables, u: Tables, r: RunId) {
    && r in t.flow.handoffs && u.flow.handoffs == t.flow.handoffs[r := t.flow.handoffs[r].(state := Accepted)]
    && u.runs == t.runs && u.gates.approvals == t.gates.approvals
  }

  predicate SucceededOnly(t: Tables, u: Tables, r: RunId) {
    && r in t.runs && u.runs.Keys == t.runs.Keys && u.runs[r].status == Succeeded
    && (forall q :: q in t.runs && q != r ==> u.runs[q] == t.runs[q])
    && u.flow.handoffs == t.flow.handoffs && u.gates.approvals == t.gates.approvals
  }

  predicate BegunOnly(t: Tables, u: Tables, r: RunId) {
    && r !in t.runs && u.flow.handoffs.Keys <= t.flow.handoffs.Keys + {r}
    && u.runs.Keys == t.runs.Keys + {r} && u.runs[r].status == Queued
    && (forall q :: q in t.runs && q != r ==> u.runs[q] == t.runs[q])
    && u.gates.approvals == t.gates.approvals && NoneAccepted(t.flow.handoffs, u.flow.handoffs)
  }

  lemma FinishShape(t: Tables, r: RunId, status: RunStatus, now: int, latest: Option<ArtifactId>)
    requires Finished(status) && r in t.runs
    ensures var u := FinishRows(t, r, status, now, latest);
      u.gates == t.gates && u.flow == t.flow && u.runs.Keys == t.runs.Keys && u.runs[r].status == status
      && forall q :: q in t.runs && q != r ==> u.runs[q] == t.runs[q]
  {
  }

  lemma StatusShape(t: Tables, r: RunId)
    requires r in t.runs
    ensures var u := SetStatus(t, r, Running);
      u.gates == t.gates && u.flow == t.flow && u.runs.Keys == t.runs.Keys && u.runs[r].status == Running
      && forall q :: q in t.runs && q != r ==> u.runs[q] == t.runs[q]
  {
  }

  lemma ResolveShape(s: State, input: Input, a: ApprovalId, allow: bool)
    ensures var u := Resolve(s, input, a, allow).s.t;
      if Actionable(s.t, a, input.now) then RuledOnly(s.t, u, a, allow, input.session) else Plain(s.t, u)
  {
    hide FinishRows, SetStatus, ExpireRows, Plain;
    PlainRest(s.t, s.t);
    if a in s.t.gates.approvals {
      var r, to := s.t.gates.approvals[a].run, if allow then Allowed else Denied;
      ExpirePlain(s.t, a, input.now);
      SettleFrame(s.t, a, to, Some(input.session));
      var u := SettleApproval(s.t, a, to, Some(input.session));
      if r in s.t.runs {
        FinishShape(u, r, Failed, input.now, None);
        StatusShape(u, r);
      }
    }
  }

  lemma CompleteShape(t: Tables, r: RunId, task: TaskId, a: ArtifactId, size: nat, sha256: Digest, now: int)
    requires r in t.runs
    ensures SucceededOnly(t, FinishRows(InsertArtifact(t, r, task, a, size, sha256), r, Succeeded, now, Some(a)), r)
  {
    hide FinishRows;
    FinishShape(InsertArtifact(t, r, task, a, size, sha256), r, Succeeded, now, Some(a));
  }

  lemma BeginShape(s: State, input: Input)
    requires FreshIds(s.t, input.ids) && Commits(s, input) && Begins(s, DoApply(input), input.ids.run)
    ensures BegunOnly(s.t, Dispatch(s, input).s.t, input.ids.run)
  {
    hide SubmitDenial, ProposeDenial;
    if input.command.ProposeHandoff? {
      ProposeSource(s.t, input, input.command.source);
    }
  }

  lemma ProposeSource(t: Tables, input: Input, source: RunId)
    requires ProposeDenial(t, input, source).None?
    ensures source in t.runs
  {
  }

  lemma CommandShape(s: State, input: Input)
    requires Legal(s, DoApply(input)) && Commits(s, input)
    ensures var u := Dispatch(s, input).s.t;
      if input.command.ResolveApproval? && Actionable(s.t, input.command.approval, input.now)
      then RuledOnly(s.t, u, input.command.approval, input.command.allow, input.session)
      else if Begins(s, DoApply(input), input.ids.run) then BegunOnly(s.t, u, input.ids.run)
      else Plain(s.t, u)
  {
    hide Plain, Resolve, CancelRows, DropApprovals, CancelEach, SubmitDenial, ProposeDenial, LoadDenial, BegunOnly,
      RuledOnly, Enumerates;
    PlainRest(s.t, s.t);
    match input.command {
      case SubmitTask(bot, unsupported, plan) =>
        if Begins(s, DoApply(input), input.ids.run) {
          BeginShape(s, input);
        }
      case ProposeHandoff(source) =>
        if Begins(s, DoApply(input), input.ids.run) {
          BeginShape(s, input);
        }
      case ResolveApproval(a, allow) => ResolveShape(s, input, a, allow);
      case AnswerInput(r, _) =>
        if r in s.t.runs {
          PlainRow(s.t, SetStatus(s.t, r, Running), r, s.t.runs[r].(status := Running));
        }
      case CancelRun(r) =>
        CancelPlain(s.t, r, input.now);
        DropPlain(CancelRows(s.t, r, input.now), r);
        PlainOn(s.t, CancelRows(s.t, r, input.now), DropApprovals(CancelRows(s.t, r, input.now), r));
      case LoadSession(r) =>
        if r in s.t.runs {
          PlainRow(s.t, SetLoad(s.t, r, Loading), r, s.t.runs[r].(load := Loading));
        }
      case StopAll => StopPlain(s, input.rows, input.now);
    }
  }

  lemma StartPlain(t: Tables, r: RunId, session: SessionId, now: int)
    requires r in t.runs
    ensures Plain(t, StartRows(t, r, session, now))
  {
    hide Plain;
    PlainRow(t, StartRows(t, r, session, now), r, StartRun(t, r, session, now).runs[r]);
  }

  lemma OpenPlain(t: Tables, r: RunId, task: TaskId, a: ApprovalId, x: ActionId, now: int)
    requires r in t.runs
    ensures Plain(t, OpenApproval(t, r, task, a, x, now))
  {
  }

  lemma AskPlain(t: Tables, r: RunId)
    requires r in t.runs
    ensures Plain(t, SetStatus(t, r, WaitingInput))
  {
  }

  lemma BumpPlain(t: Tables, r: RunId, task: TaskId)
    requires r in t.runs
    ensures Plain(t, CountAction(t, r, task))
  {
    hide Plain;
    PlainRow(t, CountAction(t, r, task), r, t.runs[r].(spent := t.runs[r].spent + 1));
  }

  lemma LoadPlain(t: Tables, r: RunId, load: Load)
    ensures Plain(t, SetLoad(t, r, load))
  {
    hide Plain;
    if r in t.runs {
      PlainRow(t, SetLoad(t, r, load), r, t.runs[r].(load := load));
    } else {
      PlainRest(t, t);
    }
  }

  lemma ClaimPlain(t: Tables, r: RunId)
    ensures Plain(t, ClaimActions(t, r, HandoffDraft))
  {
    hide Plain;
    PlainRest(t, ClaimActions(t, r, HandoffDraft));
  }

  lemma AcceptShape(t: Tables, r: RunId, x: ActionId, now: int)
    requires r in t.flow.handoffs
    ensures AcceptedOnly(t, AcceptRows(t, r, x, now), r)
  {
  }

  /** What each of the transactions may do, of all there are. */
  lemma NextShape(s: State, step: Step)
    requires Inv(s.t) && Legal(s, step)
    ensures var u := Next(s, step).t;
      if step.DoApply? && Commits(s, step.input) && step.input.command.ResolveApproval?
         && Actionable(s.t, step.input.command.approval, step.input.now)
      then RuledOnly(s.t, u, step.input.command.approval, step.input.command.allow, step.input.session)
      else if step.DoApply? && Begins(s, step, step.input.ids.run) then BegunOnly(s.t, u, step.input.ids.run)
      else if step.DoDecide? && Takes(s, step, step.run) then AcceptedOnly(s.t, u, step.run)
      else if step.DoComplete? && Delivers(s, step, step.run) then SucceededOnly(s.t, u, step.run)
      else Plain(s.t, u)
  {
    hide Plain, Inv, Dispatch, StartRows, FinishRows, RejectRows, AcceptRows, SetLoad, OpenApproval, SetStatus,
      CountAction, ClaimActions,
      InsertArtifact, Sweep, Restart, SweepRows, Enumerates, BegunOnly, RuledOnly, AcceptedOnly, SucceededOnly, Actionable, MayDecide,
      FreshIds;
    PlainRest(s.t, s.t);
    match step {
      case DoApply(input) =>
        if Commits(s, input) {
          CommandShape(s, input);
        }
      case DoMarkRunning(r, session, now) =>
        if Working(s.t, r) {
          StartPlain(s.t, r, session, now);
        }
      case DoSaveLoad(r, load) => LoadPlain(s.t, r, load);
      case DoWaitApproval(r, task, a, x, now) =>
        if Working(s.t, r) {
          OpenPlain(s.t, r, task, a, x, now);
        }
      case DoWaitInput(r, prompt) =>
        if Working(s.t, r) {
          AskPlain(s.t, r);
        }
      case DoComplete(r, task, a, size, sha256, now) =>
        if MayComplete(s.t, r) {
          CompleteShape(s.t, r, task, a, size, sha256, now);
        }
      case DoFail(r, error, now) =>
        RejectPlain(s.t, r, Rejected, Failed, now);
        FinishPlain(s.t, r, Failed, now);
      case DoBump(r, task) =>
        if r in s.t.runs {
          BumpPlain(s.t, r, task);
        }
      case DoDecide(r, session, verdict, x, now) =>
        RejectPlain(s.t, r, Lapsed, Failed, now);
        RejectPlain(s.t, r, Rejected, Failed, now);
        if r in s.t.flow.handoffs {
          AcceptShape(s.t, r, x, now);
        }
      case DoClaimDraft(r) => ClaimPlain(s.t, r);
      case DoPeerProgress(r, body) =>
      case DoSweep(hs, rs, xs, now) => SweepPlain(s, hs, rs, xs, now);
      case DoRestart(rows, now) => RestartPlain(s, rows, now);
    }
  }

  // ---------- who can do what ----------

  predicate Decided(approvals: Approvals, a: ApprovalId, allow: bool) {
    a in approvals && approvals[a].state == if allow then Allowed else Denied
  }

  predicate DecidedBy(approvals: Approvals, a: ApprovalId, step: Step) {
    a in approvals && step.DoApply? && approvals[a].resolver == Some(step.input.session)
  }

  /** An approval becomes allowed, or denied, in one way only: the owner decides it so in a committed command, before it
      expires, while its run waits for it and the latch is open; and the owner's session is recorded. */
  lemma OnlyTheOwnerDecides(s: State, step: Step, a: ApprovalId, allow: bool)
    requires Inv(s.t) && Legal(s, step) && a in s.t.gates.approvals && s.t.gates.approvals[a].state == Pending
    ensures var later := Next(s, step).t.gates.approvals;
      (Decided(later, a, allow) <==> Rules(s, step, a, allow)) && (Rules(s, step, a, allow) ==> DecidedBy(later, a, step))
  {
    hide Inv, Legal, Next, MayDecide, Accepts, SubmitDenial, ProposeDenial, Working, NoneSucceeded, NoneAccepted;
    NextShape(s, step);
  }

  /** A handoff is accepted in one way only: by an answer that names and accepts it, in time, from the session the
      recipient runs in, while the latch is open and the task below its cap. */
  lemma OnlyTheRecipientAccepts(s: State, step: Step, r: RunId)
    requires Inv(s.t) && Legal(s, step) && Rejectable(s.t, r)
    ensures r in s.t.runs && s.t.runs[r].task in s.t.tasks
    ensures var later := Next(s, step).t.flow.handoffs;
      r in later && later[r].state == Accepted <==>
      && step.DoDecide? && step.run == r && step.verdict == Verdict(s.t.flow.handoffs[r].id, true)
      && step.now < s.t.flow.handoffs[r].expires
      && s.t.runs[r].status == Running && s.t.runs[r].session == Some(step.session) && !s.t.stopped
      && s.t.tasks[s.t.runs[r].task].spent < MAX_ACTIONS_PER_TASK
  {
    hide Inv, Legal, Next, MayDecide, Accepts, SubmitDenial, ProposeDenial, NoneSucceeded, NoneRuled, Actionable;
    NextShape(s, step);
    TakesExactly(s, step, r);
  }

  /** A run succeeds in one way only: its driver delivers while it works and its handoff, if it has one, was accepted. */
  lemma OnlyDeliverySucceeds(s: State, step: Step, r: RunId)
    requires Inv(s.t) && Legal(s, step) && r in s.t.runs && s.t.runs[r].status != Succeeded
    ensures var after := Next(s, step).t.runs;
      r in after && after[r].status == Succeeded <==>
      && step.DoComplete? && step.run == r && Active(s.t.runs[r].status) && !s.t.stopped
      && (r in s.t.flow.handoffs ==> s.t.flow.handoffs[r].state == Accepted)
  {
    hide Inv, Legal, Next, MayDecide, Accepts, SubmitDenial, ProposeDenial, NoneAccepted, NoneRuled, Actionable;
    NextShape(s, step);
  }

  /** A run begins in one way only: with a granted submission or proposal. */
  lemma OnlyGrantsBegin(s: State, step: Step, r: RunId)
    requires Inv(s.t) && Legal(s, step) && r !in s.t.runs
    ensures r in Next(s, step).t.runs <==> Begins(s, step, r)
  {
    hide Inv, Legal, Next, MayDecide, Accepts, SubmitDenial, ProposeDenial, NoneAccepted, NoneRuled, Actionable,
      Working, NoneSucceeded;
    NextShape(s, step);
  }

  // ---------- when a run may begin ----------

  /** A submission is granted exactly when it asks for nothing unsupported, its channel may submit it, the latch is open
      and its bot is free: the global cap never decides. */
  lemma SubmissionGranted(t: Tables, input: Input, bot: BotChoice, unsupported: bool, plan: bool)
    requires Inv(t)
    ensures var name := if bot.Named? then bot.bot else Mara;
      SubmitDenial(t, input, bot, unsupported, plan).None? <==>
      && !unsupported && !bot.UnknownBot? && !(plan && name == Ivo && input.provider != Fake) && !t.stopped
      && (input.channel == Cli
          || (input.channel.Browser? && input.channel.known && input.now < input.channel.expires && name == Mara
              && input.channel.provider == input.provider && input.channel.acknowledged && input.channel.sourceAcknowledged))
      && BotFree(t.runs, name)
  {
    hide Inv, Occupants, OccupantsOf, BotFree;
    var name := if bot.Named? then bot.bot else Mara;
    EitherBot(t, name);
    FreeExactly(t, name);
  }

  lemma FreeExactly(t: Tables, bot: Bot)
    ensures BotFree(t.runs, bot) <==> |OccupantsOf(t, bot)| < MAX_ACTIVE_RUNS_PER_BOT
  {
    if |OccupantsOf(t, bot)| < MAX_ACTIVE_RUNS_PER_BOT {
      NoOccupant(t, bot);
    } else {
      var r :| r in OccupantsOf(t, bot);
    }
  }

  /** A proposal is granted exactly when the owner's own finished Mara task, worked on Codex and not yet handed off, has a
      small draft that reads back intact, the latch is open and Ivo is free: neither the global cap nor the budget decides. */
  lemma ProposalGranted(t: Tables, input: Input, source: RunId)
    requires Inv(t) && Conserved(t)
    ensures ProposeDenial(t, input, source).None? <==>
      && source in t.runs && t.runs[source].status == Succeeded && t.runs[source].provider == Codex
      && t.runs[source].task in t.tasks && t.tasks[t.runs[source].task].current == source
      && t.tasks[t.runs[source].task].bot == Mara && t.tasks[t.runs[source].task].session == input.session
      && (forall r | r in t.flow.handoffs :: t.flow.handoffs[r].task != t.runs[source].task)
      && (exists a :: a in t.flow.artifacts && t.flow.artifacts[a].run == source && t.flow.artifacts[a].byteSize <= MAX_DRAFT_BYTES)
      && input.draftReadable
      && !t.stopped && BotFree(t.runs, Ivo)
  {
    hide Links, Live, Occupants, OccupantsOf, BotFree, Conserved;
    EitherBot(t, Ivo);
    FreeExactly(t, Ivo);
    ProposalBudgetNeverSpent(t, input, source);
    if source in t.runs && t.runs[source].task in t.tasks && !TaskHandedOff(t, t.runs[source].task) {
      UnhandedIsCurrent(t, source);
    }
  }

  /** The one run of a task that was not handed off is its current run, and its bot the task's. */
  lemma UnhandedIsCurrent(t: Tables, source: RunId)
    requires Inv(t) && source in t.runs && t.runs[source].task in t.tasks && !TaskHandedOff(t, t.runs[source].task)
    ensures var task := t.tasks[t.runs[source].task]; task.current == source && task.bot == t.runs[source].bot
  {
    hide RunsLinked, ApprovalsLinked, ActionsLinked, Owned, Drafted, Authored, Admitted, Gated, Bounded, Delivered,
      Budgeted, Barred;
    var k := t.runs[source].task;
    OneRunUnlessHandedOff(t, k);
    var ids := RunsOf(t.runs, k);
    assert source in ids && t.tasks[k].current in ids;
    OnlyOne(ids, source, t.tasks[k].current);
  }

  lemma OnlyOne(ids: set<RunId>, r: RunId, q: RunId)
    requires |ids| <= 1 && r in ids && q in ids
    ensures r == q
  {
    var rest := ids - {r};
    assert |rest| == |ids| - 1;
    assert rest == {};
  }

  lemma EitherBot(t: Tables, bot: Bot)
    requires Inv(t)
    ensures |Occupants(t)| >= MAX_ACTIVE_RUNS ==> |OccupantsOf(t, bot)| >= MAX_ACTIVE_RUNS_PER_BOT
  {
    hide Inv, Occupants, OccupantsOf;
    AdmissionHolds(t);
    match bot {
      case Mara =>
      case Ivo =>
    }
  }

  /** A history load is granted exactly when the run is inactive, has a session with a real provider, the latch is open
      and its bot is free. */
  lemma LoadGranted(t: Tables, r: RunId)
    requires Inv(t)
    ensures LoadDenial(t, r).None? <==>
      r in t.runs && !Active(t.runs[r].status) && t.runs[r].session.Some? && t.runs[r].provider != Fake
      && !t.stopped && BotFree(t.runs, t.runs[r].bot)
  {
    hide Inv, Occupants, OccupantsOf;
    if r in t.runs {
      EitherBot(t, t.runs[r].bot);
      FreeExactly(t, t.runs[r].bot);
    }
  }
}
