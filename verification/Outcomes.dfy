/** What each transaction brings about, mostly told by what can be done next. */
module Outcomes {
  import opened Types
  import opened Rows
  import opened Transactions
  import opened Invariants
  import opened Insertions
  import opened Reachability
  import opened Stopping
  import opened Sweeping
  import opened Reachable
  import opened Lifecycle
  import opened Budgets
  import opened Guarantees
  import opened Authority

  // ---------- receipts ----------

  /** A receipt is the command's own. It is accepted exactly when it names no denial, and a refusal issues nothing and changes
      nothing, except that a decision which came too late lets its approval expire. */
  lemma RefusalsChangeNothing(s: State, input: Input)
    ensures var o := Dispatch(s, input);
      && o.receipt.command == input.ids.command && !o.receipt.replayed
      && (o.receipt.accepted <==> o.receipt.denial.None?)
      && (!o.receipt.accepted && o.receipt.denial != Some(ApprovalTimedOut) ==> o.s == s && o.receipt.effects == [])
      && (o.receipt.denial == Some(ApprovalTimedOut) ==> input.command.ResolveApproval?)
  {
    hide CancelOne, DropApprovals, CancelEach, FailLoads, DropAllApprovals, InsertTask, InsertHandoff, ExpireApproval,
      DecideApproval, FinishRows, Occupants, OccupantsOf, TaskHandedOff, HasSmallDraft, BrowserMaySubmit;
  }

  // ---------- a submission ----------

  /** A granted submission begins a run that works at once: for the bot that was named or Mara, for the submitting session,
      by the provider configured for that bot, and overdue after fifteen minutes; and its bot is taken. */
  lemma SubmissionBegins(s: State, input: Input, bot: BotChoice, unsupported: bool, plan: bool)
    requires SubmitDenial(s.t, input, bot, unsupported, plan).None?
    ensures var o, r, k := Submit(s, input, bot, unsupported, plan), input.ids.run, input.ids.task;
      var name := if bot.Named? then bot.bot else Mara;
      && o.receipt.accepted && o.receipt.run == Some(r) && o.receipt.task == Some(k) && o.receipt.effects == [DoLaunch]
      && Working(o.s.t, r) && k in o.s.t.tasks && o.s.t.runs[r].task == k && !BotFree(o.s.t.runs, name)
      && o.s.t.tasks[k].current == r && o.s.t.tasks[k].session == input.session && o.s.t.tasks[k].bot == name
      && (o.s.t.runs[r].provider == Fake <==> input.provider == Fake)
      && (input.provider != Fake ==> (o.s.t.runs[r].provider == Claude <==> name == Ivo))
      && (forall n: int :: r in Overdue(o.s.t, n) <==> input.now + RUN_DEADLINE_MS <= n)
  {
  }

  // ---------- a handoff, from its proposal to its delivery ----------

  /** A granted proposal begins a run for Ivo, on Claude and on the same task, which stays with the run that proposed it; its
      handoff waits for an answer and is due after exactly a minute. */
  lemma ProposalBegins(s: State, input: Input, source: RunId)
    requires ProposeDenial(s.t, input, source).None?
    ensures source in s.t.runs
    ensures var o, r, k := Propose(s, input, source), input.ids.run, s.t.runs[source].task;
      && o.receipt.accepted && o.receipt.run == Some(r) && o.receipt.task == Some(k) && o.receipt.effects == [DoLaunch]
      && o.receipt.handoff == Some(input.ids.handoff) && o.s.t.tasks == s.t.tasks
      && Working(o.s.t, r) && o.s.t.runs[r].task == k && o.s.t.runs[r].bot == Ivo && o.s.t.runs[r].provider == Claude
      && Rejectable(o.s.t, r) && o.s.t.flow.handoffs[r].id == input.ids.handoff && o.s.t.flow.handoffs[r].source == source
      && (forall n: int :: HandoffDue(o.s.t, r, n) <==> input.now + HANDOFF_TTL_MS <= n)
      && (forall n: int :: r in Overdue(o.s.t, n) <==> input.now + RUN_DEADLINE_MS <= n)
  {
    ProposeNeeds(s.t, input, source);
    hide ProposeDenial;
  }

  /** Once the recipient of a granted proposal was started in a session, the handoff is taken by exactly one answer: one from
      that session that names and accepts it, within the minute after it was proposed. */
  lemma ProposalCanBeTaken(s: State, input: Input, source: RunId, session: SessionId, begun: int,
                           p: SessionId, verdict: Verdict, x: ActionId, n: int)
    requires Inv(s.t) && Conserved(s.t) && Legal(s, DoApply(input)) && Commits(s, input)
    requires input.command == ProposeHandoff(source) && ProposeDenial(s.t, input, source).None?
    ensures var r, u := input.ids.run, MarkRunning(Apply(s, input), input.ids.run, session, begun).s;
      Decide(u, r, p, verdict, x, n).yes
      <==> p == session && verdict == Verdict(input.ids.handoff, true) && n < input.now + HANDOFF_TTL_MS
  {
    hide Inv, Conserved, TaskHandedOff, ProposeDenial, StartRows;
    ProposeNeeds(s.t, input, source);
    UnhandedWithinHalf(s.t, s.t.runs[source].task);
    StartedRow(Apply(s, input).t, input.ids.run, session, begun);
  }

  lemma StartedRow(t: Tables, r: RunId, session: SessionId, now: int)
    requires r in t.runs
    ensures var u := StartRows(t, r, session, now);
      && u.flow == t.flow && u.stopped == t.stopped && r in u.runs && u.runs[r].task == t.runs[r].task
      && u.runs[r].status == Running && u.runs[r].session == Some(session)
      && u.tasks.Keys == t.tasks.Keys
      && forall k | k in t.tasks :: u.tasks[k].bot == t.tasks[k].bot && u.tasks[k].spent == t.tasks[k].spent
  {
  }

  lemma ProposeNeeds(t: Tables, input: Input, source: RunId)
    requires ProposeDenial(t, input, source).None?
    ensures source in t.runs && t.runs[source].task in t.tasks && t.tasks[t.runs[source].task].bot == Mara
    ensures !TaskHandedOff(t, t.runs[source].task) && !t.stopped
  {
  }

  /** Starting a working run puts it in the session named, keeps the time it was first started, and moves its task with it if
      it is the task's current run. */
  lemma StartMovesTask(s: State, r: RunId, session: SessionId, now: int)
    requires Inv(s.t)
    ensures var started := MarkRunning(s, r, session, now);
      && (started.yes <==> Working(s.t, r))
      && (started.yes ==>
            var row, k := s.t.runs[r], s.t.runs[r].task;
            && r in started.s.t.runs && k in s.t.tasks && k in started.s.t.tasks
            && started.s.t.runs[r].status == Running && started.s.t.runs[r].session == Some(session)
            && started.s.t.runs[r].started == (if row.started.Some? then row.started else Some(now))
            && started.s.t.tasks[k] == if s.t.tasks[k].current == r then s.t.tasks[k].(status := InProgress, updated := now)
                                       else s.t.tasks[k])
      && (!started.yes ==> started.s == s)
  {
    if r in s.t.runs {
      BudgetIsFixed(s.t, r);
      hide Inv, ClaimActions;
      ClaimsOnly(StartTasks(StartRun(s.t, r, session, now), r, now), r);
    }
  }

  lemma ClaimsOnly(t: Tables, r: RunId)
    ensures var u := ClaimActions(t, r, Launch); u.tasks == t.tasks && u.runs == t.runs
  {
  }

  /** Accepting a handoff hands the task to Ivo's run and opens its draft: the next claim of it is granted, and the run may
      deliver. */
  lemma AcceptanceOpensDraft(s: State, r: RunId, session: SessionId, verdict: Verdict, x: ActionId, now: int)
    requires Inv(s.t) && x !in s.t.gates.actions && Decide(s, r, session, verdict, x, now).yes
    ensures var u, k := Decide(s, r, session, verdict, x, now).s, s.t.flow.handoffs[r].task;
      && ClaimDraft(u, r).yes && MayComplete(u.t, r)
      && k in s.t.tasks && k in u.t.tasks
      && u.t.tasks[k] == s.t.tasks[k].(bot := Ivo, status := InProgress, current := r, updated := now)
  {
    hide Inv, AcceptRows, MayDecide;
    RecipientTask(s.t, r);
    AcceptedTask(s.t, r, x, now);
    AcceptedDraft(s, r, session, verdict, x, now);
  }

  lemma AcceptedTask(t: Tables, r: RunId, x: ActionId, now: int)
    requires r in t.flow.handoffs && t.flow.handoffs[r].task in t.tasks && t.tasks[t.flow.handoffs[r].task].bot == Mara
    ensures var u, k := AcceptRows(t, r, x, now), t.flow.handoffs[r].task;
      k in u.tasks && u.tasks[k] == t.tasks[k].(bot := Ivo, status := InProgress, current := r, updated := now)
  {
  }

  lemma AcceptedDraft(s: State, r: RunId, session: SessionId, verdict: Verdict, x: ActionId, now: int)
    requires Inv(s.t) && x !in s.t.gates.actions && Decide(s, r, session, verdict, x, now).yes
    ensures var u := Decide(s, r, session, verdict, x, now).s; ClaimDraft(u, r).yes && MayComplete(u.t, r)
  {
    hide Inv;
    var u := Decide(s, r, session, verdict, x, now).s;
    NextKeeps(s, DoDecide(r, session, verdict, x, now));
    assert Next(s, DoDecide(r, session, verdict, x, now)) == u;
    ClaimExactly(u, r);
    assert x in DraftActions(u.t, r);
  }

  /** The refusing answers: a late one lets the handoff lapse, one from its own session that does not take it rejects it, and
      both fail the recipient and leave it no pending action; any other changes nothing. */
  lemma RefusalEnds(s: State, r: RunId, session: SessionId, verdict: Verdict, x: ActionId, now: int)
    requires Inv(s.t) && Rejectable(s.t, r) && !Decide(s, r, session, verdict, x, now).yes
    ensures var u, h := Decide(s, r, session, verdict, x, now).s, s.t.flow.handoffs[r];
      if now < h.expires && !MayDecide(s.t, r, session) then u == s
      else
        && u.t.flow.handoffs == s.t.flow.handoffs[r := h.(state := if now < h.expires then Rejected else Lapsed)]
        && Refuted(u.t, r, now)
  {
    hide Inv, MayDecide;
    RowsLinked(s.t);
    RejectRow(s.t, r, Rejected, Failed, now);
    RejectRow(s.t, r, Lapsed, Failed, now);
  }

  /** The run has failed at this time and none of its actions is pending. */
  predicate Refuted(t: Tables, r: RunId, now: int) {
    && r in t.runs && t.runs[r].status == Failed && t.runs[r].completed == Some(now)
    && (forall x :: x in t.gates.actions && t.gates.actions[x].run == r ==> t.gates.actions[x].state != Pending)
  }

  /** A run that fails before its handoff was decided has rejected it. */
  lemma FailureRefutes(s: State, r: RunId, error: Digest, now: int)
    requires Inv(s.t) && Working(s.t, r)
    ensures var u := Fail(s, r, error, now).t;
      && r in u.runs && u.runs[r].status == Failed && u.runs[r].completed == Some(now)
      && (Rejectable(s.t, r) ==> u.flow.handoffs == s.t.flow.handoffs[r := s.t.flow.handoffs[r].(state := Rejected)])
      && (Rejectable(s.t, r) ==> Refuted(u, r, now)) && (!Rejectable(s.t, r) ==> u.flow == s.t.flow)
  {
    hide Inv;
    RejectRow(s.t, r, Rejected, Failed, now);
  }

  /** A delivery is what the task shows last, and small enough to hand off just when it fits the limit. */
  lemma DeliveryIsRecorded(s: State, r: RunId, a: ArtifactId, size: nat, sha256: Digest, now: int)
    requires Inv(s.t) && MayComplete(s.t, r) && a !in s.t.flow.artifacts
    ensures var k := s.t.runs[r].task;
      var c := Complete(s, r, k, a, size, sha256, now);
      && c.yes && c.s.t.flow.artifacts == s.t.flow.artifacts[a := Artifact(k, r, s.t.runs[r].bot, size, sha256)]
      && r in c.s.t.runs && c.s.t.runs[r].status == Succeeded && c.s.t.runs[r].completed == Some(now)
      && k in c.s.t.tasks && c.s.t.tasks[k].current == r && c.s.t.tasks[k].status == Completed
      && c.s.t.tasks[k].latest == Some(a) && c.s.t.tasks[k].updated == now
      && (HasSmallDraft(c.s.t, r) <==> size <= MAX_DRAFT_BYTES)
      && (r in s.t.flow.handoffs ==>
            c.s.events[|c.s.events| - 1] == HandoffArtifact(s.t.flow.handoffs[r].id, k, r, a))
  {
    hide Inv;
    CompleterIsCurrent(s.t, r);
    CompleterHasNoArtifact(s.t, r);
    var u := Complete(s, r, s.t.runs[r].task, a, size, sha256, now).s.t;
    assert u.flow.artifacts[a].run == r;
    forall b | b in u.flow.artifacts && u.flow.artifacts[b].run == r ensures b == a {
      assert b != a ==> b in s.t.flow.artifacts;
    }
  }

  lemma CompleterHasNoArtifact(t: Tables, r: RunId)
    requires Inv(t) && MayComplete(t, r)
    ensures forall a :: a in t.flow.artifacts ==> t.flow.artifacts[a].run != r
  {
    hide Links, Projected, Admitted, Gated, Bounded, Budgeted, Barred;
    ActiveHasNoArtifact(t, r);
  }

  /** A run that may deliver is its task's current run. */
  lemma CompleterIsCurrent(t: Tables, r: RunId)
    requires Inv(t) && MayComplete(t, r)
    ensures t.runs[r].task in t.tasks && t.tasks[t.runs[r].task].current == r
    ensures r in t.flow.handoffs ==> t.flow.handoffs[r].task == t.runs[r].task
  {
    hide RunsLinked, ApprovalsLinked, ActionsLinked, Drafted, Authored, Admitted, Gated, Bounded, Delivered, Budgeted,
      Barred, HandoffsLinked, Owned, Projected;
    WorkerIsCurrent(t, r);
  }

  lemma WorkerIsCurrent(t: Tables, r: RunId)
    requires RunsLinked(t.tasks, t.runs) && HandoffsLinked(t.runs, t.flow.handoffs) && Owned(t.tasks, t.flow.handoffs)
    requires Projected(t.tasks, t.runs) && MayComplete(t, r)
    ensures t.runs[r].task in t.tasks && t.tasks[t.runs[r].task].current == r
    ensures r in t.flow.handoffs ==> t.flow.handoffs[r].task == t.runs[r].task
  {
    var c := t.tasks[t.runs[r].task].current;
    assert r in t.flow.handoffs ==> SourceOf(t.runs, t.flow.handoffs, r, t.flow.handoffs[r]);
    assert c in t.flow.handoffs ==> SourceOf(t.runs, t.flow.handoffs, c, t.flow.handoffs[c]);
  }

  // ---------- what is asked of the owner ----------

  /** A working run's request opens an approval of its own that the owner can decide for exactly five minutes. */
  lemma AskedIsActionable(s: State, r: RunId, task: TaskId, a: ApprovalId, x: ActionId, now: int)
    ensures var asked := WaitApproval(s, r, task, a, x, now);
      && (asked.yes <==> Working(s.t, r))
      && (if asked.yes then
            a in asked.s.t.gates.approvals && asked.s.t.gates.approvals[a].run == r
            && forall n: int :: Actionable(asked.s.t, a, n) <==> n < now + APPROVAL_TTL_MS
          else asked.s == s)
  {
  }

  /** The run obeys the decision: allowed it works on, denied it has failed; and its tool action says the same. */
  lemma DecisionIsObeyed(s: State, input: Input, a: ApprovalId, allow: bool)
    requires Actionable(s.t, a, input.now)
    ensures var o, r := Resolve(s, input, a, allow), s.t.gates.approvals[a].run;
      && o.receipt.accepted && o.receipt.run == Some(r) && o.receipt.approval == Some(a)
      && r in o.s.t.runs && o.s.t.runs[r].status == (if allow then Running else Failed)
      && (Working(o.s.t, r) <==> allow) && (!allow ==> o.s.t.runs[r].completed == Some(input.now))
      && o.s.t.gates.actions.Keys == s.t.gates.actions.Keys
      && (forall x | x in s.t.gates.actions
            && s.t.gates.actions[x].approval == Some(a) && s.t.gates.actions[x].state == Pending ::
            o.s.t.gates.actions[x].state == if allow then Allowed else Denied)
  {
  }

  /** A decision that comes too late fails the run instead, and is refused. */
  lemma LateDecisionExpires(s: State, input: Input, a: ApprovalId, allow: bool)
    requires a in s.t.gates.approvals && s.t.gates.approvals[a].state == Pending
    requires s.t.gates.approvals[a].run in s.t.runs && s.t.runs[s.t.gates.approvals[a].run].status == WaitingApproval
    requires !s.t.stopped && s.t.gates.approvals[a].expires <= input.now
    ensures var o, row := Resolve(s, input, a, allow), s.t.gates.approvals[a];
      && !o.receipt.accepted && o.receipt.denial == Some(ApprovalTimedOut) && o.receipt.run == Some(row.run)
      && o.s.t.gates.approvals == s.t.gates.approvals[a := row.(state := Expired)]
      && row.run in o.s.t.runs && o.s.t.runs[row.run].status == Failed
  {
  }

  /** A question can be answered, once, and then its run works on. */
  lemma QuestionCanBeAnswered(s: State, r: RunId, prompt: Digest, input: Input, again: Input)
    requires Working(s.t, r)
    ensures var o := AnswerRun(WaitInput(s, r, prompt), input, r);
      && o.receipt.accepted && Working(o.s.t, r) && o.s.t.runs[r].status == Running
      && !AnswerRun(o.s, again, r).receipt.accepted
  {
  }

  // ---------- canceling, stopping, restarting ----------

  /** Nothing of the run is left to decide or to carry out. */
  predicate Cleared(t: Tables, r: RunId) {
    && !Rejectable(t, r) && !PendingNames(t.gates.approvals, r)
    && forall x | x in t.gates.actions && t.gates.actions[x].run == r ::
         t.gates.actions[x].state != Pending && t.gates.actions[x].state != Allowed
  }

  /** A cancel is accepted exactly for an unfinished run, and leaves it canceled with nothing to decide or carry out. */
  lemma CancelClears(s: State, input: Input, r: RunId)
    requires Inv(s.t)
    ensures var o := Cancel(s, input, r);
      && (o.receipt.accepted <==> r in s.t.runs && !Finished(s.t.runs[r].status))
      && (o.receipt.accepted ==>
            r in o.s.t.runs && o.s.t.runs[r].status == Canceled && o.s.t.runs[r].completed == Some(input.now)
            && Cleared(o.s.t, r))
  {
    hide Inv;
    if Cancelable(s.t, r) {
      CancelRow(s.t, r, input.now);
    }
    hide CancelRows;
  }

  lemma CancelRow(t: Tables, r: RunId, now: int)
    requires r in t.runs
    ensures var u := CancelRows(t, r, now);
      && r in u.runs && u.runs[r].status == Canceled && u.runs[r].completed == Some(now) && !Rejectable(u, r)
      && forall x | x in u.gates.actions && u.gates.actions[x].run == r ::
           u.gates.actions[x].state != Pending && u.gates.actions[x].state != Allowed
  {
  }

  /** Stop-all cancels exactly the active runs, which its own event names last, and fails exactly the loads under way. */
  lemma StopCancels(s: State, input: Input, r: RunId)
    requires Inv(s.t) && Legal(s, DoApply(input)) && input.command.StopAll? && r in s.t.runs
    ensures var u := Stop(s, input).s.t;
      && u.stopped && r in u.runs
      && u.runs[r].status == (if Active(s.t.runs[r].status) then Canceled else s.t.runs[r].status)
      && u.runs[r].load == (if s.t.runs[r].load == Loading then LoadFailed else s.t.runs[r].load)
    ensures var log := Stop(s, input).s.events;
      log != [] && log[|log| - 1].StopLatched? && (r in log[|log| - 1].canceled <==> Active(s.t.runs[r].status))
  {
    hide Inv, CancelEach, FailLoads;
    var s0 := s.(t := s.t.(stopped := true));
    CancelEachFrame(s0, input.rows, input.now);
    CancelEachLoads(s0, input.rows, input.now, r);
    FailedLoad(DropAllApprovals(CancelEach(s0, input.rows, input.now).t), r);
  }

  lemma {:induction false} CancelEachLoads(s: State, rows: seq<RunId>, now: int, r: RunId)
    requires r in s.t.runs && forall q :: q in rows ==> q in s.t.runs
    ensures var u := CancelEach(s, rows, now).t; r in u.runs && u.runs[r].load == s.t.runs[r].load
  {
    hide CancelRows;
    if rows != [] {
      var n := |rows| - 1;
      CancelEachLoads(s, rows[..n], now, r);
      CancelEachFrame(s, rows[..n], now);
      CancelFrame(CancelEach(s, rows[..n], now).t, rows[n], now);
    }
  }

  lemma FailedLoad(t: Tables, r: RunId)
    requires r in t.runs
    ensures var u := FailLoads(t);
      u.stopped == t.stopped && r in u.runs
      && u.runs[r] == if t.runs[r].load == Loading then t.runs[r].(load := LoadFailed) else t.runs[r]
  {
  }

  /** A restart interrupts exactly the active runs and fails exactly the loads under way. */
  lemma RestartInterrupts(s: State, rows: seq<RunId>, now: int, r: RunId)
    requires Inv(s.t) && Enumerates(rows, ActiveRuns(s.t)) && r in s.t.runs
    ensures var u := Restart(s, rows, now).t;
      && r in u.runs
      && u.runs[r].status == (if Active(s.t.runs[r].status) then Interrupted else s.t.runs[r].status)
      && u.runs[r].load == (if s.t.runs[r].load == Loading then LoadFailed else s.t.runs[r].load)
  {
    hide Inv, InterruptEach, FailLoads;
    InterruptKeeps(s, rows, now);
    FailedLoad(InterruptEach(s, rows, now).t, r);
  }

  // ---------- history loads ----------

  /** While a history loads its bot is taken: no other load and no submission for it is granted. Saving how the load ended
      frees it. */
  lemma LoadTakesItsBot(s: State, input: Input, r: RunId, ended: Load)
    requires Inv(s.t) && LoadDenial(s.t, r).None? && ended != Loading
    ensures var o := BeginLoad(s, input, r);
      && o.receipt.accepted && o.receipt.run == Some(r) && IsLoading(o.s.t, r) && !BotFree(o.s.t.runs, o.s.t.runs[r].bot)
      && var u := SaveLoad(o.s, r, ended);
         r in u.t.runs && u.t.runs[r] == s.t.runs[r].(load := ended) && BotFree(u.t.runs, u.t.runs[r].bot)
  {
    hide Inv;
    LoadGranted(s.t, r);
  }

  // ---------- the sweep ----------

  /** What a sweep does: every handoff that is due lapses, every run that is due or whose handoff or approval is due fails,
      every approval that is due expires with nobody's name on it, and the effects name failed runs only. */
  lemma SweepDecides(s: State, hs: seq<RunId>, rs: seq<RunId>, xs: seq<ApprovalId>, now: int)
    requires Inv(s.t) && SweepRows(s, hs, rs, xs, now)
    ensures var w := Sweep(s, hs, rs, xs, now);
      && (forall r | r in s.t.flow.handoffs ::
            r in w.s.t.flow.handoffs
            && w.s.t.flow.handoffs[r] == if HandoffDue(s.t, r, now) then s.t.flow.handoffs[r].(state := Lapsed)
                                         else s.t.flow.handoffs[r])
      && (forall r | r in s.t.runs && (HandoffDue(s.t, r, now) || r in Overdue(s.t, now)) ::
            r in w.s.t.runs && w.s.t.runs[r].status == Failed)
      && (forall a | a in s.t.gates.approvals ::
            a in w.s.t.gates.approvals
            && w.s.t.gates.approvals[a] == if a in DueApprovals(s.t, now) then s.t.gates.approvals[a].(state := Expired)
                                           else s.t.gates.approvals[a])
      && (forall r | r in w.effects :: r in w.s.t.runs && w.s.t.runs[r].status == Failed)
  {
    hide Inv, LapseHandoffs, FailOverdue, ExpireEach, Enumerates, HandoffDue, Overdue, DueApprovals;
    var w1 := LapseHandoffs(s, hs, now);
    var s2 := FailOverdue(w1.s, rs, now);
    RowsLinked(s.t);
    LapsePhase(s, hs, now);
    FailPhase(s, w1, rs, now);
    DuePhase(s.t, s2, xs, now);
  }

  /** After the first loop: due handoffs have lapsed and their runs failed, and nothing else has changed. */
  lemma LapsePhase(s: State, hs: seq<RunId>, now: int)
    requires HandoffsHaveRuns(s.t) && Enumerates(hs, s.t.flow.handoffs.Keys)
    ensures var w := LapseHandoffs(s, hs, now);
      && w.s.t.runs.Keys == s.t.runs.Keys && w.s.t.gates.approvals == s.t.gates.approvals
      && (forall r | r in s.t.flow.handoffs ::
            r in w.s.t.flow.handoffs
            && w.s.t.flow.handoffs[r] == if HandoffDue(s.t, r, now) then s.t.flow.handoffs[r].(state := Lapsed)
                                         else s.t.flow.handoffs[r])
      && (forall r | r in s.t.runs ::
            if r in w.effects then w.s.t.runs[r].status == Failed else w.s.t.runs[r] == s.t.runs[r])
      && (forall r | HandoffDue(s.t, r, now) :: r in w.effects) && (forall r | r in w.effects :: r in s.t.runs)
  {
    hide LapseHandoffs, Enumerates;
    Listed(hs, s.t.flow.handoffs.Keys);
    LapseFrame(s, hs, now);
    LapseEnds(s, hs, now);
  }

  /** After the second loop runs that were due, or whose handoff was, have failed. */
  lemma FailPhase(s: State, w: Swept, rs: seq<RunId>, now: int)
    requires Enumerates(rs, Overdue(w.s.t, now)) && w.s.t.runs.Keys == s.t.runs.Keys
    requires forall r | r in s.t.runs ::
      if r in w.effects then w.s.t.runs[r].status == Failed else w.s.t.runs[r] == s.t.runs[r]
    ensures var u := FailOverdue(w.s, rs, now).t;
      && u.runs.Keys == s.t.runs.Keys && u.gates == w.s.t.gates && u.flow == w.s.t.flow
      && (forall r | r in s.t.runs && (r in w.effects || r in rs || r in Overdue(s.t, now)) :: u.runs[r].status == Failed)
      && (forall r | r in rs :: r in s.t.runs)
  {
    hide FailOverdue, Enumerates;
    Listed(rs, Overdue(w.s.t, now));
    OverdueFrame(w.s, rs, now);
  }

  /** After the third loop due approvals have expired and the runs they name have failed. */
  lemma DuePhase(t: Tables, s: State, xs: seq<ApprovalId>, now: int)
    requires ApprovalsHaveRuns(t) && s.t.runs.Keys == t.runs.Keys && s.t.gates.approvals == t.gates.approvals
    requires Enumerates(xs, DueApprovals(s.t, now))
    ensures var w := ExpireEach(s, xs, now);
      && w.s.t.runs.Keys == t.runs.Keys && w.s.t.flow == s.t.flow
      && (forall a | a in t.gates.approvals ::
            a in w.s.t.gates.approvals
            && w.s.t.gates.approvals[a] == if a in DueApprovals(t, now) then t.gates.approvals[a].(state := Expired)
                                           else t.gates.approvals[a])
      && (forall r | r in t.runs && (r in w.effects || s.t.runs[r].status == Failed) :: w.s.t.runs[r].status == Failed)
      && (forall r | r in w.effects :: r in t.runs)
  {
    hide ExpireEach, Enumerates;
    Listed(xs, DueApprovals(s.t, now));
    ExpireEachFrame(s, xs, now);
    ExpireEachRows(s, xs, now);
    EffectsExist(s, xs, now);
  }

  lemma {:induction false} LapseEnds(s: State, rows: seq<RunId>, now: int)
    requires HandoffsHaveRuns(s.t)
    ensures var w := LapseHandoffs(s, rows, now);
      && (forall r :: r in rows && HandoffDue(s.t, r, now) ==> r in w.effects)
      && (forall r | r in s.t.flow.handoffs && r !in w.effects ::
            r in w.s.t.flow.handoffs && w.s.t.flow.handoffs[r] == s.t.flow.handoffs[r])
      && (forall r | r in w.effects ::
            r in s.t.flow.handoffs && r in w.s.t.flow.handoffs && r in w.s.t.runs && w.s.t.runs[r].status == Failed
            && w.s.t.flow.handoffs[r] == s.t.flow.handoffs[r].(state := Lapsed))
  {
    hide RejectRows;
    if rows != [] {
      var n := |rows| - 1;
      LapseEnds(s, rows[..n], now);
      LapseFrame(s, rows[..n], now);
      var w := LapseHandoffs(s, rows[..n], now);
      assert rows == rows[..n] + [rows[n]];
      if HandoffDue(w.s.t, rows[n], now) {
        RejectRowFrame(w.s.t, rows[n], Lapsed, Failed, now);
        LapsedRow(w.s.t, rows[n], now);
      }
    }
  }

  lemma LapsedRow(t: Tables, r: RunId, now: int)
    requires Rejectable(t, r)
    ensures var u := RejectRows(t, r, Lapsed, Failed, now);
      r in u.flow.handoffs && u.flow.handoffs[r] == t.flow.handoffs[r].(state := Lapsed)
  {
  }

  predicate ExpiredOnly(approvals: Approvals, later: Approvals, rows: seq<ApprovalId>) {
    later.Keys == approvals.Keys
    && forall a | a in approvals :: later[a] == if a in rows then approvals[a].(state := Expired) else approvals[a]
  }

  lemma {:induction false} ExpireEachRows(s: State, rows: seq<ApprovalId>, now: int)
    requires ApprovalsHaveRuns(s.t) && forall a :: a in rows ==> a in s.t.gates.approvals
    ensures ExpiredOnly(s.t.gates.approvals, ExpireEach(s, rows, now).s.t.gates.approvals, rows)
  {
    hide ExpireRows, ExpiredOnly;
    if rows == [] {
      NoneExpired(s.t.gates.approvals);
    } else {
      var n := |rows| - 1;
      ExpireEachRows(s, rows[..n], now);
      var u := ExpireEach(s, rows[..n], now).s.t;
      ExpiredMore(s.t.gates.approvals, u.gates.approvals, rows);
      ExpiredRow(u, rows[n], now);
    }
  }

  lemma NoneExpired(approvals: Approvals)
    ensures ExpiredOnly(approvals, approvals, [])
  {
  }

  lemma ExpiredMore(approvals: Approvals, later: Approvals, rows: seq<ApprovalId>)
    requires rows != [] && rows[|rows| - 1] in approvals && ExpiredOnly(approvals, later, rows[..|rows|-1])
    ensures rows[|rows| - 1] in later
    ensures var a := rows[|rows| - 1]; ExpiredOnly(approvals, later[a := later[a].(state := Expired)], rows)
  {
    assert rows == rows[..|rows|-1] + [rows[|rows|-1]];
  }

  lemma {:induction false} EffectsExist(s: State, rows: seq<ApprovalId>, now: int)
    requires ApprovalsHaveRuns(s.t) && forall a :: a in rows ==> a in s.t.gates.approvals
    ensures forall r | r in ExpireEach(s, rows, now).effects :: r in s.t.runs
  {
    hide ExpireRows;
    if rows != [] {
      var n := |rows| - 1;
      assert rows == rows[..n] + [rows[n]];
      EffectsExist(s, rows[..n], now);
      ExpireEachFrame(s, rows[..n], now);
    }
  }

  lemma ExpiredRow(t: Tables, a: ApprovalId, now: int)
    requires a in t.gates.approvals
    ensures ExpireRows(t, a, now).gates.approvals == t.gates.approvals[a := t.gates.approvals[a].(state := Expired)]
  {
  }
}
