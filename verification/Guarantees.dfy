/** What the store promises, over every run of it: the invariant and the evolution relation read off
    as statements about tasks, runs, handoffs, results and budgets. */
module Guarantees {
  import opened Types
  import opened Rows
  import opened Transactions
  import opened Invariants
  import opened Insertions
  import opened Reachability
  import opened Stopping
  import opened Sweeping
  import opened Reachable
  import opened Lifecycle
  import opened Budgets
  import opened Traces
  import opened History
  import opened Chronicle

  /** Every state the store can be in: the invariant holds, actions are conserved, the log is complete. */
  lemma ReachableStates(steps: seq<Step>)
    requires LegalRun(EMPTY, steps)
    ensures var s := Exec(EMPTY, steps); Inv(s.t) && Conserved(s.t) && ReadAll(s.events) == View(s.t)
  {
    hide Inv, LegalRun, Evolves, View, ReadAll, Exec;
    EmptyInv();
    EmptyLogged();
    TraceOnward(EMPTY, steps);
    HistoryIsComplete(EMPTY, steps);
  }

  // ---------- lifecycle ----------

  /** Between any two moments: an inactive run stays inactive and keeps its session and count, an
      interrupted one can only fail or be canceled, finished stays finished, canceled is frozen, and a run that was
      once started keeps the time of that start. */
  lemma LifecycleIsMonotone(s: State, steps: seq<Step>, r: RunId)
    requires Inv(s.t) && LegalRun(s, steps) && r in s.t.runs
    ensures r in Exec(s, steps).t.runs
    ensures var a, b := s.t.runs[r], Exec(s, steps).t.runs[r];
      && (!Active(a.status) ==> !Active(b.status) && b.session == a.session && b.spent == a.spent)
      && (a.status == Interrupted ==> b.status == Interrupted || b.status == Failed || b.status == Canceled)
      && (Finished(a.status) ==> Finished(b.status))
      && (a.status == Failed ==> b.status == Failed)
      && (a.started.Some? ==> b.started == a.started)
      && (a.status == Canceled ==> b.status == Canceled && b.completed == a.completed)
      && (b.task, b.bot, b.provider, b.budget, b.deadline) == (a.task, a.bot, a.provider, a.budget, a.deadline)
  {
    hide Inv, OutcomesStand, GatesEvolve, FlowEvolves, DraftsEvolve, LatchEvolves, Exec, LegalRun, Conserved;
    TraceOnward(s, steps);
  }

  /** A finished run keeps its outcome whatever follows. */
  ghost predicate Final(s: State, r: RunId)
    requires r in s.t.runs
  {
    forall steps | LegalRun(s, steps) ::
      r in Exec(s, steps).t.runs && Exec(s, steps).t.runs[r].status == s.t.runs[r].status
      && Exec(s, steps).t.runs[r].completed == s.t.runs[r].completed
  }

  lemma SettledIsFinal(s: State, r: RunId)
    requires Inv(s.t) && r in s.t.runs && Finished(s.t.runs[r].status) && !PendingNames(s.t.gates.approvals, r)
    ensures Final(s, r)
  {
    hide Inv, RunsEvolve, GatesEvolve, FlowEvolves, DraftsEvolve, LatchEvolves, Exec, LegalRun, PendingNames, Conserved;
    forall steps | LegalRun(s, steps)
      ensures r in Exec(s, steps).t.runs && Exec(s, steps).t.runs[r].status == s.t.runs[r].status
        && Exec(s, steps).t.runs[r].completed == s.t.runs[r].completed
    {
      TraceOnward(s, steps);
    }
  }

  lemma {:induction false} Listing<T>(ids: set<T>) returns (rows: seq<T>)
    ensures Enumerates(rows, ids)
  {
    if ids == {} {
      rows := [];
    } else {
      var x :| x in ids;
      var rest := Listing(ids - {x});
      rows := rest + [x];
    }
  }

  lemma SomeSweep(s: State, now: int) returns (hs: seq<RunId>, rs: seq<RunId>, xs: seq<ApprovalId>)
    ensures SweepRows(s, hs, rs, xs, now)
  {
    hide LapseHandoffs, FailOverdue;
    hs := Listing(s.t.flow.handoffs.Keys);
    var s1 := LapseHandoffs(s, hs, now).s;
    rs := Listing(Overdue(s1.t, now));
    xs := Listing(DueApprovals(FailOverdue(s1, rs, now).t, now));
  }

  /** The run a due approval names is failed at the time of the sweep, finished or not. */
  lemma SweepFailsNamed(s: State, hs: seq<RunId>, rs: seq<RunId>, xs: seq<ApprovalId>, now: int, a: ApprovalId)
    requires Inv(s.t) && SweepRows(s, hs, rs, xs, now) && a in DueApprovals(s.t, now)
    ensures var r, u := s.t.gates.approvals[a].run, Sweep(s, hs, rs, xs, now).s.t;
      r in u.runs && u.runs[r].status == Failed && u.runs[r].completed == Some(now)
  {
    hide Inv, LapseHandoffs, FailOverdue, ExpireEach, Enumerates;
    var s1 := LapseHandoffs(s, hs, now).s;
    RowsLinked(s.t);
    LapseFrame(s, hs, now);
    Listed(rs, Overdue(s1.t, now));
    OverdueFrame(s1, rs, now);
    var s2 := FailOverdue(s1, rs, now);
    assert a in DueApprovals(s2.t, now);
    Listed(xs, DueApprovals(s2.t, now));
    ExpireEachFrame(s2, xs, now);
  }

  /** The exact condition: the outcome of a finished run is final just when no pending approval names it. */
  lemma FinalExactlyWhenSettled(s: State, r: RunId)
    requires Inv(s.t) && r in s.t.runs && Finished(s.t.runs[r].status)
    ensures Final(s, r) <==> !PendingNames(s.t.gates.approvals, r)
  {
    hide Inv, Final, PendingNames;
    if PendingNames(s.t.gates.approvals, r) {
      UnsettledIsNotFinal(s, r);
    } else {
      SettledIsFinal(s, r);
    }
  }

  lemma UnsettledIsNotFinal(s: State, r: RunId)
    requires Inv(s.t) && r in s.t.runs && PendingNames(s.t.gates.approvals, r)
    ensures !Final(s, r)
  {
    hide Inv, Sweep, SweepRows, Final;
    var a :| a in s.t.gates.approvals && s.t.gates.approvals[a].state == Pending && s.t.gates.approvals[a].run == r;
    var e := s.t.gates.approvals[a].expires;
    var now := if s.t.runs[r].completed == Some(e) then e + 1 else e;
    var hs, rs, xs := SomeSweep(s, now);
    SweepFailsNamed(s, hs, rs, xs, now, a);
    NotFinal(s, r, DoSweep(hs, rs, xs, now));
  }

  lemma NotFinal(s: State, r: RunId, step: Step)
    requires r in s.t.runs && Legal(s, step)
    requires r in Next(s, step).t.runs && Next(s, step).t.runs[r].completed != s.t.runs[r].completed
    ensures !Final(s, r)
  {
    hide Next, Legal;
    assert Exec(Next(s, step), []) == Next(s, step);
    assert LegalRun(Next(s, step), []);
    assert LegalRun(s, [step]) && Exec(s, [step]) == Next(s, step);
  }

  // ---------- the stop latch ----------

  /** From a stop-all on, nothing runs, loads or awaits a decision, and runs, artifacts, accepted handoffs and
      action counts are fixed, whatever follows. */
  predicate Halted(t: Tables, u: Tables) {
    && u.stopped
    && (forall r :: r in u.runs ==> !Active(u.runs[r].status) && u.runs[r].load != Loading)
    && (forall a :: a in u.gates.approvals ==> u.gates.approvals[a].state != Pending)
    && u.runs.Keys == t.runs.Keys && u.tasks.Keys == t.tasks.Keys
    && u.flow.artifacts == t.flow.artifacts && u.flow.handoffs.Keys == t.flow.handoffs.Keys
    && (forall r :: r in t.flow.handoffs ==>
          (u.flow.handoffs[r].state == Accepted <==> t.flow.handoffs[r].state == Accepted))
    && (forall r :: r in t.runs ==> u.runs[r].spent == t.runs[r].spent)
    && (forall k :: k in t.tasks ==> u.tasks[k].spent == t.tasks[k].spent)
  }

  lemma LatchHolds(s: State, steps: seq<Step>)
    requires Inv(s.t) && s.t.stopped && LegalRun(s, steps)
    ensures Halted(s.t, Exec(s, steps).t)
  {
    hide Links, Projected, Admitted, Gated, Bounded, Delivered, Budgeted, OutcomesStand, GatesEvolve, DraftsEvolve,
      Exec, LegalRun,
      Conserved, HasArtifact;
    TraceOnward(s, steps);
  }

  lemma StopAllIsABarrier(s: State, input: Input, steps: seq<Step>)
    requires Inv(s.t) && input.command.StopAll? && Legal(s, DoApply(input)) && Commits(s, input)
    requires LegalRun(Apply(s, input), steps)
    ensures Halted(Apply(s, input).t, Exec(Apply(s, input), steps).t)
  {
    hide Inv, Legal, CancelEach, DropAllApprovals, Halted, FailLoads;
    var u := Apply(s, input);
    NextKeeps(s, DoApply(input));
    assert Next(s, DoApply(input)) == u;
    StopLatches(s, input);
    LatchHolds(u, steps);
  }

  lemma StopLatches(s: State, input: Input)
    requires Legal(s, DoApply(input)) && input.command.StopAll?
    ensures Stop(s, input).s.t.stopped
  {
    hide CancelEach;
    CancelEachFrame(s.(t := s.t.(stopped := true)), input.rows, input.now);
    LoadsFailed(DropAllApprovals(CancelEach(s.(t := s.t.(stopped := true)), input.rows, input.now).t));
  }

  // ---------- ownership ----------

  lemma OwnershipIsExact(t: Tables, r: RunId)
    requires Inv(t) && r in t.flow.handoffs
    ensures t.flow.handoffs[r].task in t.tasks
    ensures var h, task := t.flow.handoffs[r], t.tasks[t.flow.handoffs[r].task];
      && (h.state == Accepted <==> task.bot == Ivo && task.current == r)
      && (h.state != Accepted <==> task.bot == Mara && task.current == h.source)
      && RunsOf(t.runs, h.task) == {r, h.source} && r != h.source
      && (forall q :: q in t.flow.handoffs && t.flow.handoffs[q].task == h.task ==> q == r)
  {
    hide RunsLinked, ApprovalsLinked, ActionsLinked, Drafted, Authored, Admitted, Gated, Bounded, Delivered, Budgeted,
      Barred;
    var h := t.flow.handoffs[r];
    assert SourceOf(t.runs, t.flow.handoffs, r, h);
    forall q | q in RunsOf(t.runs, h.task) ensures q == r || q == h.source {
      if q in t.flow.handoffs {
        assert SourceOf(t.runs, t.flow.handoffs, q, t.flow.handoffs[q]);
      }
    }
  }

  // ---------- admission and projection ----------

  /** One run per bot; two in all, so the global cap refuses only what a bot's own cap refuses too. */
  lemma AdmissionHolds(t: Tables)
    requires Inv(t)
    ensures |OccupantsOf(t, Mara)| <= MAX_ACTIVE_RUNS_PER_BOT && |OccupantsOf(t, Ivo)| <= MAX_ACTIVE_RUNS_PER_BOT
    ensures |Occupants(t)| == |OccupantsOf(t, Mara)| + |OccupantsOf(t, Ivo)| <= MAX_ACTIVE_RUNS
    ensures |Occupants(t)| >= MAX_ACTIVE_RUNS ==>
      |OccupantsOf(t, Mara)| == |OccupantsOf(t, Ivo)| == MAX_ACTIVE_RUNS_PER_BOT
  {
    hide Inv, OccupantsOf, Occupants;
    OnePerBot(t, Mara);
    OnePerBot(t, Ivo);
    OccupantsSplit(t);
  }

  lemma OnePerBot(t: Tables, bot: Bot)
    requires Inv(t)
    ensures |OccupantsOf(t, bot)| <= 1
  {
    hide Links, Projected, Gated, Bounded, Delivered, Budgeted, Barred;
    AtMostOne(OccupantsOf(t, bot));
  }

  lemma OccupantsSplit(t: Tables)
    ensures |Occupants(t)| == |OccupantsOf(t, Mara)| + |OccupantsOf(t, Ivo)|
  {
    assert Occupants(t) == OccupantsOf(t, Mara) + OccupantsOf(t, Ivo);
    assert OccupantsOf(t, Mara) !! OccupantsOf(t, Ivo);
  }

  lemma StatusIsProjected(t: Tables, k: TaskId)
    requires Inv(t) && k in t.tasks
    ensures t.tasks[k].current in t.runs
    ensures var run := t.runs[t.tasks[k].current];
      && run.task == k && run.bot == t.tasks[k].bot
      && (t.tasks[k].status == Completed <==> run.status == Succeeded)
      && (t.tasks[k].status == TaskFailed <==> run.status == Failed)
      && (t.tasks[k].status == TaskCanceled <==> run.status == Canceled)
      && (t.tasks[k].status == Open || t.tasks[k].status == InProgress <==>
          Active(run.status) || run.status == Interrupted)
  {
    hide Links, Admitted, Gated, Bounded, Delivered, Budgeted, Barred;
  }

  // ---------- results and drafts ----------

  /** Once a run has completed, no later call completes it. */
  lemma CompletesOnce(s: State, r: RunId, task: TaskId, a: ArtifactId, size: nat, sha256: Digest, now: int,
                      steps: seq<Step>, b: ArtifactId, size': nat, sha256': Digest, now': int)
    requires Inv(s.t) && Legal(s, DoComplete(r, task, a, size, sha256, now))
    requires Complete(s, r, task, a, size, sha256, now).yes
    requires LegalRun(Complete(s, r, task, a, size, sha256, now).s, steps)
    ensures !Complete(Exec(Complete(s, r, task, a, size, sha256, now).s, steps), r, task, b, size', sha256', now').yes
  {
    hide Inv, Exec, LegalRun;
    var u := Complete(s, r, task, a, size, sha256, now).s;
    NextKeeps(s, DoComplete(r, task, a, size, sha256, now));
    assert u.t.runs[r].status == Succeeded;
    LifecycleIsMonotone(u, steps, r);
  }

  function Results(t: Tables, r: RunId): set<ArtifactId> {
    set a | a in t.flow.artifacts && t.flow.artifacts[a].run == r
  }

  /** A succeeded run has exactly one artifact, a canceled, active or interrupted one has none, and no run two. */
  lemma ResultsAreUnique(t: Tables, r: RunId)
    requires Inv(t) && r in t.runs
    ensures |Results(t, r)| <= 1 && (t.runs[r].status == Succeeded ==> |Results(t, r)| == 1)
    ensures !(t.runs[r].status == Succeeded || t.runs[r].status == Failed) ==> Results(t, r) == {}
    ensures Results(t, r) != {} && r in t.flow.handoffs ==> t.flow.handoffs[r].state == Accepted
  {
    hide RunsLinked, ApprovalsLinked, ActionsLinked, HandoffsLinked, Owned, Drafted, Projected, Admitted, Gated,
      Bounded, Budgeted, Barred;
    AtMostOne(Results(t, r));
    if HasArtifact(t.flow.artifacts, r) {
      var a :| a in t.flow.artifacts && t.flow.artifacts[a].run == r;
      assert a in Results(t, r);
    }
  }

  /** A draft is claimed while the handoff is accepted and its run active, and never a second time. */
  lemma DraftsOnce(s: State, r: RunId, steps: seq<Step>)
    requires Inv(s.t) && ClaimDraft(s, r).yes && LegalRun(ClaimDraft(s, r).s, steps)
    ensures r in s.t.flow.handoffs && s.t.flow.handoffs[r].state == Accepted
    ensures r in s.t.runs && Active(s.t.runs[r].status) && !s.t.stopped
    ensures !ClaimDraft(Exec(ClaimDraft(s, r).s, steps), r).yes
  {
    hide Inv, Exec, LegalRun, RunsEvolve, OutcomesStand, FlowEvolves, DraftsEvolve, LatchEvolves, Conserved;
    var u := ClaimDraft(s, r).s;
    var x :| x in DraftActions(s.t, r);
    NextKeeps(s, DoClaimDraft(r));
    TraceOnward(u, steps);
    var v := Exec(u, steps);
    assert u.t.gates.actions[x].state == Claimed;
    OneDraftAction(v.t, r, x);
  }

  lemma OneDraftAction(t: Tables, r: RunId, x: ActionId)
    requires Inv(t) && x in t.gates.actions && t.gates.actions[x].run == r && t.gates.actions[x].kind == HandoffDraft
    requires t.gates.actions[x].state != Pending
    ensures DraftActions(t, r) == {}
  {
    hide RunsLinked, ApprovalsLinked, ActionsLinked, HandoffsLinked, Owned, Authored, Live;
  }

  /** A claim is granted as soon as the handoff is accepted and the run active, unless one was granted before
      or the run's pending actions were dropped. */
  lemma ClaimExactly(s: State, r: RunId)
    requires Inv(s.t)
    ensures ClaimDraft(s, r).yes <==> MayDraft(s.t, r) && DraftActions(s.t, r) != {}
  {
    hide RunsLinked, ApprovalsLinked, ActionsLinked, HandoffsLinked, Owned, Authored, Live;
    AtMostOne(DraftActions(s.t, r));
  }

  // ---------- the sweep ----------

  predicate NothingDue(t: Tables, now: int) {
    && (forall r :: r in t.flow.handoffs ==> !HandoffDue(t, r, now))
    && Overdue(t, now) == {} && DueApprovals(t, now) == {}
  }

  lemma OverduePhase(s: State, rs: seq<RunId>, now: int)
    requires Enumerates(rs, Overdue(s.t, now))
    ensures var u := FailOverdue(s, rs, now).t;
      Overdue(u, now) == {} && u.flow == s.t.flow && u.gates == s.t.gates && u.runs.Keys == s.t.runs.Keys
      && forall q :: q in s.t.runs && q !in rs ==> u.runs[q] == s.t.runs[q]
  {
    hide FailOverdue;
    Listed(rs, Overdue(s.t, now));
    OverdueFrame(s, rs, now);
  }

  lemma ExpiryPhase(s: State, xs: seq<ApprovalId>, now: int)
    requires ApprovalsHaveRuns(s.t) && Enumerates(xs, DueApprovals(s.t, now))
    ensures var w := ExpireEach(s, xs, now);
      DueApprovals(w.s.t, now) == {} && Overdue(w.s.t, now) <= Overdue(s.t, now) && w.s.t.flow == s.t.flow
      && w.s.t.runs.Keys == s.t.runs.Keys
      && forall q :: q in s.t.runs && q !in w.effects ==> w.s.t.runs[q] == s.t.runs[q]
  {
    hide ExpireEach;
    Listed(xs, DueApprovals(s.t, now));
    ExpireEachFrame(s, xs, now);
  }

  /** Afterwards nothing is due, and runs outside the returned effects are untouched. */
  lemma SweepIsComplete(s: State, hs: seq<RunId>, rs: seq<RunId>, xs: seq<ApprovalId>, now: int)
    requires Inv(s.t) && SweepRows(s, hs, rs, xs, now)
    ensures var w := Sweep(s, hs, rs, xs, now);
      NothingDue(w.s.t, now)
      && forall q :: q in s.t.runs && q !in w.effects ==> q in w.s.t.runs && w.s.t.runs[q] == s.t.runs[q]
  {
    hide Inv, LapseHandoffs, FailOverdue, ExpireEach, Enumerates, Overdue, DueApprovals;
    var s1 := LapseHandoffs(s, hs, now).s;
    RowsLinked(s.t);
    LapseFrame(s, hs, now);
    Listed(hs, s.t.flow.handoffs.Keys);
    OverduePhase(s1, rs, now);
    ExpiryPhase(FailOverdue(s1, rs, now), xs, now);
  }

  lemma {:induction false} NothingLapses(s: State, rows: seq<RunId>, now: int)
    requires forall r :: r in rows ==> !HandoffDue(s.t, r, now)
    ensures LapseHandoffs(s, rows, now) == Swept(s, [])
  {
    if rows != [] {
      NothingLapses(s, rows[..|rows|-1], now);
    }
  }

  lemma NothingListed<T>(rows: seq<T>, ids: set<T>)
    requires Enumerates(rows, ids)
    ensures rows == [] <==> ids == {}
  {
    if rows != [] {
      assert rows[0] in ids;
    }
  }

  /** A second sweep at the same time changes nothing and returns nothing. */
  lemma SweepIsIdempotent(s: State, hs: seq<RunId>, rs: seq<RunId>, xs: seq<ApprovalId>, now: int,
                          hs': seq<RunId>, rs': seq<RunId>, xs': seq<ApprovalId>)
    requires Inv(s.t) && SweepRows(s, hs, rs, xs, now)
    requires SweepRows(Sweep(s, hs, rs, xs, now).s, hs', rs', xs', now)
    ensures var u := Sweep(s, hs, rs, xs, now).s; Sweep(u, hs', rs', xs', now) == Swept(u, [])
  {
    hide Inv, Sweep, HandoffDue, LapseHandoffs, Enumerates, Overdue, DueApprovals;
    var u := Sweep(s, hs, rs, xs, now).s;
    SweepIsComplete(s, hs, rs, xs, now);
    SecondSweep(u, hs', rs', xs', now);
  }

  lemma SecondSweep(u: State, hs: seq<RunId>, rs: seq<RunId>, xs: seq<ApprovalId>, now: int)
    requires NothingDue(u.t, now) && SweepRows(u, hs, rs, xs, now)
    ensures Sweep(u, hs, rs, xs, now) == Swept(u, [])
  {
    hide HandoffDue, Enumerates, Overdue, DueApprovals;
    Listed(hs, u.t.flow.handoffs.Keys);
    NothingLapses(u, hs, now);
    NothingListed(rs, Overdue(u.t, now));
    assert FailOverdue(u, [], now) == u;
    NothingListed(xs, DueApprovals(u.t, now));
  }

  // ---------- budgets ----------

  /** The task's cap of forty never refuses an action its run's own cap allows. */
  lemma RunCapDecides(s: State, r: RunId)
    requires Inv(s.t) && Conserved(s.t) && r in s.t.runs
    ensures BumpAction(s, r, s.t.runs[r].task).yes <==> Working(s.t, r) && s.t.runs[r].spent < MAX_ACTIONS_PER_RUN
  {
    hide Conserved, RunsOf;
    BudgetIsFixed(s.t, r);
    TaskWithinCap(s.t, s.t.runs[r].task);
    hide Inv;
  }

  lemma BudgetIsFixed(t: Tables, r: RunId)
    requires Inv(t) && r in t.runs
    ensures t.runs[r].budget == MAX_ACTIONS_PER_RUN && t.runs[r].task in t.tasks
  {
    hide ApprovalsLinked, ActionsLinked, HandoffsLinked, Owned, Drafted, Authored, Projected, Admitted, Gated, Bounded,
      Delivered, Barred;
  }

  /** A task that can be handed off has one run, so the budget check of the proposal never fires. */
  lemma ProposalBudgetNeverSpent(t: Tables, input: Input, source: RunId)
    requires Inv(t) && Conserved(t)
    ensures ProposeDenial(t, input, source) != Some(TaskBudgetSpent)
  {
    hide Inv, TaskHandedOff, OccupantsOf, Occupants, HasSmallDraft, Conserved;
    if source in t.runs && t.runs[source].task in t.tasks && !TaskHandedOff(t, t.runs[source].task) {
      UnhandedWithinHalf(t, t.runs[source].task);
    }
  }

  lemma UnhandedWithinHalf(t: Tables, k: TaskId)
    requires Inv(t) && Conserved(t) && k in t.tasks && !TaskHandedOff(t, k)
    ensures t.tasks[k].spent <= MAX_ACTIONS_PER_RUN
  {
    hide RunsLinked, ApprovalsLinked, ActionsLinked, Owned, Drafted, Authored, Projected, Admitted, Gated, Bounded,
      Delivered, Barred;
    var ids := RunsOf(t.runs, k);
    OneRunUnlessHandedOff(t, k);
    CapTotal(t.runs, ids);
  }

  lemma OneRunUnlessHandedOff(t: Tables, k: TaskId)
    requires HandoffsLinked(t.runs, t.flow.handoffs) && !TaskHandedOff(t, k)
    ensures |RunsOf(t.runs, k)| <= 1
  {
    forall r | r in RunsOf(t.runs, k) ensures r !in t.flow.handoffs {
      assert r in t.flow.handoffs ==> SourceOf(t.runs, t.flow.handoffs, r, t.flow.handoffs[r]);
    }
    AtMostOne(RunsOf(t.runs, k));
  }

  // ---------- proposals ----------

  /** The recipient of an undecided handoff is unfinished, and its handoff lapses before its own deadline. */
  lemma ProposedRunIsOpen(t: Tables, r: RunId)
    requires Inv(t) && Rejectable(t, r)
    ensures r in t.runs && !Finished(t.runs[r].status) && t.flow.handoffs[r].expires <= t.runs[r].deadline
    ensures !PendingNames(t.gates.approvals, r) && !HasArtifact(t.flow.artifacts, r)
    ensures t.runs[r].status == Failed || t.runs[r].status == Canceled ==> t.flow.handoffs[r].state != Proposed
  {
    hide Inv, PendingNames, HasArtifact;
    RowsLinked(t);
    ProposedRecipient(t, r);
  }
}
