/** Runs of the store in which a succeeded run fails afterwards: a Codex turn completed while an approval of its own was
    still pending, and the sweep that expires the approval finishes the run again. In the second run the task was handed
    off meanwhile, and the handoff lapses in that same sweep. */
module LateExpiry {
  import opened Types
  import opened Rows
  import opened Transactions
  import opened Invariants
  import opened Insertions
  import opened Reachable
  import opened Lifecycle
  import opened Budgets
  import opened Traces
  import opened Guarantees
  import opened Authority
  import Ownership

  const SUBMIT := Input(true, 1, Cli, 0, SubmitTask(DefaultBot, false, false), 0, Codex, Ids(0, 0, 0, 0, 0), [], true, false)

  const DUE := 2 + APPROVAL_TTL_MS

  /** The minute of the handoff ends a millisecond after the approval falls due. */
  const PROPOSE := Input(true, 1, Cli, 1, ProposeHandoff(0), DUE + 1 - HANDOFF_TTL_MS, Codex, Ids(1, 1, 1, 2, 0), [], true, false)

  // ---------- one step at a time ----------

  /** Run 0 works on task 0 of session 1, for Mara and on Codex, and there is nothing else. */
  predicate Only(t: Tables, status: RunStatus) {
    && t.runs.Keys == {0} && t.tasks.Keys == {0} && t.flow.handoffs == map[] && !t.stopped
    && t.runs[0].task == 0 && t.runs[0].bot == Mara && t.runs[0].provider == Codex && t.runs[0].load == Idle
    && t.runs[0].status == status && t.tasks[0].session == 1
  }

  predicate NoneAsked(t: Tables) {
    t.flow.artifacts == map[] && t.gates.approvals == map[] && t.gates.actions.Keys == {0}
  }

  predicate Asked(t: Tables, artifacts: Artifacts) {
    t.flow.artifacts == artifacts && t.gates.approvals == map[0 := Approval(0, 0, Pending, DUE, None)]
    && t.gates.actions.Keys == {0, 1}
  }

  const DRAFT := map[0 := Artifact(0, 0, Mara, 10, 99)]

  lemma Submits()
    ensures Legal(EMPTY, DoApply(SUBMIT))
    ensures var t := Next(EMPTY, DoApply(SUBMIT)).t; Only(t, Queued) && NoneAsked(t) && t.runs[0].spent == t.tasks[0].spent == 0
    ensures var t := Next(EMPTY, DoApply(SUBMIT)).t; t.runs[0].budget == MAX_ACTIONS_PER_RUN
  {
    hide SubmitDenial;
    SubmitIsAdmitted();
  }

  lemma SubmitIsAdmitted()
    ensures SubmitDenial(EMPTY.t, SUBMIT, DefaultBot, false, false) == None
  {
    assert Occupants(EMPTY.t) == {} == OccupantsOf(EMPTY.t, Mara);
  }

  lemma Starts(s: State)
    requires Only(s.t, Queued) && NoneAsked(s.t) && s.t.runs[0].spent == s.t.tasks[0].spent == 0
    requires s.t.runs[0].budget == MAX_ACTIONS_PER_RUN
    ensures Legal(s, DoMarkRunning(0, 5, 1))
    ensures var t := Next(s, DoMarkRunning(0, 5, 1)).t;
      Only(t, Running) && NoneAsked(t) && t.runs[0].spent == t.tasks[0].spent == 0 && t.runs[0].budget == MAX_ACTIONS_PER_RUN
  {
  }

  lemma Counts(s: State)
    requires Only(s.t, Running) && NoneAsked(s.t) && s.t.runs[0].spent == s.t.tasks[0].spent == 0
    requires s.t.runs[0].budget == MAX_ACTIONS_PER_RUN
    ensures Legal(s, DoBump(0, 0)) && BumpAction(s, 0, 0).yes
    ensures var t := Next(s, DoBump(0, 0)).t; Only(t, Running) && NoneAsked(t)
  {
  }

  lemma Asks(s: State)
    requires Only(s.t, Running) && NoneAsked(s.t)
    ensures Legal(s, DoWaitApproval(0, 0, 0, 1, 2))
    ensures var t := Next(s, DoWaitApproval(0, 0, 0, 1, 2)).t; Only(t, WaitingApproval) && Asked(t, map[])
  {
  }

  lemma Completes(s: State)
    requires Only(s.t, WaitingApproval) && Asked(s.t, map[])
    ensures Legal(s, DoComplete(0, 0, 0, 10, 99, 3))
    ensures var t := Next(s, DoComplete(0, 0, 0, 10, 99, 3)).t; Only(t, Succeeded) && Asked(t, DRAFT)
  {
  }

  lemma TaskIsDone(t: Tables)
    requires Inv(t) && Only(t, Succeeded)
    ensures t.tasks[0].current == 0 && t.tasks[0].bot == Mara && t.tasks[0].status == Completed
  {
    hide Inv;
    StatusIsProjected(t, 0);
  }

  lemma ProposeIsGranted(t: Tables)
    requires Inv(t) && Conserved(t) && Only(t, Succeeded) && Asked(t, DRAFT)
    ensures ProposeDenial(t, PROPOSE, 0) == None
  {
    hide Inv, Conserved, ProposeDenial;
    TaskIsDone(t);
    assert t.flow.artifacts[0].run == 0;
    ProposalGranted(t, PROPOSE, 0);
  }

  predicate HandedOff(t: Tables) {
    && 0 in t.runs && t.runs[0].status == Succeeded && 0 in t.tasks && t.tasks[0].status == Completed
    && t.flow.handoffs == map[1 := Handoff(0, 0, 0, Proposed, DUE + 1)]
    && t.gates.approvals == map[0 := Approval(0, 0, Pending, DUE, None)]
  }

  lemma Inserts(t: Tables)
    requires Only(t, Succeeded) && Asked(t, DRAFT) && t.tasks[0].status == Completed
    ensures HandedOff(InsertHandoff(t, PROPOSE.ids, 0, PROPOSE.now))
  {
  }

  lemma Proposes(s: State)
    requires Inv(s.t) && Conserved(s.t) && Only(s.t, Succeeded) && Asked(s.t, DRAFT) && 1 !in s.commands
    ensures Legal(s, DoApply(PROPOSE)) && HandedOff(Next(s, DoApply(PROPOSE)).t)
  {
    hide Inv, Conserved, ProposeDenial, InsertHandoff, HandedOff;
    ProposeIsGranted(s.t);
    TaskIsDone(s.t);
    Inserts(s.t);
  }

  // ---------- runs of the store ----------

  /** A run reaching a state, made longer by one step. */
  lemma {:induction false} Longer(s: State, steps: seq<Step>, step: Step)
    requires LegalRun(s, steps) && Legal(Exec(s, steps), step)
    ensures LegalRun(s, steps + [step]) && Exec(s, steps + [step]) == Next(Exec(s, steps), step)
    decreases |steps|
  {
    hide Next, Legal;
    if steps == [] {
      assert [step][1..] == [];
      assert steps + [step] == [step];
    } else {
      Longer(Next(s, steps[0]), steps[1..], step);
      assert (steps + [step])[1..] == steps[1..] + [step];
    }
  }

  predicate Reaches(steps: seq<Step>, s: State) {
    LegalRun(EMPTY, steps) && Exec(EMPTY, steps) == s
  }

  lemma Extends(steps: seq<Step>, s: State, step: Step) returns (more: seq<Step>, u: State)
    requires Reaches(steps, s) && Legal(s, step)
    ensures u == Next(s, step) && Reaches(more, u)
  {
    hide Next, Legal, LegalRun, Exec;
    Longer(EMPTY, steps, step);
    more, u := steps + [step], Next(s, step);
  }

  lemma FreshCommands()
    ensures Next(EMPTY, DoApply(SUBMIT)).commands.Keys == {0}
  {
    hide SubmitDenial;
    SubmitIsAdmitted();
  }

  lemma KeepsCommands(s: State)
    ensures forall step: Step | step.DoMarkRunning? || step.DoBump? || step.DoWaitApproval? || step.DoComplete? ::
      Next(s, step).commands == s.commands
  {
    hide StartRows, CountAction, OpenApproval, FinishRows, InsertArtifact;
  }

  /** The request is counted, an approval is opened for it, and the turn completes without waiting for the owner. */
  lemma Works() returns (steps: seq<Step>, s: State)
    ensures Reaches(steps, s) && Only(s.t, Succeeded) && Asked(s.t, DRAFT) && 1 !in s.commands
  {
    hide Next, Legal, Only, NoneAsked, Asked;
    Submits();
    FreshCommands();
    NoSteps();
    steps, s := Extends([], EMPTY, DoApply(SUBMIT));
    Starts(s);
    KeepsCommands(s);
    steps, s := Extends(steps, s, DoMarkRunning(0, 5, 1));
    Counts(s);
    KeepsCommands(s);
    steps, s := Extends(steps, s, DoBump(0, 0));
    Asks(s);
    KeepsCommands(s);
    steps, s := Extends(steps, s, DoWaitApproval(0, 0, 0, 1, 2));
    Completes(s);
    KeepsCommands(s);
    steps, s := Extends(steps, s, DoComplete(0, 0, 0, 10, 99, 3));
  }

  lemma NoSteps()
    ensures Reaches([], EMPTY)
  {
  }

  lemma FailingSweep(s: State, r: RunId, now: int) returns (sweep: Step)
    requires Inv(s.t) && r in s.t.runs && 0 in s.t.gates.approvals
    requires s.t.gates.approvals[0].run == r && s.t.gates.approvals[0].state == Pending && s.t.gates.approvals[0].expires <= now
    ensures sweep.DoSweep? && sweep.now == now && Legal(s, sweep)
    ensures var u := Next(s, sweep).t; r in u.runs && u.runs[r].status == Failed
  {
    hide Inv, Sweep, SweepRows;
    var hs, rs, xs := SomeSweep(s, now);
    SweepFailsNamed(s, hs, rs, xs, now, 0);
    sweep := DoSweep(hs, rs, xs, now);
  }

  /** A reachable state with a succeeded run, and a sweep after which that run has failed. */
  lemma SucceededThenFailed() returns (steps: seq<Step>, sweep: Step)
    ensures LegalRun(EMPTY, steps) && Legal(Exec(EMPTY, steps), sweep) && sweep.DoSweep?
    ensures var s := Exec(EMPTY, steps); 0 in s.t.runs && s.t.runs[0].status == Succeeded
    ensures var u := Next(Exec(EMPTY, steps), sweep); 0 in u.t.runs && u.t.runs[0].status == Failed
  {
    hide Inv, Conserved, Next, Legal, LegalRun, Exec;
    var s: State;
    steps, s := Works();
    ReachableStates(steps);
    sweep := FailingSweep(s, 0, DUE);
  }

  /** A reachable state with an undecided handoff, and a sweep at the end of its minute in which the handoff lapses and the
      task of the completed run that proposed it fails. */
  lemma LapsedAndFailed() returns (steps: seq<Step>, sweep: Step)
    ensures LegalRun(EMPTY, steps) && Legal(Exec(EMPTY, steps), sweep) && sweep.DoSweep?
    ensures var s := Exec(EMPTY, steps);
      Rejectable(s.t, 1) && s.t.flow.handoffs[1].task == 0 && 0 in s.t.tasks && s.t.tasks[0].status == Completed
    ensures var u := Next(Exec(EMPTY, steps), sweep); 0 in u.t.tasks && u.t.tasks[0].status == TaskFailed && !Rejectable(u.t, 1)
  {
    hide Inv, Conserved, Next, Legal, LegalRun, Exec;
    var s: State;
    steps, s := Works();
    ReachableStates(steps);
    Proposes(s);
    steps, s := Extends(steps, s, DoApply(PROPOSE));
    ReachableStates(steps);
    sweep := FailingSweep(s, 0, DUE + 1);
    LapsingSweep(s, sweep);
  }

  lemma LapsingSweep(s: State, sweep: Step)
    requires Inv(s.t) && HandedOff(s.t) && Legal(s, sweep) && sweep.DoSweep? && sweep.now == DUE + 1
    ensures var u := Next(s, sweep); 0 in u.t.tasks && u.t.tasks[0].status == TaskFailed && !Rejectable(u.t, 1)
  {
    hide Inv, SweepRows, Sweep, Overdue, RunsEvolve, OutcomesStand, GatesEvolve, DraftsEvolve, LatchEvolves;
    var t := s.t;
    assert 0 in DueApprovals(t, sweep.now) && t.gates.approvals[0].run == t.flow.handoffs[1].source;
    Ownership.SweepRefuses(s, sweep.handoffs, sweep.overdue, sweep.due, sweep.now, 1);
    SweepIsComplete(s, sweep.handoffs, sweep.overdue, sweep.due, sweep.now);
    NextOnward(s, sweep);
    assert HandoffDue(t, 1, sweep.now);
  }
}
