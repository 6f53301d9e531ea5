/** The event log is a complete history: reading it from the start rebuilds every run's status, every
    task's status, owner, current run and latest artifact, every handoff's state and the latch. */
module History {
  import opened Types
  import opened Rows
  import opened Transactions
  import opened Invariants
  import opened Preservation
  import opened Insertions
  import opened Reachability
  import opened Stopping
  import opened Sweeping
  import opened Reachable

  datatype RunView = RunView(task: TaskId, status: RunStatus)
  datatype TaskView = TaskView(status: TaskStatus, bot: Bot, current: RunId, latest: Option<ArtifactId>)
  datatype Board = Board(
    tasks: map<TaskId, TaskView>, runs: map<RunId, RunView>, handoffs: map<RunId, HandoffState>, stopped: bool)

  function ViewTask(task: Task): TaskView {
    TaskView(task.status, task.bot, task.current, task.latest)
  }

  function ViewRun(run: Run): RunView {
    RunView(run.task, run.status)
  }

  function ViewTasks(tasks: Tasks): map<TaskId, TaskView> {
    map k | k in tasks :: ViewTask(tasks[k])
  }

  function ViewRuns(runs: Runs): map<RunId, RunView> {
    map r | r in runs :: ViewRun(runs[r])
  }

  function ViewHandoffs(handoffs: Handoffs): map<RunId, HandoffState> {
    map r | r in handoffs :: handoffs[r].state
  }

  /** The part of the tables the log accounts for. */
  function View(t: Tables): Board {
    Board(ViewTasks(t.tasks), ViewRuns(t.runs), ViewHandoffs(t.flow.handoffs), t.stopped)
  }

  function Mark(b: Board, r: RunId, status: RunStatus): Board {
    if r !in b.runs then b else b.(runs := b.runs[r := b.runs[r].(status := status)])
  }

  function CloseTask(task: TaskView, status: RunStatus, latest: Option<ArtifactId>): TaskView
    requires Finished(status)
  {
    task.(status := FinishedTask(status), latest := if latest.Some? then latest else task.latest)
  }

  predicate Current(b: Board, r: RunId) {
    r in b.runs && b.runs[r].task in b.tasks && b.tasks[b.runs[r].task].current == r
  }

  function Close(b: Board, r: RunId, status: RunStatus, latest: Option<ArtifactId>): Board
    requires Finished(status)
  {
    if Current(b, r)
    then Mark(b, r, status).(tasks := b.tasks[b.runs[r].task := CloseTask(b.tasks[b.runs[r].task], status, latest)])
    else Mark(b, r, status)
  }

  /** How a reader of the log updates the board on one event. */
  function Read(b: Board, e: Event): Board {
    match e
    case TaskSubmitted(k, r, bot) =>
      b.(tasks := b.tasks[k := TaskView(Open, bot, r, None)], runs := b.runs[r := RunView(k, Queued)])
    case RunRunning(r, _) =>
      if Current(b, r)
      then Mark(b, r, Running).(tasks := b.tasks[b.runs[r].task := b.tasks[b.runs[r].task].(status := InProgress)])
      else Mark(b, r, Running)
    case ApprovalOpened(r, _) => Mark(b, r, WaitingApproval)
    case ApprovalResolved(_, allowed, r) => if allowed then Mark(b, r, Running) else b
    case InputOpened(r, _) => Mark(b, r, WaitingInput)
    case InputAnswered(r) => Mark(b, r, Running)
    case RunCanceled(r) => Close(b, r, Canceled, None)
    case StopLatched(_) => b.(stopped := true)
    case DaemonRestarted(rows) =>
      b.(runs := map r | r in b.runs :: if r in rows then b.runs[r].(status := Interrupted) else b.runs[r])
    case RunSucceeded(r, a) => Close(b, r, Succeeded, Some(a))
    case RunFailed(r) => Close(b, r, Failed, None)
    case HandoffProposed(_, k, r) => b.(handoffs := b.handoffs[r := Proposed], runs := b.runs[r := RunView(k, Queued)])
    case HandoffAccepted(_, k, r) =>
      if k !in b.tasks then b else
      b.(handoffs := b.handoffs[r := Accepted],
         tasks := b.tasks[k := b.tasks[k].(bot := Ivo, status := InProgress, current := r)])
    case HandoffRejected(_, _, r) => Close(b.(handoffs := b.handoffs[r := Rejected]), r, Failed, None)
    case HandoffLapsed(_, _, r) => Close(b.(handoffs := b.handoffs[r := Lapsed]), r, Failed, None)
    case HandoffArtifact(_, _, _, _) => b
    case PeerProgressed(_, _, _) => b
  }

  function ReadAll(log: seq<Event>): Board {
    if log == [] then Board(map[], map[], map[], false)
    else Read(ReadAll(log[..|log|-1]), log[|log|-1])
  }

  predicate Logged(s: State) {
    ReadAll(s.events) == View(s.t)
  }

  lemma ReadOne(log: seq<Event>, e: Event)
    ensures ReadAll(log + [e]) == Read(ReadAll(log), e)
  {
    assert (log + [e])[..|log|] == log;
  }

  /** A step is logged when its event does to the board what its updates do to the tables. */
  lemma Extend(s: State, u: State, e: Event)
    requires Logged(s) && u.events == s.events + [e] && View(u.t) == Read(View(s.t), e)
    ensures Logged(u)
  {
    hide View, Read;
    ReadOne(s.events, e);
  }

  // ---------- what each update does to the board ----------

  lemma RunsView(runs: Runs, r: RunId, row: Run)
    ensures ViewRuns(runs[r := row]) == ViewRuns(runs)[r := ViewRun(row)]
    ensures forall q :: q in ViewRuns(runs) <==> q in runs
    ensures forall q :: q in runs ==> ViewRuns(runs)[q] == ViewRun(runs[q])
  {
  }

  lemma TasksView(tasks: Tasks, k: TaskId, row: Task)
    ensures ViewTasks(tasks[k := row]) == ViewTasks(tasks)[k := ViewTask(row)]
    ensures forall q :: q in ViewTasks(tasks) <==> q in tasks
    ensures forall q :: q in tasks ==> ViewTasks(tasks)[q] == ViewTask(tasks[q])
  {
  }

  lemma HandoffsView(handoffs: Handoffs, r: RunId, row: Handoff)
    ensures ViewHandoffs(handoffs[r := row]) == ViewHandoffs(handoffs)[r := row.state]
  {
  }

  lemma FinishView(t: Tables, r: RunId, status: RunStatus, now: int, latest: Option<ArtifactId>)
    requires Finished(status)
    ensures View(FinishRows(t, r, status, now, latest)) == Close(View(t), r, status, latest)
  {
    hide ViewRuns, ViewTasks, ViewHandoffs;
    var u := FinishRows(t, r, status, now, latest);
    if r in t.runs {
      RunsView(t.runs, r, u.runs[r]);
      var k := t.runs[r].task;
      if k in t.tasks {
        TasksView(t.tasks, k, FinishTask(t.tasks[k], status, now, latest));
      } else {
        TasksView(t.tasks, k, Task(0, Mara, r, None, Open, 0, 0));
      }
    } else {
      RunsView(t.runs, r, NewRun(0, Mara, Fake, 0, 0));
    }
  }

  lemma SetStatusView(t: Tables, r: RunId, status: RunStatus)
    ensures View(SetStatus(t, r, status)) == Mark(View(t), r, status)
  {
    assert View(SetStatus(t, r, status)).runs == Mark(View(t), r, status).runs;
  }

  lemma SetHandoffView(t: Tables, r: RunId, to: HandoffState)
    requires r in t.flow.handoffs
    ensures View(SetHandoff(t, r, to)) == View(t).(handoffs := View(t).handoffs[r := to])
  {
    assert View(SetHandoff(t, r, to)).handoffs == View(t).handoffs[r := to];
  }

  lemma RejectView(t: Tables, r: RunId, to: HandoffState, status: RunStatus, now: int)
    requires Rejectable(t, r) && Finished(status)
    ensures View(RejectRows(t, r, to, status, now)) == Close(View(t).(handoffs := View(t).handoffs[r := to]), r, status, None)
  {
    SetHandoffView(t, r, to);
    FinishView(SetHandoff(t, r, to), r, status, now, None);
  }

  /** The log says a canceled recipient was rejected and failed, then canceled: the second event prevails. */
  lemma CancelView(t: Tables, r: RunId, now: int, h: HandoffId, k: TaskId)
    ensures var b := if Rejectable(t, r) then Read(View(t), HandoffRejected(h, k, r)) else View(t);
      View(CancelRows(t, r, now)) == Read(b, RunCanceled(r))
  {
    var u := RejectRows(t, r, Rejected, Canceled, now);
    FinishView(u, r, Canceled, now, None);
    if Rejectable(t, r) {
      RejectView(t, r, Rejected, Canceled, now);
      CloseTwice(View(t).(handoffs := View(t).handoffs[r := Rejected]), r);
    }
    hide View, RejectRows, FinishRows, Close;
    DropActionsView(FinishRows(u, r, Canceled, now, None), r, {Pending, Allowed});
  }

  lemma DropActionsView(t: Tables, r: RunId, states: set<GateState>)
    ensures View(DropActions(t, r, states)) == View(t)
  {
  }

  lemma CloseTwice(b: Board, r: RunId)
    ensures Close(Close(b, r, Canceled, None), r, Canceled, None) == Close(Close(b, r, Failed, None), r, Canceled, None)
  {
    if r in b.runs {
      var c := b.runs[r].(status := Canceled);
      assert b.runs[r := c][r := c] == b.runs[r := b.runs[r].(status := Failed)][r := c];
      if Current(b, r) {
        var k := b.runs[r].task;
        var d := CloseTask(b.tasks[k], Canceled, None);
        assert b.tasks[k := d][k := d] == b.tasks[k := CloseTask(b.tasks[k], Failed, None)][k := d];
      }
    }
  }

  /** Only the task of a run can have it as its current run. */
  lemma StartTasksRow(t: Tables, r: RunId, now: int)
    requires Projected(t.tasks, t.runs) && r in t.runs
    ensures var k := t.runs[r].task;
      StartTasks(t, r, now) ==
      if k in t.tasks && t.tasks[k].current == r
      then t.(tasks := t.tasks[k := t.tasks[k].(status := InProgress, updated := now)]) else t
  {
    var k, u := t.runs[r].task, StartTasks(t, r, now);
    assert forall q :: q in t.tasks && t.tasks[q].current == r ==> q == k;
    if k in t.tasks && t.tasks[k].current == r {
      assert u.tasks == t.tasks[k := t.tasks[k].(status := InProgress, updated := now)];
    } else {
      assert u.tasks == t.tasks;
    }
  }

  lemma StartView(t: Tables, r: RunId, session: SessionId, now: int)
    requires Projected(t.tasks, t.runs) && r in t.runs && Active(t.runs[r].status)
    ensures View(StartRows(t, r, session, now)) == Read(View(t), RunRunning(r, session))
  {
    hide ViewRuns, ViewTasks, ViewHandoffs, Projected, StartTasks, Steady;
    var u := StartRun(t, r, session, now);
    var k := t.runs[r].task;
    StartRunSteady(t, r, session, now);
    SteadyStillProjected(t, u);
    StartTasksRow(u, r, now);
    RunsView(t.runs, r, u.runs[r]);
    if k in t.tasks {
      TasksView(t.tasks, k, t.tasks[k].(status := InProgress, updated := now));
    } else {
      TasksView(t.tasks, k, Task(0, Mara, r, None, Open, 0, 0));
    }
  }

  lemma SteadyStillProjected(t: Tables, u: Tables)
    requires Steady(t, u) && Projected(t.tasks, t.runs)
    ensures Projected(u.tasks, u.runs)
  {
    hide RunsSteady, TasksSteady, Projected;
    SteadyProjected(t, u);
  }

  lemma AcceptView(t: Tables, r: RunId, x: ActionId, now: int, h: HandoffId)
    requires r in t.flow.handoffs && t.flow.handoffs[r].task in t.tasks && t.tasks[t.flow.handoffs[r].task].bot == Mara
    ensures View(AcceptRows(t, r, x, now)) == Read(View(t), HandoffAccepted(h, t.flow.handoffs[r].task, r))
  {
    var u, b := View(AcceptRows(t, r, x, now)), Read(View(t), HandoffAccepted(h, t.flow.handoffs[r].task, r));
    assert u.runs == b.runs;
    assert u.tasks == b.tasks;
    assert u.handoffs == b.handoffs;
  }

  lemma InsertTaskView(t: Tables, ids: Ids, session: SessionId, bot: Bot, provider: Provider, now: int)
    ensures View(InsertTask(t, ids, session, bot, provider, now)) == Read(View(t), TaskSubmitted(ids.task, ids.run, bot))
  {
    hide ViewRuns, ViewTasks, ViewHandoffs;
    RunsView(t.runs, ids.run, NewRun(ids.task, bot, provider, MAX_ACTIONS_PER_RUN, now));
    TasksView(t.tasks, ids.task, Task(session, bot, ids.run, None, Open, 0, now));
  }

  lemma InsertHandoffView(t: Tables, ids: Ids, source: RunId, now: int)
    requires source in t.runs
    ensures View(InsertHandoff(t, ids, source, now))
         == Read(View(t), HandoffProposed(ids.handoff, t.runs[source].task, ids.run))
  {
    hide ViewRuns, ViewTasks, ViewHandoffs;
    var u := InsertHandoff(t, ids, source, now);
    RunsView(t.runs, ids.run, u.runs[ids.run]);
    HandoffsView(t.flow.handoffs, ids.run, u.flow.handoffs[ids.run]);
  }

  lemma GatesView(t: Tables, u: Tables)
    requires u.tasks == t.tasks && u.flow.handoffs == t.flow.handoffs && u.stopped == t.stopped
    requires u.runs.Keys == t.runs.Keys
    requires forall r :: r in t.runs ==> u.runs[r].task == t.runs[r].task && u.runs[r].status == t.runs[r].status
    ensures View(u) == View(t)
  {
    assert View(u).runs == View(t).runs;
  }
}
