/** Row selections and row updates, as functions from tables to tables. */
module Rows {
  import opened Types

  predicate Working(t: Tables, r: RunId) {
    r in t.runs && Active(t.runs[r].status) && !t.stopped
  }

  predicate IsLoading(t: Tables, r: RunId) {
    r in t.runs && t.runs[r].load == Loading && !t.stopped
  }

  predicate Occupies(row: Run) {
    Active(row.status) || row.load == Loading
  }

  function ActiveRuns(t: Tables): set<RunId> {
    set r | r in t.runs && Active(t.runs[r].status)
  }

  function Occupants(t: Tables): set<RunId> {
    set r | r in t.runs && Occupies(t.runs[r])
  }

  function OccupantsOf(t: Tables, bot: Bot): set<RunId> {
    set r | r in t.runs && Occupies(t.runs[r]) && t.runs[r].bot == bot
  }

  function Overdue(t: Tables, now: int): set<RunId> {
    set r | r in t.runs && Active(t.runs[r].status) && t.runs[r].deadline <= now
  }

  function DueApprovals(t: Tables, now: int): set<ApprovalId> {
    set a | a in t.gates.approvals && t.gates.approvals[a].state == Pending && t.gates.approvals[a].expires <= now
  }

  predicate Rejectable(t: Tables, r: RunId) {
    r in t.flow.handoffs && t.flow.handoffs[r].state == Proposed
  }

  predicate TaskHandedOff(t: Tables, k: TaskId) {
    exists r :: r in t.flow.handoffs && t.flow.handoffs[r].task == k
  }

  predicate HasArtifact(artifacts: Artifacts, r: RunId) {
    exists a :: a in artifacts && artifacts[a].run == r
  }

  predicate HasSmallDraft(t: Tables, r: RunId) {
    exists a :: a in t.flow.artifacts && t.flow.artifacts[a].run == r && t.flow.artifacts[a].byteSize <= MAX_DRAFT_BYTES
  }

  function DraftActions(t: Tables, r: RunId): set<ActionId> {
    set x | x in t.gates.actions && t.gates.actions[x].run == r && t.gates.actions[x].kind == HandoffDraft
                           && t.gates.actions[x].state == Pending
  }

  /** The two row updates of finishRun; the code throws when the run is missing. */
  function FinishRows(t: Tables, r: RunId, status: RunStatus, now: int, latest: Option<ArtifactId>): Tables
    requires Finished(status)
  {
    if r !in t.runs then t else
    var row := t.runs[r];
    t.(runs := t.runs[r := row.(status := status, completed := Some(now))],
       tasks := if row.task in t.tasks && t.tasks[row.task].current == r
                then t.tasks[row.task := FinishTask(t.tasks[row.task], status, now, latest)]
                else t.tasks)
  }

  function FinishTask(task: Task, status: RunStatus, now: int, latest: Option<ArtifactId>): Task
    requires Finished(status)
  {
    task.(status := FinishedTask(status), updated := now, latest := if latest.Some? then latest else task.latest)
  }

  function SetStatus(t: Tables, r: RunId, status: RunStatus): Tables {
    if r !in t.runs then t else t.(runs := t.runs[r := t.runs[r].(status := status)])
  }

  function SetHandoff(t: Tables, r: RunId, state: HandoffState): Tables
    requires r in t.flow.handoffs
  {
    t.(flow := t.flow.(handoffs := t.flow.handoffs[r := t.flow.handoffs[r].(state := state)]))
  }

  /** The actions of a run that are in one of these states will not be carried out. */
  function DropActions(t: Tables, r: RunId, states: set<GateState>): Tables {
    t.(gates := t.gates.(actions := map x | x in t.gates.actions ::
         if t.gates.actions[x].run == r && t.gates.actions[x].state in states
         then t.gates.actions[x].(state := Dropped) else t.gates.actions[x]))
  }

  function ResolveActions(t: Tables, a: ApprovalId, state: GateState): Tables {
    t.(gates := t.gates.(actions := map x | x in t.gates.actions ::
         if t.gates.actions[x].approval == Some(a) && t.gates.actions[x].state == Pending
         then t.gates.actions[x].(state := state) else t.gates.actions[x]))
  }

  /** Moves an approval and the pending actions that name it to a state. */
  function SettleApproval(t: Tables, a: ApprovalId, to: GateState, resolver: Option<SessionId>): Tables
    requires a in t.gates.approvals
  {
    var row := t.gates.approvals[a].(state := to, resolver := resolver);
    ResolveActions(t.(gates := t.gates.(approvals := t.gates.approvals[a := row])), a, to)
  }

  function ClaimActions(t: Tables, r: RunId, kind: ActionKind): Tables {
    t.(gates := t.gates.(actions := map x | x in t.gates.actions ::
         if t.gates.actions[x].run == r && t.gates.actions[x].kind == kind && t.gates.actions[x].state == Pending
         then t.gates.actions[x].(state := Claimed) else t.gates.actions[x]))
  }

  function DropApprovals(t: Tables, r: RunId): Tables {
    t.(gates := t.gates.(approvals := map a | a in t.gates.approvals ::
         if t.gates.approvals[a].run == r && t.gates.approvals[a].state == Pending
         then t.gates.approvals[a].(state := Dropped) else t.gates.approvals[a]))
  }

  function DropAllApprovals(t: Tables): Tables {
    t.(gates := t.gates.(approvals := map a | a in t.gates.approvals ::
         if t.gates.approvals[a].state == Pending then t.gates.approvals[a].(state := Dropped) else t.gates.approvals[a]))
  }

  function FailLoads(t: Tables): Tables {
    t.(runs := map r | r in t.runs ::
         if t.runs[r].load == Loading then t.runs[r].(load := LoadFailed) else t.runs[r])
  }

  function StartRun(t: Tables, r: RunId, session: SessionId, now: int): Tables {
    if r !in t.runs then t else
    var row := t.runs[r];
    var started := if row.started.Some? then row.started else Some(now);
    t.(runs := t.runs[r := row.(status := Running, session := Some(session), started := started)])
  }

  /** Every task whose current run it is moves with the run that starts. */
  function StartTasks(t: Tables, r: RunId, now: int): Tables {
    t.(tasks := map k | k in t.tasks ::
         if t.tasks[k].current == r then t.tasks[k].(status := InProgress, updated := now) else t.tasks[k])
  }

  /** The row updates of rejectHandoff: only a proposed handoff can be rejected or lapse. */
  function RejectRows(t: Tables, r: RunId, to: HandoffState, status: RunStatus, now: int): Tables
    requires Finished(status)
  {
    if !Rejectable(t, r) then t
    else DropActions(FinishRows(SetHandoff(t, r, to), r, status, now, None), r, {Pending})
  }

  function CancelRows(t: Tables, r: RunId, now: int): Tables {
    DropActions(FinishRows(RejectRows(t, r, Rejected, Canceled, now), r, Canceled, now, None), r, {Pending, Allowed})
  }

  function ExpireRows(t: Tables, a: ApprovalId, now: int): Tables
    requires a in t.gates.approvals
  {
    var row := t.gates.approvals[a];
    FinishRows(SettleApproval(t, a, Expired, row.resolver), row.run, Failed, now, None)
  }

  function StartRows(t: Tables, r: RunId, session: SessionId, now: int): Tables {
    ClaimActions(StartTasks(StartRun(t, r, session, now), r, now), r, Launch)
  }
}
