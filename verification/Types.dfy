/** Rows of the work-record database, the events it appends and the constants that bound it. */
module Types {

  datatype Option<+T> = None | Some(value: T)

  type TaskId = nat
  type RunId = nat
  type ApprovalId = nat
  type ActionId = nat
  type ArtifactId = nat
  type HandoffId = nat
  type CommandId = nat
  type SessionId = nat
  type Key = nat
  type Digest = nat

  const RUN_DEADLINE_MS := 15 * 60 * 1000
  const MAX_ACTIVE_RUNS := 2
  const MAX_ACTIVE_RUNS_PER_BOT := 1
  const MAX_ACTIONS_PER_RUN := 20
  const MAX_ACTIONS_PER_TASK := 40
  const APPROVAL_TTL_MS := 5 * 60 * 1000
  const HANDOFF_TTL_MS := 60000
  const MAX_DRAFT_BYTES := 65536
  const EVENT_REPLAY_LIMIT := 128
  const EVENT_SUBSCRIBER_QUEUE_LIMIT := 32

  datatype Bot = Mara | Ivo
  datatype Provider = Fake | Codex | Claude

  datatype RunStatus =
    | Queued | Running | WaitingApproval | WaitingInput
    | Interrupted
    | Succeeded | Failed | Canceled

  predicate Active(status: RunStatus) {
    status.Queued? || status.Running? || status.WaitingApproval? || status.WaitingInput?
  }

  predicate Finished(status: RunStatus) {
    status.Succeeded? || status.Failed? || status.Canceled?
  }

  datatype TaskStatus = Open | InProgress | Completed | TaskFailed | TaskCanceled

  function FinishedTask(status: RunStatus): TaskStatus
    requires Finished(status)
  {
    match status
    case Succeeded => Completed
    case Failed => TaskFailed
    case Canceled => TaskCanceled
  }

  /** The provider_state column, reduced to its load status. */
  datatype Load = Idle | Loading | Loaded | LoadFailed

  /** States of an approval; an action has one more, Claimed. */
  datatype GateState = Pending | Allowed | Denied | Expired | Dropped | Claimed

  datatype ActionKind = Launch | Tool | HandoffDraft

  datatype HandoffState = Proposed | Accepted | Rejected | Lapsed

  datatype Task = Task(
    session: SessionId, bot: Bot, current: RunId, latest: Option<ArtifactId>,
    status: TaskStatus, spent: nat, updated: int)

  datatype Run = Run(
    task: TaskId, bot: Bot, provider: Provider, budget: nat, deadline: int,
    status: RunStatus, load: Load, session: Option<SessionId>, spent: nat,
    started: Option<int>, completed: Option<int>)

  datatype Approval = Approval(run: RunId, task: TaskId, state: GateState, expires: int, resolver: Option<SessionId>)

  datatype Action = Action(run: RunId, kind: ActionKind, state: GateState, approval: Option<ApprovalId>)

  /** A handoff row. The table is held as a map on its recipient run, a column its DDL declares unique. */
  datatype Handoff = Handoff(id: HandoffId, task: TaskId, source: RunId, state: HandoffState, expires: int)

  datatype Artifact = Artifact(task: TaskId, run: RunId, author: Bot, byteSize: nat, sha256: Digest)

  type Tasks = map<TaskId, Task>
  type Runs = map<RunId, Run>
  type Approvals = map<ApprovalId, Approval>
  type Actions = map<ActionId, Action>
  type Handoffs = map<RunId, Handoff>
  type Artifacts = map<ArtifactId, Artifact>

  /** The approvals and pending_actions tables. */
  datatype Gates = Gates(approvals: Approvals, actions: Actions)

  /** The handoffs and artifacts tables. */
  datatype Flow = Flow(handoffs: Handoffs, artifacts: Artifacts)

  datatype Tables = Tables(
    tasks: Tasks, runs: Runs, gates: Gates, flow: Flow, stopped: bool)

  /** The append-only events table; the sequence number of an event is its index plus one. */
  datatype Event =
    | TaskSubmitted(task: TaskId, run: RunId, bot: Bot)
    | RunRunning(run: RunId, session: SessionId)
    | ApprovalOpened(run: RunId, approval: ApprovalId)
    | ApprovalResolved(approval: ApprovalId, allowed: bool, run: RunId)
    | InputOpened(run: RunId, prompt: Digest)
    | InputAnswered(run: RunId)
    | RunCanceled(run: RunId)
    | StopLatched(canceled: seq<RunId>)
    | DaemonRestarted(interrupted: seq<RunId>)
    | RunSucceeded(run: RunId, artifact: ArtifactId)
    | RunFailed(run: RunId)
    | HandoffProposed(handoff: HandoffId, task: TaskId, run: RunId)
    | HandoffAccepted(handoff: HandoffId, task: TaskId, run: RunId)
    | HandoffRejected(handoff: HandoffId, task: TaskId, run: RunId)
    | HandoffLapsed(handoff: HandoffId, task: TaskId, run: RunId)
    | HandoffArtifact(handoff: HandoffId, task: TaskId, run: RunId, artifact: ArtifactId)
    | PeerProgressed(task: TaskId, run: RunId, body: Digest)

  /** The unique dedupe key of a message; the table ignores a second insert under one key. */
  datatype MessageKey =
    | Request(command: CommandId)
    | ApprovalAsked(approval: ApprovalId)
    | ApprovalDecided(approval: ApprovalId)
    | ApprovalLapsedNote(approval: ApprovalId)
    | ApprovalDeniedNote(approval: ApprovalId)
    | AnswerNote(command: CommandId)
    | CancelNote(run: RunId)
    | StopNote(run: RunId)
    | RestartNote(run: RunId, now: int)
    | HandoffNote(handoff: HandoffId, state: HandoffState)
    | Question(run: RunId, prompt: Digest)
    | ResultNote(run: RunId)
    | FailureNote(run: RunId, error: Digest)
    | DeadlineNote(run: RunId)
    | PeerNote(run: RunId, body: Digest)

  datatype BotChoice = DefaultBot | Named(bot: Bot) | UnknownBot

  /** What a browser session row says when a browser submits a task. */
  datatype Channel =
    | Cli
    | Browser(known: bool, expires: int, provider: Provider, acknowledged: bool, sourceAcknowledged: bool)

  datatype Command =
    | SubmitTask(bot: BotChoice, unsupported: bool, plan: bool)
    | ProposeHandoff(source: RunId)
    | ResolveApproval(approval: ApprovalId, allow: bool)
    | AnswerInput(run: RunId, answers: Digest)
    | CancelRun(run: RunId)
    | LoadSession(run: RunId)
    | StopAll

  datatype Effect = DoLaunch | DoLoad | DispatchTool | RejectTool | ResumeInput | InterruptProvider

  datatype Denial =
    | NoCompletedSource | TaskHasHandoff | StopIsLatched | HandoffConcurrency | TaskBudgetSpent
    | NotCodexSource | NoSmallDraft | DraftChanged
    | LoadNeedsInactiveRun | FakeHasNoSessions | LoadBlocked
    | UnsupportedCapability | NoSuchBot | BrowserNotEligible | NoPlanMode
    | GlobalConcurrency | BotConcurrency
    | NoSuchApproval | ApprovalAlready(state: GateState) | NotActionable | ApprovalTimedOut
    | NotWaitingForInput | NoSuchRun | RunAlready(status: RunStatus)

  datatype Receipt = Receipt(
    command: CommandId, replayed: bool, accepted: bool, denial: Option<Denial>,
    task: Option<TaskId>, run: Option<RunId>, approval: Option<ApprovalId>, handoff: Option<HandoffId>,
    effects: seq<Effect>)

  /** Identifiers minted for one command, drawn before it runs. */
  datatype Ids = Ids(command: CommandId, task: TaskId, run: RunId, action: ActionId, handoff: HandoffId)

  /** One call of applyCommand. `rows` is the order in which the database returns the active runs,
      `draftReadable` whether the source draft is read back intact, and `fault` whether a write throws. */
  datatype Input = Input(
    owner: bool, session: SessionId, channel: Channel, key: Key, command: Command, now: int,
    provider: Provider, ids: Ids, rows: seq<RunId>, draftReadable: bool, fault: bool)

  datatype Committed = Committed(command: Command, receipt: Receipt)

  datatype State = State(
    t: Tables, events: seq<Event>, messages: set<MessageKey>, commands: map<Key, Committed>)

  datatype Refusal = Forbidden | Conflict | Internal

  datatype Reply = Returned(receipt: Receipt) | Thrown(refusal: Refusal)

  /** What the recipient answered when asked to take a handoff. */
  datatype Verdict = Garbled | Verdict(handoff: HandoffId, accept: bool)

  const EMPTY := State(Tables(map[], map[], Gates(map[], map[]), Flow(map[], map[]), false), [], {}, map[])

  predicate Enumerates<T(==)>(rows: seq<T>, ids: set<T>) {
    (forall x :: x in rows ==> x in ids) &&
    (forall x :: x in ids ==> x in rows) &&
    (forall i, j :: 0 <= i < j < |rows| ==> rows[i] != rows[j])
  }
}
