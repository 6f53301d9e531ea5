/** Every transaction of the store as a function of the state before it. */
module Transactions {
  import opened Types
  import opened Rows

  datatype Outcome = Outcome(s: State, receipt: Receipt)
  datatype Answer = Answer(s: State, yes: bool)
  datatype Swept = Swept(s: State, effects: seq<RunId>)

  function Post(s: State, key: MessageKey, event: Event): State {
    s.(messages := s.messages + {key}, events := s.events + [event])
  }

  function FinishRun(s: State, r: RunId, status: RunStatus, now: int, latest: Option<ArtifactId>,
                     key: MessageKey, event: Event): State
    requires Finished(status)
  {
    Post(s.(t := FinishRows(s.t, r, status, now, latest)), key, event)
  }

  function RejectHandoff(s: State, r: RunId, to: HandoffState, status: RunStatus, now: int): State
    requires Finished(status)
  {
    if !Rejectable(s.t, r) then s else
    var h := s.t.flow.handoffs[r];
    var event := if to == Rejected then HandoffRejected(h.id, h.task, r) else HandoffLapsed(h.id, h.task, r);
    Post(s.(t := RejectRows(s.t, r, to, status, now)), HandoffNote(h.id, to), event)
  }

  function ExpireApproval(s: State, a: ApprovalId, now: int): State {
    if a !in s.t.gates.approvals then s else
    Post(s.(t := ExpireRows(s.t, a, now)), ApprovalLapsedNote(a), RunFailed(s.t.gates.approvals[a].run))
  }

  // ---------- owner commands ----------

  function Refuse(s: State, command: CommandId, denial: Denial): Outcome {
    Outcome(s, Receipt(command, false, false, Some(denial), None, None, None, None, []))
  }

  function Grant(s: State, command: CommandId, task: TaskId, r: RunId, effect: Effect): Outcome {
    Outcome(s, Receipt(command, false, true, None, Some(task), Some(r), None, None, [effect]))
  }

  function ProviderFor(configured: Provider, bot: Bot): Provider {
    if configured == Fake then Fake else if bot == Ivo then Claude else Codex
  }

  predicate BrowserMaySubmit(channel: Channel, provider: Provider, bot: Bot, now: int) {
    channel.Browser? ==>
      channel.known && now < channel.expires && channel.provider == provider &&
      channel.acknowledged && channel.sourceAcknowledged && bot == Mara
  }

  function SubmitDenial(t: Tables, input: Input, bot: BotChoice, unsupported: bool, plan: bool): Option<Denial> {
    var name := if bot.Named? then bot.bot else Mara;
    if unsupported then Some(UnsupportedCapability)
    else if bot.UnknownBot? then Some(NoSuchBot)
    else if !BrowserMaySubmit(input.channel, input.provider, name, input.now) then Some(BrowserNotEligible)
    else if ProviderFor(input.provider, name) == Claude && plan then Some(NoPlanMode)
    else if t.stopped then Some(StopIsLatched)
    else if |Occupants(t)| >= MAX_ACTIVE_RUNS then Some(GlobalConcurrency)
    else if |OccupantsOf(t, name)| >= MAX_ACTIVE_RUNS_PER_BOT then Some(BotConcurrency)
    else None
  }

  function NewRun(task: TaskId, bot: Bot, provider: Provider, budget: nat, now: int): Run {
    Run(task, bot, provider, budget, now + RUN_DEADLINE_MS, Queued, Idle, None, 0, None, None)
  }

  function InsertTask(t: Tables, ids: Ids, session: SessionId, bot: Bot, provider: Provider, now: int): Tables {
    t.(tasks := t.tasks[ids.task := Task(session, bot, ids.run, None, Open, 0, now)],
       runs := t.runs[ids.run := NewRun(ids.task, bot, provider, MAX_ACTIONS_PER_RUN, now)],
       gates := t.gates.(actions := t.gates.actions[ids.action := Action(ids.run, Launch, Pending, None)]))
  }

  function Submit(s: State, input: Input, bot: BotChoice, unsupported: bool, plan: bool): Outcome {
    var ids := input.ids;
    var denial := SubmitDenial(s.t, input, bot, unsupported, plan);
    if denial.Some? then Refuse(s, ids.command, denial.value) else
    var name := if bot.Named? then bot.bot else Mara;
    var t1 := InsertTask(s.t, ids, input.session, name, ProviderFor(input.provider, name), input.now);
    Grant(Post(s.(t := t1), Request(ids.command), TaskSubmitted(ids.task, ids.run, name)),
          ids.command, ids.task, ids.run, DoLaunch)
  }

  function ProposeDenial(t: Tables, input: Input, source: RunId): Option<Denial> {
    if !(source in t.runs && t.runs[source].task in t.tasks && t.runs[source].status == Succeeded
         && t.tasks[t.runs[source].task].bot == Mara && t.runs[source].bot == Mara
         && t.tasks[t.runs[source].task].session == input.session) then Some(NoCompletedSource)
    else
      var k := t.runs[source].task;
      if TaskHandedOff(t, k) then Some(TaskHasHandoff)
      else if t.stopped then Some(StopIsLatched)
      else if |Occupants(t)| >= MAX_ACTIVE_RUNS || |OccupantsOf(t, Ivo)| >= MAX_ACTIVE_RUNS_PER_BOT
        then Some(HandoffConcurrency)
      else if t.tasks[k].spent + 2 > MAX_ACTIONS_PER_TASK then Some(TaskBudgetSpent)
      else if t.runs[source].provider != Codex then Some(NotCodexSource)
      else if !HasSmallDraft(t, source) then Some(NoSmallDraft)
      else if !input.draftReadable then Some(DraftChanged)
      else None
  }

  function InsertHandoff(t: Tables, ids: Ids, source: RunId, now: int): Tables
    requires source in t.runs
  {
    var origin := t.runs[source];
    t.(flow := t.flow.(handoffs := t.flow.handoffs[
         ids.run := Handoff(ids.handoff, origin.task, source, Proposed, now + HANDOFF_TTL_MS)]),
       runs := t.runs[ids.run := NewRun(origin.task, Ivo, Claude, origin.budget, now)],
       gates := t.gates.(actions := t.gates.actions[ids.action := Action(ids.run, Launch, Pending, None)]))
  }

  function Propose(s: State, input: Input, source: RunId): Outcome {
    var ids := input.ids;
    var denial := ProposeDenial(s.t, input, source);
    if denial.Some? then Refuse(s, ids.command, denial.value) else
    var k := s.t.runs[source].task;
    var s1 := Post(s.(t := InsertHandoff(s.t, ids, source, input.now)),
                   HandoffNote(ids.handoff, Proposed), HandoffProposed(ids.handoff, k, ids.run));
    Outcome(s1, Grant(s1, ids.command, k, ids.run, DoLaunch).receipt.(handoff := Some(ids.handoff)))
  }

  function Resolve(s: State, input: Input, a: ApprovalId, allow: bool): Outcome {
    var c := input.ids.command;
    if a !in s.t.gates.approvals then Refuse(s, c, NoSuchApproval) else
    var row := s.t.gates.approvals[a];
    if row.state != Pending then ForApproval(Refuse(s, c, ApprovalAlready(row.state)), a)
    else if !(row.run in s.t.runs && s.t.runs[row.run].status == WaitingApproval && !s.t.stopped)
      then ForApproval(Refuse(s, c, NotActionable), a)
    else if row.expires <= input.now then
      var s1 := ExpireApproval(s, a, input.now);
      Outcome(s1, Receipt(c, false, false, Some(ApprovalTimedOut), Some(row.task), Some(row.run), Some(a), None,
                          [InterruptProvider]))
    else
      var s1 := DecideApproval(s, a, allow, input.session);
      if allow then
        ForApproval(Grant(s1.(t := SetStatus(s1.t, row.run, Running)), c, row.task, row.run, DispatchTool), a)
      else
        ForApproval(Grant(FinishRun(s1, row.run, Failed, input.now, None, ApprovalDeniedNote(a), RunFailed(row.run)),
                          c, row.task, row.run, RejectTool), a)
  }

  function ForApproval(o: Outcome, a: ApprovalId): Outcome {
    o.(receipt := o.receipt.(approval := Some(a)))
  }

  function DecideApproval(s: State, a: ApprovalId, allow: bool, session: SessionId): State
    requires a in s.t.gates.approvals
  {
    var row := s.t.gates.approvals[a];
    var to := if allow then Allowed else Denied;
    Post(s.(t := SettleApproval(s.t, a, to, Some(session))), ApprovalDecided(a), ApprovalResolved(a, allow, row.run))
  }

  function AnswerRun(s: State, input: Input, r: RunId): Outcome {
    var c := input.ids.command;
    if !(r in s.t.runs && s.t.runs[r].status == WaitingInput) then ForRun(Refuse(s, c, NotWaitingForInput), r)
    else Grant(Post(s.(t := SetStatus(s.t, r, Running)), AnswerNote(c), InputAnswered(r)),
               c, s.t.runs[r].task, r, ResumeInput)
  }

  function ForRun(o: Outcome, r: RunId): Outcome {
    o.(receipt := o.receipt.(run := Some(r)))
  }

  function CancelOne(s: State, r: RunId, now: int, key: MessageKey): State {
    Post(RejectHandoff(s, r, Rejected, Canceled, now).(t := CancelRows(s.t, r, now)), key, RunCanceled(r))
  }

  function Cancel(s: State, input: Input, r: RunId): Outcome {
    var c := input.ids.command;
    if r !in s.t.runs then ForRun(Refuse(s, c, NoSuchRun), r)
    else if Finished(s.t.runs[r].status) then ForRun(Refuse(s, c, RunAlready(s.t.runs[r].status)), r)
    else
      var s1 := CancelOne(s, r, input.now, CancelNote(r));
      Grant(s1.(t := DropApprovals(s1.t, r)), c, s.t.runs[r].task, r, InterruptProvider)
  }

  function LoadDenial(t: Tables, r: RunId): Option<Denial> {
    if !(r in t.runs && t.runs[r].session.Some? && !Active(t.runs[r].status)) then Some(LoadNeedsInactiveRun)
    else if t.runs[r].provider == Fake then Some(FakeHasNoSessions)
    else if t.stopped || t.runs[r].load == Loading || |Occupants(t)| >= MAX_ACTIVE_RUNS
            || |OccupantsOf(t, t.runs[r].bot)| >= MAX_ACTIVE_RUNS_PER_BOT then Some(LoadBlocked)
    else None
  }

  function SetLoad(t: Tables, r: RunId, load: Load): Tables {
    if r !in t.runs then t else t.(runs := t.runs[r := t.runs[r].(load := load)])
  }

  function BeginLoad(s: State, input: Input, r: RunId): Outcome {
    var c := input.ids.command;
    var denial := LoadDenial(s.t, r);
    if denial.Some? then Refuse(s, c, denial.value)
    else Grant(s.(t := SetLoad(s.t, r, Loading)), c, s.t.runs[r].task, r, DoLoad)
  }

  /** Cancels the given runs one after the other. */
  function CancelEach(s: State, rows: seq<RunId>, now: int): State {
    if rows == [] then s
    else
      var s1 := CancelEach(s, rows[..|rows|-1], now);
      CancelOne(s1, rows[|rows|-1], now, StopNote(rows[|rows|-1]))
  }

  function Stop(s: State, input: Input): Outcome {
    var s1 := CancelEach(s.(t := s.t.(stopped := true)), input.rows, input.now);
    var s2 := s1.(t := FailLoads(DropAllApprovals(s1.t)), events := s1.events + [StopLatched(input.rows)]);
    Outcome(s2, Receipt(input.ids.command, false, true, None, None, None, None, None, [InterruptProvider]))
  }

  function Dispatch(s: State, input: Input): Outcome {
    match input.command
    case SubmitTask(bot, unsupported, plan) => Submit(s, input, bot, unsupported, plan)
    case ProposeHandoff(source) => Propose(s, input, source)
    case ResolveApproval(a, allow) => Resolve(s, input, a, allow)
    case AnswerInput(r, _) => AnswerRun(s, input, r)
    case CancelRun(r) => Cancel(s, input, r)
    case LoadSession(r) => BeginLoad(s, input, r)
    case StopAll => Stop(s, input)
  }

  function ReplayOf(receipt: Receipt): Receipt {
    receipt.(replayed := true, effects := [])
  }

  /** applyCommand: what the caller sees. */
  function Respond(s: State, input: Input): Reply {
    if !input.owner then Thrown(Forbidden)
    else if input.key in s.commands then
      if s.commands[input.key].command != input.command then Thrown(Conflict)
      else Returned(ReplayOf(s.commands[input.key].receipt))
    else if input.fault then Thrown(Internal)
    else Returned(Dispatch(s, input).receipt)
  }

  predicate Commits(s: State, input: Input) {
    input.owner && input.key !in s.commands && !input.fault
  }

  /** applyCommand: the state it leaves behind. */
  function Apply(s: State, input: Input): State {
    if !Commits(s, input) then s else
    var o := Dispatch(s, input);
    o.s.(commands := o.s.commands[input.key := Committed(input.command, o.receipt)])
  }

  // ---------- engine callbacks ----------

  function MarkRunning(s: State, r: RunId, session: SessionId, now: int): Answer {
    if !Working(s.t, r) then Answer(s, false) else
    Answer(s.(t := StartRows(s.t, r, session, now), events := s.events + [RunRunning(r, session)]), true)
  }

  function SaveLoad(s: State, r: RunId, load: Load): State {
    s.(t := SetLoad(s.t, r, load))
  }

  function OpenApproval(t: Tables, r: RunId, task: TaskId, a: ApprovalId, x: ActionId, now: int): Tables {
    SetStatus(
      t.(gates := Gates(t.gates.approvals[a := Approval(r, task, Pending, now + APPROVAL_TTL_MS, None)],
                        t.gates.actions[x := Action(r, Tool, Pending, Some(a))])),
      r, WaitingApproval)
  }

  function WaitApproval(s: State, r: RunId, task: TaskId, a: ApprovalId, x: ActionId, now: int): Answer {
    if !Working(s.t, r) then Answer(s, false) else
    Answer(Post(s.(t := OpenApproval(s.t, r, task, a, x, now)), ApprovalAsked(a), ApprovalOpened(r, a)), true)
  }

  function WaitInput(s: State, r: RunId, prompt: Digest): State {
    if !Working(s.t, r) then s else
    Post(s.(t := SetStatus(s.t, r, WaitingInput)), Question(r, prompt), InputOpened(r, prompt))
  }

  predicate MayComplete(t: Tables, r: RunId) {
    Working(t, r) && (r in t.flow.handoffs ==> t.flow.handoffs[r].state == Accepted)
  }

  function InsertArtifact(t: Tables, r: RunId, task: TaskId, a: ArtifactId, size: nat, sha256: Digest): Tables
    requires r in t.runs
  {
    t.(flow := t.flow.(artifacts := t.flow.artifacts[a := Artifact(task, r, t.runs[r].bot, size, sha256)]))
  }

  function Complete(s: State, r: RunId, task: TaskId, a: ArtifactId, size: nat, sha256: Digest, now: int): Answer {
    if !MayComplete(s.t, r) then Answer(s, false) else
    var s1 := FinishRun(s.(t := InsertArtifact(s.t, r, task, a, size, sha256)), r, Succeeded, now, Some(a),
                        ResultNote(r), RunSucceeded(r, a));
    if r !in s.t.flow.handoffs then Answer(s1, true) else
    var h := s.t.flow.handoffs[r];
    Answer(s1.(events := s1.events + [HandoffArtifact(h.id, h.task, r, a)]), true)
  }

  function Fail(s: State, r: RunId, error: Digest, now: int): State {
    if !Working(s.t, r) then s
    else if Rejectable(s.t, r) then RejectHandoff(s, r, Rejected, Failed, now)
    else FinishRun(s, r, Failed, now, None, FailureNote(r, error), RunFailed(r))
  }

  predicate BudgetLeft(t: Tables, r: RunId, task: TaskId) {
    Working(t, r) && t.runs[r].spent < t.runs[r].budget &&
    (task in t.tasks ==> t.tasks[task].spent < MAX_ACTIONS_PER_TASK)
  }

  function CountAction(t: Tables, r: RunId, task: TaskId): Tables
    requires r in t.runs
  {
    t.(runs := t.runs[r := t.runs[r].(spent := t.runs[r].spent + 1)],
       tasks := if task in t.tasks then t.tasks[task := t.tasks[task].(spent := t.tasks[task].spent + 1)]
                else t.tasks)
  }

  function BumpAction(s: State, r: RunId, task: TaskId): Answer {
    if !BudgetLeft(s.t, r, task) then Answer(s, false)
    else Answer(s.(t := CountAction(s.t, r, task)), true)
  }

  predicate MayDecide(t: Tables, r: RunId, session: SessionId) {
    r in t.runs && t.runs[r].task in t.tasks && t.runs[r].status == Running
    && t.runs[r].session == Some(session) && t.tasks[t.runs[r].task].bot == Mara && !t.stopped
  }

  predicate Accepts(t: Tables, r: RunId, verdict: Verdict)
    requires r in t.flow.handoffs && r in t.runs && t.runs[r].task in t.tasks
  {
    verdict.Verdict? && verdict.handoff == t.flow.handoffs[r].id && verdict.accept
    && t.tasks[t.runs[r].task].spent < MAX_ACTIONS_PER_TASK
  }

  function AcceptRows(t: Tables, r: RunId, x: ActionId, now: int): Tables
    requires r in t.flow.handoffs
  {
    var k := t.flow.handoffs[r].task;
    SetHandoff(t, r, Accepted).(
      tasks := if k in t.tasks && t.tasks[k].bot == Mara
               then t.tasks[k := t.tasks[k].(bot := Ivo, status := InProgress, current := r, updated := now)]
               else t.tasks,
      gates := t.gates.(actions := t.gates.actions[x := Action(r, HandoffDraft, Pending, None)]))
  }

  function Decide(s: State, r: RunId, session: SessionId, verdict: Verdict, x: ActionId, now: int): Answer {
    if !Rejectable(s.t, r) then Answer(s, false)
    else if s.t.flow.handoffs[r].expires <= now then Answer(RejectHandoff(s, r, Lapsed, Failed, now), false)
    else if !MayDecide(s.t, r, session) then Answer(s, false)
    else if !Accepts(s.t, r, verdict) then Answer(RejectHandoff(s, r, Rejected, Failed, now), false)
    else
      var h := s.t.flow.handoffs[r];
      Answer(Post(s.(t := AcceptRows(s.t, r, x, now)), HandoffNote(h.id, Accepted),
                  HandoffAccepted(h.id, h.task, r)), true)
  }

  predicate MayDraft(t: Tables, r: RunId) {
    Working(t, r) && r in t.flow.handoffs && t.flow.handoffs[r].state == Accepted
  }

  function ClaimDraft(s: State, r: RunId): Answer {
    if !MayDraft(s.t, r) then Answer(s, false)
    else Answer(s.(t := ClaimActions(s.t, r, HandoffDraft)), |DraftActions(s.t, r)| == 1)
  }

  function PeerProgress(s: State, r: RunId, body: Digest): State {
    if !MayDraft(s.t, r) || PeerNote(r, body) in s.messages then s
    else Post(s, PeerNote(r, body), PeerProgressed(s.t.flow.handoffs[r].task, r, body))
  }

  // ---------- timeouts and restart ----------

  predicate HandoffDue(t: Tables, r: RunId, now: int) {
    Rejectable(t, r) && t.flow.handoffs[r].expires <= now
  }

  function LapseHandoffs(s: State, rows: seq<RunId>, now: int): Swept {
    if rows == [] then Swept(s, [])
    else
      var w := LapseHandoffs(s, rows[..|rows|-1], now);
      var r := rows[|rows|-1];
      if HandoffDue(w.s.t, r, now)
      then Swept(RejectHandoff(w.s, r, Lapsed, Failed, now), w.effects + [r])
      else w
  }

  function FailOverdue(s: State, rows: seq<RunId>, now: int): State {
    if rows == [] then s
    else
      var s1 := FailOverdue(s, rows[..|rows|-1], now);
      var r := rows[|rows|-1];
      FinishRun(s1, r, Failed, now, None, DeadlineNote(r), RunFailed(r))
  }

  function ExpireEach(s: State, rows: seq<ApprovalId>, now: int): Swept {
    if rows == [] then Swept(s, [])
    else
      var w := ExpireEach(s, rows[..|rows|-1], now);
      var a := rows[|rows|-1];
      if a !in w.s.t.gates.approvals then w
      else Swept(ExpireApproval(w.s, a, now), w.effects + [w.s.t.gates.approvals[a].run])
  }

  /** sweepRunTimeouts over the rows in the order the database returned them. */
  function Sweep(s: State, hs: seq<RunId>, rs: seq<RunId>, xs: seq<ApprovalId>, now: int): Swept {
    var w1 := LapseHandoffs(s, hs, now);
    var s2 := FailOverdue(w1.s, rs, now);
    var w3 := ExpireEach(s2, xs, now);
    Swept(w3.s, w1.effects + rs + w3.effects)
  }

  predicate SweepRows(s: State, hs: seq<RunId>, rs: seq<RunId>, xs: seq<ApprovalId>, now: int) {
    var s1 := LapseHandoffs(s, hs, now).s;
    Enumerates(hs, s.t.flow.handoffs.Keys) && Enumerates(rs, Overdue(s1.t, now)) &&
    Enumerates(xs, DueApprovals(FailOverdue(s1, rs, now).t, now))
  }

  function InterruptEach(s: State, rows: seq<RunId>, now: int): State {
    if rows == [] then s
    else
      var s1 := InterruptEach(s, rows[..|rows|-1], now);
      var r := rows[|rows|-1];
      s1.(t := SetStatus(s1.t, r, Interrupted), messages := s1.messages + {RestartNote(r, now)})
  }

  function Restart(s: State, rows: seq<RunId>, now: int): State {
    var s1 := InterruptEach(s, rows, now);
    s1.(t := FailLoads(s1.t), events := if rows == [] then s1.events else s1.events + [DaemonRestarted(rows)])
  }

  // ---------- runs of the whole store ----------

  datatype Step =
    | DoApply(input: Input)
    | DoMarkRunning(run: RunId, session: SessionId, now: int)
    | DoSaveLoad(run: RunId, load: Load)
    | DoWaitApproval(run: RunId, task: TaskId, approval: ApprovalId, action: ActionId, now: int)
    | DoWaitInput(run: RunId, prompt: Digest)
    | DoComplete(run: RunId, task: TaskId, artifact: ArtifactId, size: nat, sha256: Digest, now: int)
    | DoFail(run: RunId, error: Digest, now: int)
    | DoBump(run: RunId, task: TaskId)
    | DoDecide(run: RunId, session: SessionId, verdict: Verdict, action: ActionId, now: int)
    | DoClaimDraft(run: RunId)
    | DoPeerProgress(run: RunId, body: Digest)
    | DoSweep(handoffs: seq<RunId>, overdue: seq<RunId>, due: seq<ApprovalId>, now: int)
    | DoRestart(rows: seq<RunId>, now: int)

  function Next(s: State, step: Step): State {
    match step
    case DoApply(input) => Apply(s, input)
    case DoMarkRunning(r, session, now) => MarkRunning(s, r, session, now).s
    case DoSaveLoad(r, load) => SaveLoad(s, r, load)
    case DoWaitApproval(r, task, a, x, now) => WaitApproval(s, r, task, a, x, now).s
    case DoWaitInput(r, prompt) => WaitInput(s, r, prompt)
    case DoComplete(r, task, a, size, sha256, now) => Complete(s, r, task, a, size, sha256, now).s
    case DoFail(r, error, now) => Fail(s, r, error, now)
    case DoBump(r, task) => BumpAction(s, r, task).s
    case DoDecide(r, session, verdict, x, now) => Decide(s, r, session, verdict, x, now).s
    case DoClaimDraft(r) => ClaimDraft(s, r).s
    case DoPeerProgress(r, body) => PeerProgress(s, r, body)
    case DoSweep(hs, rs, xs, now) => Sweep(s, hs, rs, xs, now).s
    case DoRestart(rows, now) => Restart(s, rows, now)
  }

  predicate FreshIds(t: Tables, ids: Ids) {
    ids.task !in t.tasks && ids.run !in t.runs && ids.action !in t.gates.actions
  }

  /** A callback passes the task its run belongs to. */
  predicate OwnTask(t: Tables, r: RunId, task: TaskId) {
    r in t.runs ==> t.runs[r].task == task
  }

  /** What holds of every call the daemon makes: fresh identifiers, database rows as selected,
      and the three habits of the provider drivers. */
  predicate Legal(s: State, step: Step) {
    match step
    case DoApply(input) =>
      FreshIds(s.t, input.ids) && (input.command.StopAll? ==> Enumerates(input.rows, ActiveRuns(s.t)))
    case DoMarkRunning(r, session, now) => true
    case DoSaveLoad(r, load) => load == Loading ==> r in s.t.runs && s.t.runs[r].load == Loading
    case DoWaitApproval(r, task, a, x, now) =>
      OwnTask(s.t, r, task) && r !in s.t.flow.handoffs && a !in s.t.gates.approvals && x !in s.t.gates.actions
    case DoWaitInput(r, prompt) => true
    case DoComplete(r, task, a, size, sha256, now) => OwnTask(s.t, r, task) && a !in s.t.flow.artifacts
    case DoFail(r, error, now) => true
    case DoBump(r, task) => OwnTask(s.t, r, task)
    case DoDecide(r, session, verdict, x, now) => x !in s.t.gates.actions
    case DoClaimDraft(r) => true
    case DoPeerProgress(r, body) => true
    case DoSweep(hs, rs, xs, now) => SweepRows(s, hs, rs, xs, now)
    case DoRestart(rows, now) => Enumerates(rows, ActiveRuns(s.t))
  }

  function Exec(s: State, steps: seq<Step>): State
    decreases |steps|
  {
    if steps == [] then s else Exec(Next(s, steps[0]), steps[1..])
  }

  predicate LegalRun(s: State, steps: seq<Step>)
    decreases |steps|
  {
    steps == [] || (Legal(s, steps[0]) && LegalRun(Next(s, steps[0]), steps[1..]))
  }
}
