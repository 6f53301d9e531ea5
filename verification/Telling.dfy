/** The conversation tells what the log records: every event comes with its message in the same transaction, and a progress
    note of a peer is logged once however often it is sent. */
module Telling {
  import opened Types
  import opened Rows
  import opened Transactions
  import opened Invariants

  ghost predicate ToldFailure(r: RunId, messages: set<MessageKey>) {
    (exists e :: FailureNote(r, e) in messages) || DeadlineNote(r) in messages
    || (exists a :: ApprovalLapsedNote(a) in messages) || (exists a :: ApprovalDeniedNote(a) in messages)
  }

  /** The message an event comes with; a start, the latch and a handoff's artifact have none. */
  ghost predicate Told(e: Event, messages: set<MessageKey>) {
    match e
    case TaskSubmitted(_, _, _) => exists c :: Request(c) in messages
    case RunRunning(_, _) => true
    case ApprovalOpened(_, a) => ApprovalAsked(a) in messages
    case ApprovalResolved(a, _, _) => ApprovalDecided(a) in messages
    case InputOpened(r, prompt) => Question(r, prompt) in messages
    case InputAnswered(_) => exists c :: AnswerNote(c) in messages
    case RunCanceled(r) => CancelNote(r) in messages || StopNote(r) in messages
    case StopLatched(_) => true
    case DaemonRestarted(rows) => forall r | r in rows :: exists n :: RestartNote(r, n) in messages
    case RunSucceeded(r, _) => ResultNote(r) in messages
    case RunFailed(r) => ToldFailure(r, messages)
    case HandoffProposed(h, _, _) => HandoffNote(h, Proposed) in messages
    case HandoffAccepted(h, _, _) => HandoffNote(h, Accepted) in messages
    case HandoffRejected(h, _, _) => HandoffNote(h, Rejected) in messages
    case HandoffLapsed(h, _, _) => HandoffNote(h, Lapsed) in messages
    case HandoffArtifact(_, _, _, _) => true
    case PeerProgressed(_, r, body) => PeerNote(r, body) in messages
  }

  /** What a step appends to the log is told, and tells no progress that was told before. */
  ghost predicate Tells(s: State, u: State) {
    && s.events <= u.events && s.messages <= u.messages
    && (forall i | |s.events| <= i < |u.events| ::
          Told(u.events[i], u.messages)
          && (u.events[i].PeerProgressed? ==> PeerNote(u.events[i].run, u.events[i].body) !in s.messages))
    && (forall i, j | |s.events| <= i < j < |u.events| && u.events[i].PeerProgressed? && u.events[j].PeerProgressed? ::
          PeerNote(u.events[i].run, u.events[i].body) != PeerNote(u.events[j].run, u.events[j].body))
  }

  lemma ToldLater(e: Event, messages: set<MessageKey>, later: set<MessageKey>)
    requires Told(e, messages) && messages <= later
    ensures Told(e, later)
  {
    if e.DaemonRestarted? {
      forall r | r in e.interrupted ensures exists n :: RestartNote(r, n) in later {
        var n :| RestartNote(r, n) in messages;
        assert RestartNote(r, n) in later;
      }
    }
  }

  lemma TellsOn(s: State, u: State, v: State)
    requires Tells(s, u) && Tells(u, v)
    ensures Tells(s, v)
  {
    forall i | |s.events| <= i < |v.events|
      ensures Told(v.events[i], v.messages)
        && (v.events[i].PeerProgressed? ==> PeerNote(v.events[i].run, v.events[i].body) !in s.messages)
    {
      if i < |u.events| {
        assert v.events[i] == u.events[i];
        ToldLater(u.events[i], u.messages, v.messages);
      }
    }
    forall i, j | |s.events| <= i < j < |v.events| && v.events[i].PeerProgressed? && v.events[j].PeerProgressed?
      ensures PeerNote(v.events[i].run, v.events[i].body) != PeerNote(v.events[j].run, v.events[j].body)
    {
      if i < |u.events| {
        assert v.events[i] == u.events[i];
        assert Told(u.events[i], u.messages);
      }
      if j < |u.events| {
        assert v.events[j] == u.events[j];
      }
    }
    hide Told;
  }

  lemma TellsRest(s: State, u: State)
    requires u.events == s.events && s.messages <= u.messages
    ensures Tells(s, u)
  {
  }

  /** One event with its message. */
  lemma PostTells(s: State, u: State, key: MessageKey, e: Event)
    requires u.events == s.events + [e] && u.messages == s.messages + {key} && Told(e, {key})
    requires e.PeerProgressed? ==> PeerNote(e.run, e.body) !in s.messages
    ensures Tells(s, u)
  {
    ToldLater(e, {key}, u.messages);
    hide Told;
  }

  /** An event that needs no message. */
  lemma NoteTells(s: State, u: State, e: Event)
    requires u.events == s.events + [e] && u.messages == s.messages && Told(e, {}) && !e.PeerProgressed?
    ensures Tells(s, u)
  {
    ToldLater(e, {}, u.messages);
    hide Told;
  }

  lemma FailureTold(r: RunId, key: MessageKey)
    requires (key.FailureNote? && key.run == r) || key == DeadlineNote(r) || key.ApprovalLapsedNote? || key.ApprovalDeniedNote?
    ensures Told(RunFailed(r), {key})
  {
    match key {
      case FailureNote(_, e) => assert FailureNote(r, e) in {key};
      case DeadlineNote(_) =>
      case ApprovalLapsedNote(a) => assert ApprovalLapsedNote(a) in {key};
      case ApprovalDeniedNote(a) => assert ApprovalDeniedNote(a) in {key};
    }
  }

  lemma FailTells(s: State, r: RunId, now: int, key: MessageKey)
    requires (key.FailureNote? && key.run == r) || key == DeadlineNote(r) || key.ApprovalLapsedNote? || key.ApprovalDeniedNote?
    ensures Tells(s, FinishRun(s, r, Failed, now, None, key, RunFailed(r)))
  {
    hide FinishRows, Told, Tells;
    FailureTold(r, key);
    PostTells(s, FinishRun(s, r, Failed, now, None, key, RunFailed(r)), key, RunFailed(r));
  }

  lemma RejectTells(s: State, r: RunId, to: HandoffState, status: RunStatus, now: int)
    requires Finished(status) && (to == Rejected || to == Lapsed)
    ensures Tells(s, RejectHandoff(s, r, to, status, now))
  {
    hide RejectRows, Tells;
    if Rejectable(s.t, r) {
      var h := s.t.flow.handoffs[r];
      PostTells(s, RejectHandoff(s, r, to, status, now), HandoffNote(h.id, to),
                if to == Rejected then HandoffRejected(h.id, h.task, r) else HandoffLapsed(h.id, h.task, r));
    } else {
      TellsRest(s, s);
    }
  }

  lemma ExpireTells(s: State, a: ApprovalId, now: int)
    ensures Tells(s, ExpireApproval(s, a, now))
  {
    hide ExpireRows, Tells, Told;
    if a in s.t.gates.approvals {
      FailureTold(s.t.gates.approvals[a].run, ApprovalLapsedNote(a));
      PostTells(s, ExpireApproval(s, a, now), ApprovalLapsedNote(a), RunFailed(s.t.gates.approvals[a].run));
    } else {
      TellsRest(s, s);
    }
  }

  lemma CancelTells(s: State, r: RunId, now: int, key: MessageKey)
    requires key == CancelNote(r) || key == StopNote(r)
    ensures Tells(s, CancelOne(s, r, now, key))
  {
    hide CancelRows, RejectRows, Tells;
    var u := RejectHandoff(s, r, Rejected, Canceled, now);
    RejectTells(s, r, Rejected, Canceled, now);
    PostTells(u, CancelOne(s, r, now, key), key, RunCanceled(r));
    TellsOn(s, u, CancelOne(s, r, now, key));
  }

  // ---------- loops ----------

  lemma {:induction false} CancelEachTells(s: State, rows: seq<RunId>, now: int)
    ensures Tells(s, CancelEach(s, rows, now))
  {
    hide CancelOne, Tells;
    if rows == [] {
      TellsRest(s, s);
    } else {
      var u := CancelEach(s, rows[..|rows|-1], now);
      CancelEachTells(s, rows[..|rows|-1], now);
      CancelTells(u, rows[|rows|-1], now, StopNote(rows[|rows|-1]));
      TellsOn(s, u, CancelEach(s, rows, now));
    }
  }

  lemma {:induction false} LapseTells(s: State, rows: seq<RunId>, now: int)
    ensures Tells(s, LapseHandoffs(s, rows, now).s)
  {
    hide RejectHandoff, Tells;
    if rows == [] {
      TellsRest(s, s);
    } else {
      var u := LapseHandoffs(s, rows[..|rows|-1], now).s;
      LapseTells(s, rows[..|rows|-1], now);
      RejectTells(u, rows[|rows|-1], Lapsed, Failed, now);
      TellsOn(s, u, RejectHandoff(u, rows[|rows|-1], Lapsed, Failed, now));
    }
  }

  lemma {:induction false} OverdueTells(s: State, rows: seq<RunId>, now: int)
    ensures Tells(s, FailOverdue(s, rows, now))
  {
    hide FinishRun, Tells;
    if rows == [] {
      TellsRest(s, s);
    } else {
      var u := FailOverdue(s, rows[..|rows|-1], now);
      OverdueTells(s, rows[..|rows|-1], now);
      FailTells(u, rows[|rows|-1], now, DeadlineNote(rows[|rows|-1]));
      TellsOn(s, u, FailOverdue(s, rows, now));
    }
  }

  lemma {:induction false} ExpireEachTells(s: State, rows: seq<ApprovalId>, now: int)
    ensures Tells(s, ExpireEach(s, rows, now).s)
  {
    hide ExpireApproval, Tells;
    if rows == [] {
      TellsRest(s, s);
    } else {
      var u := ExpireEach(s, rows[..|rows|-1], now).s;
      ExpireEachTells(s, rows[..|rows|-1], now);
      ExpireTells(u, rows[|rows|-1], now);
      TellsOn(s, u, ExpireApproval(u, rows[|rows|-1], now));
    }
  }

  lemma {:induction false} InterruptTells(s: State, rows: seq<RunId>, now: int)
    ensures var u := InterruptEach(s, rows, now);
      u.events == s.events && s.messages <= u.messages && forall r | r in rows :: RestartNote(r, now) in u.messages
  {
    hide SetStatus;
    if rows != [] {
      InterruptTells(s, rows[..|rows|-1], now);
      assert rows == rows[..|rows|-1] + [rows[|rows|-1]];
    }
  }

  lemma RestartTells(s: State, rows: seq<RunId>, now: int)
    ensures Tells(s, Restart(s, rows, now))
  {
    hide InterruptEach, FailLoads, Tells;
    var u, v := InterruptEach(s, rows, now), Restart(s, rows, now);
    InterruptTells(s, rows, now);
    TellsRest(s, u);
    if rows == [] {
      TellsRest(u, v);
    } else {
      RestartTold(u, v, rows, now);
    }
    TellsOn(s, u, v);
  }

  lemma RestartTold(u: State, v: State, rows: seq<RunId>, now: int)
    requires v.events == u.events + [DaemonRestarted(rows)] && v.messages == u.messages
    requires forall r | r in rows :: RestartNote(r, now) in u.messages
    ensures Tells(u, v)
  {
    assert Told(DaemonRestarted(rows), v.messages);
    hide Told;
  }

  // ---------- every transaction ----------

  lemma ResolveTells(s: State, input: Input, a: ApprovalId, allow: bool)
    ensures Tells(s, Resolve(s, input, a, allow).s)
  {
    hide Tells, ExpireApproval, FinishRows, SetStatus, SettleApproval;
    TellsRest(s, s);
    if a in s.t.gates.approvals {
      var r, u := s.t.gates.approvals[a].run, DecideApproval(s, a, allow, input.session);
      ExpireTells(s, a, input.now);
      PostTells(s, u, ApprovalDecided(a), ApprovalResolved(a, allow, r));
      FailTells(u, r, input.now, ApprovalDeniedNote(a));
      TellsOn(s, u, FinishRun(u, r, Failed, input.now, None, ApprovalDeniedNote(a), RunFailed(r)));
      var v := u.(t := SetStatus(u.t, r, Running));
      TellsRest(u, v);
      TellsOn(s, u, v);
    }
  }

  lemma StopTells(s: State, input: Input)
    ensures Tells(s, Stop(s, input).s)
  {
    hide Tells, CancelEach, FailLoads, DropAllApprovals;
    var s0 := s.(t := s.t.(stopped := true));
    var u := CancelEach(s0, input.rows, input.now);
    TellsRest(s, s0);
    CancelEachTells(s0, input.rows, input.now);
    TellsOn(s, s0, u);
    NoteTells(u, Stop(s, input).s, StopLatched(input.rows));
    TellsOn(s, u, Stop(s, input).s);
  }

  lemma DispatchTells(s: State, input: Input)
    ensures Tells(s, Dispatch(s, input).s)
  {
    hide Tells, Resolve, CancelOne, DropApprovals, Stop, SetLoad, SetStatus, InsertTask, InsertHandoff, SubmitDenial,
      ProposeDenial, LoadDenial;
    TellsRest(s, s);
    var u := Dispatch(s, input).s;
    match input.command {
      case SubmitTask(bot, unsupported, plan) =>
        if SubmitDenial(s.t, input, bot, unsupported, plan).None? {
          SubmitTells(s, input, bot, unsupported, plan);
        }
      case ProposeHandoff(source) =>
        if ProposeDenial(s.t, input, source).None? {
          ProposeTells(s, input, source);
        }
      case ResolveApproval(a, allow) => ResolveTells(s, input, a, allow);
      case AnswerInput(r, _) =>
        if r in s.t.runs && s.t.runs[r].status == WaitingInput {
          assert AnswerNote(input.ids.command) in {AnswerNote(input.ids.command)};
          PostTells(s, u, AnswerNote(input.ids.command), InputAnswered(r));
        }
      case CancelRun(r) =>
        CancelTells(s, r, input.now, CancelNote(r));
        var v := CancelOne(s, r, input.now, CancelNote(r));
        TellsRest(v, v.(t := DropApprovals(v.t, r)));
        TellsOn(s, v, v.(t := DropApprovals(v.t, r)));
      case LoadSession(r) => TellsRest(s, s.(t := SetLoad(s.t, r, Loading)));
      case StopAll => StopTells(s, input);
    }
  }

  lemma SubmitTells(s: State, input: Input, bot: BotChoice, unsupported: bool, plan: bool)
    requires SubmitDenial(s.t, input, bot, unsupported, plan).None?
    ensures Tells(s, Submit(s, input, bot, unsupported, plan).s)
  {
    hide Tells, InsertTask, SubmitDenial;
    var key := Request(input.ids.command);
    assert Request(input.ids.command) in {key};
    PostTells(s, Submit(s, input, bot, unsupported, plan).s, key,
              TaskSubmitted(input.ids.task, input.ids.run, if bot.Named? then bot.bot else Mara));
  }

  lemma ProposeTells(s: State, input: Input, source: RunId)
    requires ProposeDenial(s.t, input, source).None?
    ensures Tells(s, Propose(s, input, source).s)
  {
    hide Tells, InsertHandoff, TaskHandedOff, HasSmallDraft, Occupants, OccupantsOf;
    var ids := input.ids;
    PostTells(s, Propose(s, input, source).s, HandoffNote(ids.handoff, Proposed),
              HandoffProposed(ids.handoff, s.t.runs[source].task, ids.run));
  }

  lemma CompleteTells(s: State, r: RunId, task: TaskId, a: ArtifactId, size: nat, sha256: Digest, now: int)
    ensures Tells(s, Complete(s, r, task, a, size, sha256, now).s)
  {
    hide Tells, FinishRows, InsertArtifact;
    TellsRest(s, s);
    if MayComplete(s.t, r) {
      var u := FinishRun(s.(t := InsertArtifact(s.t, r, task, a, size, sha256)), r, Succeeded, now, Some(a),
                         ResultNote(r), RunSucceeded(r, a));
      PostTells(s, u, ResultNote(r), RunSucceeded(r, a));
      if r in s.t.flow.handoffs {
        var h, v := s.t.flow.handoffs[r], Complete(s, r, task, a, size, sha256, now).s;
        NoteTells(u, v, HandoffArtifact(h.id, h.task, r, a));
        TellsOn(s, u, v);
      }
    }
  }

  lemma DecideTells(s: State, r: RunId, session: SessionId, verdict: Verdict, x: ActionId, now: int)
    ensures Tells(s, Decide(s, r, session, verdict, x, now).s)
  {
    hide Tells, RejectHandoff, MayDecide, AcceptRows;
    TellsRest(s, s);
    RejectTells(s, r, Lapsed, Failed, now);
    RejectTells(s, r, Rejected, Failed, now);
    if Decide(s, r, session, verdict, x, now).yes {
      var h := s.t.flow.handoffs[r];
      PostTells(s, Decide(s, r, session, verdict, x, now).s, HandoffNote(h.id, Accepted), HandoffAccepted(h.id, h.task, r));
    }
  }

  lemma NextTells(s: State, step: Step)
    ensures Tells(s, Next(s, step))
  {
    hide Tells, Told, Dispatch, Complete, Decide, StartRows, OpenApproval, FinishRows, RejectHandoff, SetStatus, SetLoad,
      CountAction, ClaimActions, LapseHandoffs, FailOverdue, ExpireEach, Restart, MayDraft;
    TellsRest(s, s);
    var u := Next(s, step);
    match step {
      case DoApply(input) =>
        DispatchTells(s, input);
        if Commits(s, input) {
          TellsRest(Dispatch(s, input).s, u);
          TellsOn(s, Dispatch(s, input).s, u);
        }
      case DoMarkRunning(r, session, now) =>
        if Working(s.t, r) {
          StartTells(s, r, session, now);
        }
      case DoSaveLoad(r, load) => TellsRest(s, u);
      case DoWaitApproval(r, task, a, x, now) =>
        if Working(s.t, r) {
          ApprovalTells(s, r, task, a, x, now);
        }
      case DoWaitInput(r, prompt) =>
        if Working(s.t, r) {
          InputTells(s, r, prompt);
        }
      case DoComplete(r, task, a, size, sha256, now) => CompleteTells(s, r, task, a, size, sha256, now);
      case DoFail(r, error, now) =>
        RejectTells(s, r, Rejected, Failed, now);
        FailTells(s, r, now, FailureNote(r, error));
      case DoBump(r, task) => TellsRest(s, u);
      case DoDecide(r, session, verdict, x, now) => DecideTells(s, r, session, verdict, x, now);
      case DoClaimDraft(r) => TellsRest(s, u);
      case DoPeerProgress(r, body) => PeerTells(s, r, body);
      case DoSweep(hs, rs, xs, now) =>
        var s1 := LapseHandoffs(s, hs, now).s;
        LapseTells(s, hs, now);
        OverdueTells(s1, rs, now);
        TellsOn(s, s1, FailOverdue(s1, rs, now));
        ExpireEachTells(FailOverdue(s1, rs, now), xs, now);
        TellsOn(s, FailOverdue(s1, rs, now), u);
      case DoRestart(rows, now) => RestartTells(s, rows, now);
    }
  }

  lemma StartTells(s: State, r: RunId, session: SessionId, now: int)
    ensures Tells(s, MarkRunning(s, r, session, now).s)
  {
    hide Tells, StartRows;
    TellsRest(s, s);
    if Working(s.t, r) {
      NoteTells(s, MarkRunning(s, r, session, now).s, RunRunning(r, session));
    }
  }

  lemma ApprovalTells(s: State, r: RunId, task: TaskId, a: ApprovalId, x: ActionId, now: int)
    requires Working(s.t, r)
    ensures Tells(s, WaitApproval(s, r, task, a, x, now).s)
  {
    hide Tells, OpenApproval;
    PostTells(s, WaitApproval(s, r, task, a, x, now).s, ApprovalAsked(a), ApprovalOpened(r, a));
  }

  lemma InputTells(s: State, r: RunId, prompt: Digest)
    requires Working(s.t, r)
    ensures Tells(s, WaitInput(s, r, prompt))
  {
    hide Tells, SetStatus;
    PostTells(s, WaitInput(s, r, prompt), Question(r, prompt), InputOpened(r, prompt));
  }

  lemma PeerTells(s: State, r: RunId, body: Digest)
    ensures Tells(s, PeerProgress(s, r, body))
  {
    hide Tells;
    TellsRest(s, s);
    if MayDraft(s.t, r) && PeerNote(r, body) !in s.messages {
      PostTells(s, PeerProgress(s, r, body), PeerNote(r, body), PeerProgressed(s.t.flow.handoffs[r].task, r, body));
    }
  }

  lemma {:induction false} ExecTells(s: State, steps: seq<Step>)
    ensures Tells(s, Exec(s, steps))
    decreases |steps|
  {
    hide Tells, Next;
    if steps == [] {
      TellsRest(s, s);
    } else {
      NextTells(s, steps[0]);
      ExecTells(Next(s, steps[0]), steps[1..]);
      TellsOn(s, Next(s, steps[0]), Exec(s, steps));
    }
  }

  /** Over every run of the store: each event in the log has its message in the conversation, and no progress note of one
      run with one text is logged twice. */
  lemma EveryEventIsTold(steps: seq<Step>)
    ensures var s := Exec(EMPTY, steps);
      && (forall i | 0 <= i < |s.events| :: Told(s.events[i], s.messages))
      && (forall i, j | 0 <= i < j < |s.events| && s.events[i].PeerProgressed? && s.events[j].PeerProgressed? ::
            PeerNote(s.events[i].run, s.events[i].body) != PeerNote(s.events[j].run, s.events[j].body))
  {
    hide Exec, Told;
    ExecTells(EMPTY, steps);
  }

  /** A progress note is logged exactly when it is new and the run drafts an accepted handoff; sent again it changes nothing. */
  lemma ProgressIsLoggedOnce(s: State, r: RunId, body: Digest)
    ensures var u := PeerProgress(s, r, body);
      && PeerProgress(u, r, body) == u
      && (u != s <==> MayDraft(s.t, r) && PeerNote(r, body) !in s.messages)
      && (MayDraft(s.t, r) ==> PeerNote(r, body) in u.messages)
      && (u != s ==> |u.events| == |s.events| + 1)
  {
  }
}
