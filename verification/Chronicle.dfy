/** Every transaction writes what it did: the event log read back is the board, in every reachable state. */
module Chronicle {
  import opened Types
  import opened Rows
  import opened Transactions
  import opened Invariants
  import opened Reachability
  import opened Stopping
  import opened Sweeping
  import opened Reachable
  import opened History
  import opened Insertions

  // ---------- one row at a time ----------

  lemma FinishLogged(s: State, r: RunId, status: RunStatus, now: int, latest: Option<ArtifactId>, key: MessageKey, e: Event)
    requires Logged(s) && Finished(status) && Read(View(s.t), e) == Close(View(s.t), r, status, latest)
    ensures Logged(FinishRun(s, r, status, now, latest, key, e))
  {
    hide Logged, Close, View, Read, FinishRows;
    FinishView(s.t, r, status, now, latest);
    Extend(s, FinishRun(s, r, status, now, latest, key, e), e);
  }

  lemma RejectLogged(s: State, r: RunId, to: HandoffState, now: int)
    requires Logged(s) && (to == Rejected || to == Lapsed)
    ensures Logged(RejectHandoff(s, r, to, Failed, now))
  {
    hide Logged, Close, View, FinishRows, RejectRows;
    if Rejectable(s.t, r) {
      var h := s.t.flow.handoffs[r];
      RejectView(s.t, r, to, Failed, now);
      Extend(s, RejectHandoff(s, r, to, Failed, now),
             if to == Rejected then HandoffRejected(h.id, h.task, r) else HandoffLapsed(h.id, h.task, r));
    }
  }

  /** Canceling writes the rejection of a proposed handoff first and the cancellation second. */
  lemma CancelLogged(s: State, r: RunId, now: int, key: MessageKey)
    requires Logged(s)
    ensures Logged(CancelOne(s, r, now, key))
  {
    hide View, Read, RejectRows, CancelRows;
    var log := RejectHandoff(s, r, Rejected, Canceled, now).events;
    if Rejectable(s.t, r) {
      var h := s.t.flow.handoffs[r];
      CancelView(s.t, r, now, h.id, h.task);
      ReadOne(s.events, HandoffRejected(h.id, h.task, r));
    } else {
      CancelView(s.t, r, now, 0, 0);
    }
    ReadOne(log, RunCanceled(r));
  }

  lemma {:induction false} CancelEachLogged(s: State, rows: seq<RunId>, now: int)
    requires Logged(s)
    ensures Logged(CancelEach(s, rows, now))
  {
    hide Logged, CancelOne;
    if rows != [] {
      var n := |rows| - 1;
      CancelEachLogged(s, rows[..n], now);
      CancelLogged(CancelEach(s, rows[..n], now), rows[n], now, StopNote(rows[n]));
    }
  }

  function Latched(s: State): State {
    s.(t := s.t.(stopped := true))
  }

  lemma CancelLatched(s: State, r: RunId, now: int, key: MessageKey)
    ensures CancelOne(Latched(s), r, now, key) == Latched(CancelOne(s, r, now, key))
  {
    hide CancelRows, RejectRows;
    CancelRegates(s.t, s.t.gates.approvals, true, r, now);
    assert Latched(s).t == Regate(s.t, s.t.gates.approvals, true);
  }

  /** The loop of stop-all does not see the latch it runs under. */
  lemma {:induction false} CancelEachLatched(s: State, rows: seq<RunId>, now: int)
    ensures CancelEach(Latched(s), rows, now) == Latched(CancelEach(s, rows, now))
  {
    hide CancelOne, Latched;
    if rows != [] {
      var n := |rows| - 1;
      CancelEachLatched(s, rows[..n], now);
      CancelLatched(CancelEach(s, rows[..n], now), rows[n], now, StopNote(rows[n]));
    }
  }

  lemma StopView(t: Tables, rows: seq<RunId>)
    ensures View(FailLoads(DropAllApprovals(t.(stopped := true)))) == Read(View(t), StopLatched(rows))
  {
    var u := FailLoads(DropAllApprovals(t.(stopped := true)));
    GatesView(t.(stopped := true), u);
  }

  lemma StopLogged(s: State, input: Input)
    requires Logged(s)
    ensures Logged(Stop(s, input).s)
  {
    hide Logged, View, Read, CancelEach, FailLoads, DropAllApprovals;
    var u := CancelEach(s, input.rows, input.now);
    CancelEachLogged(s, input.rows, input.now);
    CancelEachLatched(s, input.rows, input.now);
    StopView(u.t, input.rows);
    Extend(u, Stop(s, input).s, StopLatched(input.rows));
  }

  // ---------- commands ----------

  lemma SubmitLogged(s: State, input: Input, bot: BotChoice, unsupported: bool, plan: bool)
    requires Logged(s)
    ensures Logged(Submit(s, input, bot, unsupported, plan).s)
  {
    hide Logged, View, Read, InsertTask, SubmitDenial;
    var name := if bot.Named? then bot.bot else Mara;
    InsertTaskView(s.t, input.ids, input.session, name, ProviderFor(input.provider, name), input.now);
    if SubmitDenial(s.t, input, bot, unsupported, plan).None? {
      Extend(s, Submit(s, input, bot, unsupported, plan).s, TaskSubmitted(input.ids.task, input.ids.run, name));
    }
  }

  lemma ProposeLogged(s: State, input: Input, source: RunId)
    requires Logged(s)
    ensures Logged(Propose(s, input, source).s)
  {
    hide Logged, View, Read, InsertHandoff;
    if ProposeDenial(s.t, input, source).None? {
      InsertHandoffView(s.t, input.ids, source, input.now);
      Extend(s, Propose(s, input, source).s, HandoffProposed(input.ids.handoff, s.t.runs[source].task, input.ids.run));
    }
  }

  lemma SettleView(t: Tables, a: ApprovalId, to: GateState, resolver: Option<SessionId>)
    requires a in t.gates.approvals
    ensures View(SettleApproval(t, a, to, resolver)) == View(t)
  {
    GatesView(t, SettleApproval(t, a, to, resolver));
  }

  lemma ExpireLogged(s: State, a: ApprovalId, now: int)
    requires Logged(s)
    ensures Logged(ExpireApproval(s, a, now))
  {
    hide Logged, View, Close, SettleApproval, FinishRows;
    if a in s.t.gates.approvals {
      var row := s.t.gates.approvals[a];
      SettleView(s.t, a, Expired, row.resolver);
      FinishView(SettleApproval(s.t, a, Expired, row.resolver), row.run, Failed, now, None);
      Extend(s, ExpireApproval(s, a, now), RunFailed(row.run));
    }
  }

  lemma DenyLogged(s: State, a: ApprovalId, session: SessionId, now: int)
    requires Logged(s) && a in s.t.gates.approvals
    ensures var r := s.t.gates.approvals[a].run;
      Logged(FinishRun(DecideApproval(s, a, false, session), r, Failed, now, None, ApprovalDeniedNote(a), RunFailed(r)))
  {
    hide Logged, View, Close, SettleApproval, FinishRun;
    var r, u := s.t.gates.approvals[a].run, DecideApproval(s, a, false, session);
    SettleView(s.t, a, Denied, Some(session));
    Extend(s, u, ApprovalResolved(a, false, r));
    FinishLogged(u, r, Failed, now, None, ApprovalDeniedNote(a), RunFailed(r));
  }

  lemma AllowLogged(s: State, a: ApprovalId, session: SessionId)
    requires Logged(s) && a in s.t.gates.approvals
    ensures var u := DecideApproval(s, a, true, session);
      Logged(u.(t := SetStatus(u.t, s.t.gates.approvals[a].run, Running)))
  {
    hide Logged, View, Mark, SettleApproval, SetStatus;
    var r, u := s.t.gates.approvals[a].run, DecideApproval(s, a, true, session);
    SettleView(s.t, a, Allowed, Some(session));
    SetStatusView(u.t, r, Running);
    Extend(s, u.(t := SetStatus(u.t, r, Running)), ApprovalResolved(a, true, r));
  }

  lemma ResolveLogged(s: State, input: Input, a: ApprovalId, allow: bool)
    requires Logged(s)
    ensures Logged(Resolve(s, input, a, allow).s)
  {
    hide Logged, ExpireApproval, DecideApproval, FinishRun, SetStatus;
    if a in s.t.gates.approvals {
      ExpireLogged(s, a, input.now);
      AllowLogged(s, a, input.session);
      DenyLogged(s, a, input.session, input.now);
    }
  }

  lemma StatusLogged(s: State, r: RunId, status: RunStatus, key: MessageKey, e: Event)
    requires Logged(s) && Read(View(s.t), e) == Mark(View(s.t), r, status)
    ensures Logged(Post(s.(t := SetStatus(s.t, r, status)), key, e))
  {
    hide Logged, View, Read, Mark, SetStatus;
    SetStatusView(s.t, r, status);
    Extend(s, Post(s.(t := SetStatus(s.t, r, status)), key, e), e);
  }

  lemma AnswerLogged(s: State, input: Input, r: RunId)
    requires Logged(s)
    ensures Logged(AnswerRun(s, input, r).s)
  {
    hide Logged, View, Mark, SetStatus;
    StatusLogged(s, r, Running, AnswerNote(input.ids.command), InputAnswered(r));
  }

  lemma DropView(t: Tables, r: RunId)
    ensures View(DropApprovals(t, r)) == View(t)
  {
    GatesView(t, DropApprovals(t, r));
  }

  lemma CancelCommandLogged(s: State, input: Input, r: RunId)
    requires Logged(s)
    ensures Logged(Cancel(s, input, r).s)
  {
    hide View, CancelOne, DropApprovals;
    CancelLogged(s, r, input.now, CancelNote(r));
    DropView(CancelOne(s, r, input.now, CancelNote(r)).t, r);
  }

  lemma LoadView(t: Tables, r: RunId, load: Load)
    ensures View(SetLoad(t, r, load)) == View(t)
  {
    GatesView(t, SetLoad(t, r, load));
  }

  lemma DispatchLogged(s: State, input: Input)
    requires Logged(s)
    ensures Logged(Dispatch(s, input).s)
  {
    hide View, SetLoad, Submit, Propose, Resolve, AnswerRun, Cancel, Stop;
    match input.command
    case SubmitTask(bot, unsupported, plan) => SubmitLogged(s, input, bot, unsupported, plan);
    case ProposeHandoff(source) => ProposeLogged(s, input, source);
    case ResolveApproval(a, allow) => ResolveLogged(s, input, a, allow);
    case AnswerInput(r, _) => AnswerLogged(s, input, r);
    case CancelRun(r) => CancelCommandLogged(s, input, r);
    case LoadSession(r) => LoadView(s.t, r, Loading);
    case StopAll => StopLogged(s, input);
  }

  // ---------- callbacks ----------

  lemma StartLogged(s: State, r: RunId, session: SessionId, now: int)
    requires Logged(s) && Projected(s.t.tasks, s.t.runs)
    ensures Logged(MarkRunning(s, r, session, now).s)
  {
    hide Logged, View, Read, StartRows, Projected;
    if Working(s.t, r) {
      StartView(s.t, r, session, now);
      Extend(s, MarkRunning(s, r, session, now).s, RunRunning(r, session));
    }
  }

  lemma WaitApprovalLogged(s: State, r: RunId, task: TaskId, a: ApprovalId, x: ActionId, now: int)
    requires Logged(s)
    ensures Logged(WaitApproval(s, r, task, a, x, now).s)
  {
    hide Logged, View, Mark, SetStatus;
    if Working(s.t, r) {
      var u := s.t.(gates := Gates(s.t.gates.approvals[a := Approval(r, task, Pending, now + APPROVAL_TTL_MS, None)],
                                   s.t.gates.actions[x := Action(r, Tool, Pending, Some(a))]));
      GatesView(s.t, u);
      SetStatusView(u, r, WaitingApproval);
      Extend(s, WaitApproval(s, r, task, a, x, now).s, ApprovalOpened(r, a));
    }
  }

  lemma ArtifactView(t: Tables, r: RunId, task: TaskId, a: ArtifactId, size: nat, sha256: Digest)
    requires r in t.runs
    ensures View(InsertArtifact(t, r, task, a, size, sha256)) == View(t)
  {
  }

  lemma CompleteLogged(s: State, r: RunId, task: TaskId, a: ArtifactId, size: nat, sha256: Digest, now: int)
    requires Logged(s)
    ensures Logged(Complete(s, r, task, a, size, sha256, now).s)
  {
    if MayComplete(s.t, r) {
      hide View, Close, FinishRows, InsertArtifact;
      ArtifactView(s.t, r, task, a, size, sha256);
      var v := s.(t := InsertArtifact(s.t, r, task, a, size, sha256));
      FinishLogged(v, r, Succeeded, now, Some(a), ResultNote(r), RunSucceeded(r, a));
      var w := FinishRun(v, r, Succeeded, now, Some(a), ResultNote(r), RunSucceeded(r, a));
      if r in s.t.flow.handoffs {
        var h := s.t.flow.handoffs[r];
        Extend(w, Complete(s, r, task, a, size, sha256, now).s, HandoffArtifact(h.id, h.task, r, a));
      }
    }
  }

  lemma FailLogged(s: State, r: RunId, error: Digest, now: int)
    requires Logged(s)
    ensures Logged(Fail(s, r, error, now))
  {
    hide Logged, View, Close, FinishRun, RejectHandoff;
    RejectLogged(s, r, Rejected, now);
    FinishLogged(s, r, Failed, now, None, FailureNote(r, error), RunFailed(r));
  }

  lemma BumpView(t: Tables, r: RunId, task: TaskId)
    requires r in t.runs
    ensures View(CountAction(t, r, task)) == View(t)
  {
    var u := CountAction(t, r, task);
    assert ViewRuns(u.runs) == ViewRuns(t.runs);
    assert ViewTasks(u.tasks) == ViewTasks(t.tasks);
  }

  lemma DecideLogged(s: State, r: RunId, session: SessionId, verdict: Verdict, x: ActionId, now: int)
    requires Logged(s) && HandoffsLinked(s.t.runs, s.t.flow.handoffs)
    ensures Logged(Decide(s, r, session, verdict, x, now).s)
  {
    hide Logged, View, Read, AcceptRows, RejectHandoff, HandoffsLinked, Accepts;
    RejectLogged(s, r, Lapsed, now);
    RejectLogged(s, r, Rejected, now);
    if Rejectable(s.t, r) && MayDecide(s.t, r, session) {
      var h := s.t.flow.handoffs[r];
      RecipientRow(s.t.runs, s.t.flow.handoffs, r);
      AcceptView(s.t, r, x, now, h.id);
      var u := Post(s.(t := AcceptRows(s.t, r, x, now)), HandoffNote(h.id, Accepted), HandoffAccepted(h.id, h.task, r));
      Extend(s, u, HandoffAccepted(h.id, h.task, r));
    }
  }

  lemma ClaimView(t: Tables, r: RunId, kind: ActionKind)
    ensures View(ClaimActions(t, r, kind)) == View(t)
  {
  }

  lemma PeerLogged(s: State, r: RunId, body: Digest)
    requires Logged(s)
    ensures Logged(PeerProgress(s, r, body))
  {
    hide Logged, View;
    if MayDraft(s.t, r) && PeerNote(r, body) !in s.messages {
      Extend(s, PeerProgress(s, r, body), PeerProgressed(s.t.flow.handoffs[r].task, r, body));
    }
  }

  // ---------- timeouts and restart ----------

  lemma {:induction false} LapseLogged(s: State, rows: seq<RunId>, now: int)
    requires Logged(s)
    ensures Logged(LapseHandoffs(s, rows, now).s)
  {
    hide Logged, RejectHandoff;
    if rows != [] {
      LapseLogged(s, rows[..|rows|-1], now);
      RejectLogged(LapseHandoffs(s, rows[..|rows|-1], now).s, rows[|rows|-1], Lapsed, now);
    }
  }

  lemma {:induction false} OverdueLogged(s: State, rows: seq<RunId>, now: int)
    requires Logged(s)
    ensures Logged(FailOverdue(s, rows, now))
  {
    hide Logged, FinishRun, View, Close;
    if rows != [] {
      var r := rows[|rows|-1];
      OverdueLogged(s, rows[..|rows|-1], now);
      FinishLogged(FailOverdue(s, rows[..|rows|-1], now), r, Failed, now, None, DeadlineNote(r), RunFailed(r));
    }
  }

  lemma {:induction false} ExpireEachLogged(s: State, rows: seq<ApprovalId>, now: int)
    requires Logged(s)
    ensures Logged(ExpireEach(s, rows, now).s)
  {
    hide Logged, ExpireApproval;
    if rows != [] {
      ExpireEachLogged(s, rows[..|rows|-1], now);
      ExpireLogged(ExpireEach(s, rows[..|rows|-1], now).s, rows[|rows|-1], now);
    }
  }

  lemma SweepLogged(s: State, hs: seq<RunId>, rs: seq<RunId>, xs: seq<ApprovalId>, now: int)
    requires Logged(s)
    ensures Logged(Sweep(s, hs, rs, xs, now).s)
  {
    hide Logged, LapseHandoffs, FailOverdue, ExpireEach;
    var s1 := LapseHandoffs(s, hs, now).s;
    LapseLogged(s, hs, now);
    OverdueLogged(s1, rs, now);
    ExpireEachLogged(FailOverdue(s1, rs, now), xs, now);
  }

  lemma RestartView(t: Tables, u: Tables, rows: seq<RunId>)
    requires u.tasks == t.tasks && u.flow == t.flow && u.stopped == t.stopped && u.runs.Keys == t.runs.Keys
    requires forall r :: r in rows && r in t.runs ==> u.runs[r] == t.runs[r].(status := Interrupted)
    requires forall r :: r in t.runs && r !in rows ==> u.runs[r] == t.runs[r]
    ensures View(FailLoads(u)) == Read(View(t), DaemonRestarted(rows))
  {
    GatesView(u, FailLoads(u));
    assert View(u).runs == Read(View(t), DaemonRestarted(rows)).runs;
  }

  lemma {:induction false} InterruptLog(s: State, rows: seq<RunId>, now: int)
    ensures InterruptEach(s, rows, now).events == s.events
  {
    if rows != [] {
      InterruptLog(s, rows[..|rows|-1], now);
    }
  }

  lemma RestartLogged(s: State, rows: seq<RunId>, now: int)
    requires Logged(s) && Inv(s.t) && Enumerates(rows, ActiveRuns(s.t))
    ensures Logged(Restart(s, rows, now))
  {
    hide Logged, Inv, View, Read, InterruptEach, FailLoads;
    InterruptKeeps(s, rows, now);
    InterruptLog(s, rows, now);
    RestartView(s.t, InterruptEach(s, rows, now).t, rows);
    if rows == [] {
      RestartNothing(s, now);
    } else {
      Extend(s, Restart(s, rows, now), DaemonRestarted(rows));
    }
  }

  lemma RestartNothing(s: State, now: int)
    requires Logged(s)
    ensures Logged(Restart(s, [], now))
  {
    GatesView(s.t, FailLoads(s.t));
  }

  // ---------- the log in every reachable state ----------

  lemma CommitLogged(s: State, input: Input)
    requires Logged(s)
    ensures Logged(Apply(s, input))
  {
    hide Dispatch, View, ReadAll;
    DispatchLogged(s, input);
  }

  lemma RowLogged(s: State, u: Tables)
    requires Logged(s) && View(u) == View(s.t)
    ensures Logged(s.(t := u))
  {
  }

  lemma NextLogged(s: State, step: Step)
    requires Inv(s.t) && Legal(s, step) && Logged(s)
    ensures Logged(Next(s, step))
  {
    hide Logged, View, Read, Close, Mark, Links, Live, Apply, MarkRunning, SetLoad, WaitApproval, SetStatus, Complete,
      Fail, CountAction,
      Decide, ClaimActions, PeerProgress, Sweep, Restart, SweepRows, FreshIds, Enumerates;
    match step
    case DoApply(input) => CommitLogged(s, input);
    case DoMarkRunning(r, session, now) => ProjectedNow(s.t); StartLogged(s, r, session, now);
    case DoSaveLoad(r, load) => LoadView(s.t, r, load); RowLogged(s, SetLoad(s.t, r, load));
    case DoWaitApproval(r, task, a, x, now) => WaitApprovalLogged(s, r, task, a, x, now);
    case DoWaitInput(r, prompt) => AskLogged(s, r, prompt);
    case DoComplete(r, task, a, size, sha256, now) => CompleteLogged(s, r, task, a, size, sha256, now);
    case DoFail(r, error, now) => FailLogged(s, r, error, now);
    case DoBump(r, task) =>
      if BudgetLeft(s.t, r, task) {
        BumpView(s.t, r, task);
        RowLogged(s, CountAction(s.t, r, task));
      }
    case DoDecide(r, session, verdict, x, now) => ProjectedNow(s.t); DecideLogged(s, r, session, verdict, x, now);
    case DoClaimDraft(r) => ClaimView(s.t, r, HandoffDraft); RowLogged(s, ClaimActions(s.t, r, HandoffDraft));
    case DoPeerProgress(r, body) => PeerLogged(s, r, body);
    case DoSweep(hs, rs, xs, now) => SweepLogged(s, hs, rs, xs, now);
    case DoRestart(rows, now) => RestartLogged(s, rows, now);
  }

  lemma AskLogged(s: State, r: RunId, prompt: Digest)
    requires Logged(s)
    ensures Logged(WaitInput(s, r, prompt))
  {
    hide Logged, View, Mark, SetStatus;
    StatusLogged(s, r, WaitingInput, Question(r, prompt), InputOpened(r, prompt));
  }

  lemma ProjectedNow(t: Tables)
    requires Inv(t)
    ensures Projected(t.tasks, t.runs) && HandoffsLinked(t.runs, t.flow.handoffs)
  {
    hide Projected, HandoffsLinked;
  }

  /** Folding the events of any run of the store rebuilds its board. */
  lemma {:induction false} HistoryIsComplete(s: State, steps: seq<Step>)
    requires Inv(s.t) && Logged(s) && LegalRun(s, steps)
    ensures Logged(Exec(s, steps))
    decreases |steps|
  {
    hide Inv, Logged, Next, Legal;
    if steps != [] {
      NextKeeps(s, steps[0]);
      NextLogged(s, steps[0]);
      HistoryIsComplete(Next(s, steps[0]), steps[1..]);
    }
  }

  lemma EmptyLogged()
    ensures Logged(EMPTY)
  {
    assert View(EMPTY.t) == Board(map[], map[], map[], false);
  }
}
