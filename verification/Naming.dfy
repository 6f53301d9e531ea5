/** What the log names is there and belongs together, in every reachable state: the events of a handoff its task and
    recipient, those of an approval its run and what was decided, those of a result its artifact. */
module Naming {
  import opened Types
  import opened Rows
  import opened Transactions
  import opened Invariants
  import opened Insertions
  import opened Reachability
  import opened Stopping
  import opened Sweeping
  import opened Reachable
  import opened Lifecycle
  import opened Traces
  import opened Outcomes
  import Authority

  predicate IsHandoff(t: Tables, h: HandoffId, k: TaskId, r: RunId) {
    r in t.flow.handoffs && t.flow.handoffs[r].id == h && t.flow.handoffs[r].task == k
  }

  predicate IsResult(t: Tables, a: ArtifactId, r: RunId) {
    a in t.flow.artifacts && t.flow.artifacts[a].run == r
  }

  predicate Named(t: Tables, e: Event) {
    match e
    case TaskSubmitted(k, r, bot) => r in t.runs && t.runs[r].task == k && t.runs[r].bot == bot
    case RunRunning(r, _) => r in t.runs && t.runs[r].session.Some?
    case ApprovalOpened(r, a) => a in t.gates.approvals && t.gates.approvals[a].run == r
    case ApprovalResolved(a, allowed, r) =>
      a in t.gates.approvals && t.gates.approvals[a].run == r && t.gates.approvals[a].state == if allowed then Allowed else Denied
    case InputOpened(r, _) => r in t.runs
    case InputAnswered(r) => r in t.runs
    case RunCanceled(r) => r in t.runs
    case StopLatched(rows) => forall r | r in rows :: r in t.runs && t.runs[r].status == Canceled
    case DaemonRestarted(rows) => forall r | r in rows :: r in t.runs && !Active(t.runs[r].status)
    case RunSucceeded(r, a) => IsResult(t, a, r)
    case RunFailed(r) => r in t.runs
    case HandoffProposed(h, k, r) => IsHandoff(t, h, k, r)
    case HandoffAccepted(h, k, r) => IsHandoff(t, h, k, r)
    case HandoffRejected(h, k, r) => IsHandoff(t, h, k, r)
    case HandoffLapsed(h, k, r) => IsHandoff(t, h, k, r)
    case HandoffArtifact(h, k, r, a) => IsHandoff(t, h, k, r) && IsResult(t, a, r)
    case PeerProgressed(k, r, _) => r in t.flow.handoffs && t.flow.handoffs[r].task == k
  }

  lemma NamedLater(t: Tables, u: Tables, e: Event)
    requires Named(t, e) && Evolves(t, u)
    ensures Named(u, e)
  {
    hide OutcomesStand, DraftsEvolve, LatchEvolves;
  }

  /** Everything appended between two states is named in these tables. */
  predicate Names(s: State, u: State, t: Tables) {
    s.events <= u.events && forall i | |s.events| <= i < |u.events| :: Named(t, u.events[i])
  }

  lemma NamesNothing(s: State, u: State, t: Tables)
    requires u.events == s.events
    ensures Names(s, u, t)
  {
  }

  lemma NamesOne(s: State, u: State, t: Tables, e: Event)
    requires u.events == s.events + [e] && Named(t, e)
    ensures Names(s, u, t)
  {
    hide Named;
  }

  lemma NamesOn(s: State, u: State, v: State, t: Tables)
    requires Names(s, u, t) && Names(u, v, t)
    ensures Names(s, v, t)
  {
    hide Named;
  }

  /** Same runs, and the handoffs differ in their states at most. */
  predicate SameNames(t: Tables, u: Tables) {
    u.runs.Keys == t.runs.Keys && u.flow.handoffs.Keys == t.flow.handoffs.Keys
    && (forall r | r in t.flow.handoffs ::
          u.flow.handoffs[r].id == t.flow.handoffs[r].id && u.flow.handoffs[r].task == t.flow.handoffs[r].task)
  }

  lemma RejectNames(s: State, r: RunId, to: HandoffState, status: RunStatus, now: int, t: Tables)
    requires Finished(status) && SameNames(t, s.t)
    ensures var u := RejectHandoff(s, r, to, status, now); Names(s, u, t) && SameNames(t, u.t)
  {
    hide Names;
    var u := RejectHandoff(s, r, to, status, now);
    if Rejectable(s.t, r) {
      var h := s.t.flow.handoffs[r];
      RejectedNames(s.t, r, to, status, now);
      hide RejectRows;
      NamesOne(s, u, t, if to == Rejected then HandoffRejected(h.id, h.task, r) else HandoffLapsed(h.id, h.task, r));
    } else {
      NamesNothing(s, u, t);
    }
  }

  lemma RejectedNames(t: Tables, r: RunId, to: HandoffState, status: RunStatus, now: int)
    requires Finished(status)
    ensures SameNames(t, RejectRows(t, r, to, status, now))
  {
    hide FinishRows;
    if Rejectable(t, r) {
      FinishFrame(SetHandoff(t, r, to), r, status, now, None);
    }
  }

  lemma CanceledNames(t: Tables, r: RunId, now: int)
    ensures SameNames(t, CancelRows(t, r, now))
  {
    RejectedNames(t, r, Rejected, Canceled, now);
    hide RejectRows;
  }

  lemma CancelNames(s: State, r: RunId, now: int, key: MessageKey, t: Tables)
    requires SameNames(t, s.t) && r in s.t.runs
    ensures var u := CancelOne(s, r, now, key); Names(s, u, t) && SameNames(t, u.t)
  {
    hide Names, CancelRows, RejectRows;
    var v, u := RejectHandoff(s, r, Rejected, Canceled, now), CancelOne(s, r, now, key);
    RejectNames(s, r, Rejected, Canceled, now, t);
    CanceledNames(s.t, r, now);
    NamesOne(v, u, t, RunCanceled(r));
    NamesOn(s, v, u, t);
  }

  lemma {:induction false} CancelEachNames(s: State, rows: seq<RunId>, now: int)
    requires forall r :: r in rows ==> r in s.t.runs
    ensures var u := CancelEach(s, rows, now); Names(s, u, s.t) && SameNames(s.t, u.t)
  {
    hide Names, CancelOne;
    if rows == [] {
      NamesNothing(s, s, s.t);
    } else {
      var u := CancelEach(s, rows[..|rows|-1], now);
      CancelEachNames(s, rows[..|rows|-1], now);
      CancelNames(u, rows[|rows|-1], now, StopNote(rows[|rows|-1]), s.t);
      NamesOn(s, u, CancelEach(s, rows, now), s.t);
    }
  }

  lemma {:induction false} LapseNames(s: State, rows: seq<RunId>, now: int)
    ensures var u := LapseHandoffs(s, rows, now).s; Names(s, u, s.t) && SameNames(s.t, u.t)
  {
    hide Names, RejectHandoff;
    if rows == [] {
      NamesNothing(s, s, s.t);
    } else {
      var u := LapseHandoffs(s, rows[..|rows|-1], now).s;
      LapseNames(s, rows[..|rows|-1], now);
      RejectNames(u, rows[|rows|-1], Lapsed, Failed, now, s.t);
      NamesOn(s, u, LapseHandoffs(s, rows, now).s, s.t) by {
        NamesNothing(u, u, s.t);
      }
    }
  }

  lemma {:induction false} OverdueNames(s: State, rows: seq<RunId>, now: int, t: Tables)
    requires forall r :: r in rows ==> r in t.runs
    ensures Names(s, FailOverdue(s, rows, now), t)
  {
    hide Names, FinishRows;
    if rows == [] {
      NamesNothing(s, s, t);
    } else {
      var u := FailOverdue(s, rows[..|rows|-1], now);
      OverdueNames(s, rows[..|rows|-1], now, t);
      NamesOne(u, FailOverdue(s, rows, now), t, RunFailed(rows[|rows|-1]));
      NamesOn(s, u, FailOverdue(s, rows, now), t);
    }
  }

  lemma {:induction false} ExpireEachNames(s: State, rows: seq<ApprovalId>, now: int)
    requires ApprovalsHaveRuns(s.t) && forall a :: a in rows ==> a in s.t.gates.approvals
    ensures Names(s, ExpireEach(s, rows, now).s, s.t)
  {
    hide Names, ExpireRows;
    if rows == [] {
      NamesNothing(s, s, s.t);
    } else {
      var n := |rows| - 1;
      var u := ExpireEach(s, rows[..n], now).s;
      ExpireEachNames(s, rows[..n], now);
      ExpireEachFrame(s, rows[..n], now);
      assert rows[n] in u.t.gates.approvals && u.t.gates.approvals[rows[n]].run in s.t.runs;
      NamesOne(u, ExpireEach(s, rows, now).s, s.t, RunFailed(u.t.gates.approvals[rows[n]].run));
      NamesOn(s, u, ExpireEach(s, rows, now).s, s.t);
    }
  }

  lemma SweepNames(s: State, hs: seq<RunId>, rs: seq<RunId>, xs: seq<ApprovalId>, now: int)
    requires Inv(s.t) && SweepRows(s, hs, rs, xs, now)
    ensures Names(s, Sweep(s, hs, rs, xs, now).s, s.t)
  {
    hide Names, Inv, LapseHandoffs, FailOverdue, ExpireEach, Enumerates;
    var s1 := LapseHandoffs(s, hs, now).s;
    var s2 := FailOverdue(s1, rs, now);
    RowsLinked(s.t);
    LapseNames(s, hs, now);
    LapseFrame(s, hs, now);
    Listed(rs, Overdue(s1.t, now));
    OverdueNames(s1, rs, now, s.t);
    OverdueFrame(s1, rs, now);
    Listed(xs, DueApprovals(s2.t, now));
    ExpireEachNames(s2, xs, now);
    NamesElsewhere(s2, ExpireEach(s2, xs, now).s, xs, now, s.t);
    NamesOn(s, s1, s2, s.t);
    NamesOn(s, s2, ExpireEach(s2, xs, now).s, s.t);
  }

  /** The third loop logs failures only, which name runs. */
  lemma NamesElsewhere(s: State, u: State, rows: seq<ApprovalId>, now: int, t: Tables)
    requires u == ExpireEach(s, rows, now).s && Names(s, u, s.t) && t.runs.Keys == s.t.runs.Keys
    ensures Names(s, u, t)
  {
    FailuresOnly(s, rows, now);
  }

  lemma {:induction false} FailuresOnly(s: State, rows: seq<ApprovalId>, now: int)
    ensures var u := ExpireEach(s, rows, now).s;
      s.events <= u.events && forall i | |s.events| <= i < |u.events| :: u.events[i].RunFailed?
  {
    hide ExpireRows;
    if rows != [] {
      FailuresOnly(s, rows[..|rows|-1], now);
    }
  }

  // ---------- every transaction ----------

  lemma StopNames(s: State, input: Input)
    requires Inv(s.t) && Legal(s, DoApply(input)) && input.command.StopAll?
    ensures var u := Stop(s, input).s;
      s.events <= u.events && forall i | |s.events| <= i < |u.events| :: Named(s.t, u.events[i]) || Named(u.t, u.events[i])
  {
    hide Inv, CancelEach, FailLoads, DropAllApprovals, Named;
    var s0 := s.(t := s.t.(stopped := true));
    var v := CancelEach(s0, input.rows, input.now);
    CancelEachNames(s0, input.rows, input.now);
    forall i | |s.events| <= i < |v.events| ensures Named(s.t, v.events[i]) {
      SameNamed(s0.t, s.t, v.events[i]);
    }
    StopIsNamed(s, input);
  }

  lemma SameNamed(t: Tables, u: Tables, e: Event)
    requires Named(t, e) && u.runs == t.runs && u.gates == t.gates && u.flow == t.flow
    ensures Named(u, e)
  {
  }

  lemma StopIsNamed(s: State, input: Input)
    requires Inv(s.t) && Legal(s, DoApply(input)) && input.command.StopAll?
    ensures Named(Stop(s, input).s.t, StopLatched(input.rows))
  {
    hide Inv, Stop;
    forall r | r in input.rows
      ensures r in Stop(s, input).s.t.runs && Stop(s, input).s.t.runs[r].status == Canceled
    {
      StopCancels(s, input, r);
    }
  }

  lemma RestartNames(s: State, rows: seq<RunId>, now: int)
    requires Inv(s.t) && Enumerates(rows, ActiveRuns(s.t))
    ensures var u := Restart(s, rows, now); Names(s, u, u.t)
  {
    hide Inv, InterruptEach, FailLoads, Named;
    var u := Restart(s, rows, now);
    InterruptQuietly(s, rows, now);
    assert Named(u.t, DaemonRestarted(rows)) by {
      RestartedNamed(s, rows, now);
    }
  }

  lemma RestartedNamed(s: State, rows: seq<RunId>, now: int)
    requires Inv(s.t) && Enumerates(rows, ActiveRuns(s.t))
    ensures Named(Restart(s, rows, now).t, DaemonRestarted(rows))
  {
    hide Inv, Restart;
    forall r | r in rows ensures r in Restart(s, rows, now).t.runs && !Active(Restart(s, rows, now).t.runs[r].status) {
      RestartInterrupts(s, rows, now, r);
    }
  }

  lemma {:induction false} InterruptQuietly(s: State, rows: seq<RunId>, now: int)
    ensures InterruptEach(s, rows, now).events == s.events
  {
    if rows != [] {
      InterruptQuietly(s, rows[..|rows|-1], now);
    }
  }

  /** Every event a transaction appends is named before it or after it. */
  predicate NamesEither(s: State, u: State) {
    s.events <= u.events && forall i | |s.events| <= i < |u.events| :: Named(s.t, u.events[i]) || Named(u.t, u.events[i])
  }

  lemma EitherFromNames(s: State, u: State, t: Tables)
    requires Names(s, u, t) && (t == s.t || t == u.t)
    ensures NamesEither(s, u)
  {
    hide Named;
  }

  lemma ResolveNames(s: State, input: Input, a: ApprovalId, allow: bool)
    requires Inv(s.t)
    ensures NamesEither(s, Resolve(s, input, a, allow).s)
  {
    hide Inv, Names, NamesEither, FinishRows, SettleApproval, ExpireRows;
    var u := Resolve(s, input, a, allow).s;
    if u.events == s.events {
      NamesNothing(s, u, s.t);
      EitherFromNames(s, u, s.t);
    } else if s.t.gates.approvals[a].expires <= input.now {
      ApprovalRun(s.t, a);
      NamesOne(s, u, s.t, RunFailed(s.t.gates.approvals[a].run));
      EitherFromNames(s, u, s.t);
    } else {
      DecidedNames(s, input, a, allow);
      EitherFromNames(s, u, u.t);
    }
  }

  lemma DecidedNames(s: State, input: Input, a: ApprovalId, allow: bool)
    requires Inv(s.t) && Authority.Actionable(s.t, a, input.now)
    ensures Names(s, Resolve(s, input, a, allow).s, Resolve(s, input, a, allow).s.t)
  {
    hide Inv;
  }

  lemma SubmitNames(s: State, input: Input, bot: BotChoice, unsupported: bool, plan: bool)
    ensures NamesEither(s, Submit(s, input, bot, unsupported, plan).s)
  {
    hide SubmitDenial;
  }

  lemma ProposeNames(s: State, input: Input, source: RunId)
    ensures NamesEither(s, Propose(s, input, source).s)
  {
    if ProposeDenial(s.t, input, source).None? {
      ProposeNeeds(s.t, input, source);
      hide ProposeDenial;
    }
  }

  lemma CancelCommandNames(s: State, input: Input, r: RunId)
    ensures NamesEither(s, Cancel(s, input, r).s)
  {
    hide Names, CancelOne, DropApprovals;
    if Cancelable(s.t, r) {
      CancelNames(s, r, input.now, CancelNote(r), s.t);
      var v := CancelOne(s, r, input.now, CancelNote(r));
      NamesNothing(v, Cancel(s, input, r).s, s.t);
      NamesOn(s, v, Cancel(s, input, r).s, s.t);
      EitherFromNames(s, Cancel(s, input, r).s, s.t);
    }
  }

  lemma DispatchNames(s: State, input: Input)
    requires Inv(s.t) && Legal(s, DoApply(input))
    ensures NamesEither(s, Dispatch(s, input).s)
  {
    match input.command {
      case SubmitTask(bot, unsupported, plan) => SubmitNames(s, input, bot, unsupported, plan);
      case ProposeHandoff(source) => ProposeNames(s, input, source);
      case ResolveApproval(a, allow) => ResolveNames(s, input, a, allow);
      case AnswerInput(r, _) => AnswerNames(s, input, r);
      case CancelRun(r) => CancelCommandNames(s, input, r);
      case LoadSession(r) => LoadNames(s, input, r);
      case StopAll => StopNames(s, input);
    }
    hide Inv, Submit, Propose, Resolve, AnswerRun, Cancel, BeginLoad, Stop, Named, FreshIds;
  }

  lemma AnswerNames(s: State, input: Input, r: RunId)
    ensures NamesEither(s, AnswerRun(s, input, r).s)
  {
  }

  lemma LoadNames(s: State, input: Input, r: RunId)
    ensures NamesEither(s, BeginLoad(s, input, r).s)
  {
    hide LoadDenial;
  }

  lemma CompleteNames(s: State, r: RunId, task: TaskId, a: ArtifactId, size: nat, sha256: Digest, now: int)
    ensures NamesEither(s, Complete(s, r, task, a, size, sha256, now).s)
  {
  }

  lemma DecideNames(s: State, r: RunId, session: SessionId, verdict: Verdict, x: ActionId, now: int)
    ensures NamesEither(s, Decide(s, r, session, verdict, x, now).s)
  {
    assert Rejectable(s.t, r) ==> Named(s.t, HandoffAccepted(s.t.flow.handoffs[r].id, s.t.flow.handoffs[r].task, r));
    hide Names, NamesEither, Named, MayDecide, Accepts, RejectHandoff, AcceptRows;
    var u := Decide(s, r, session, verdict, x, now).s;
    if Decide(s, r, session, verdict, x, now).yes {
      NamesOne(s, u, s.t, HandoffAccepted(s.t.flow.handoffs[r].id, s.t.flow.handoffs[r].task, r));
    } else {
      RejectNames(s, r, Lapsed, Failed, now, s.t);
      RejectNames(s, r, Rejected, Failed, now, s.t);
      NamesNothing(s, s, s.t);
    }
    EitherFromNames(s, u, s.t);
  }

  lemma FailNames(s: State, r: RunId, error: Digest, now: int)
    ensures NamesEither(s, Fail(s, r, error, now))
  {
    hide Names, RejectHandoff, FinishRows;
    var u := Fail(s, r, error, now);
    RejectNames(s, r, Rejected, Failed, now, s.t);
    if Working(s.t, r) && !Rejectable(s.t, r) {
      NamesOne(s, u, s.t, RunFailed(r));
    } else if !Working(s.t, r) {
      NamesNothing(s, u, s.t);
    }
    EitherFromNames(s, u, s.t);
  }

  lemma AskNames(s: State, r: RunId, task: TaskId, a: ApprovalId, x: ActionId, prompt: Digest, session: SessionId, now: int)
    ensures NamesEither(s, WaitApproval(s, r, task, a, x, now).s) && NamesEither(s, WaitInput(s, r, prompt))
    ensures NamesEither(s, MarkRunning(s, r, session, now).s)
  {
    hide ClaimActions, StartTasks;
    StartedSession(s.t, r, session, now);
  }

  lemma StartedSession(t: Tables, r: RunId, session: SessionId, now: int)
    ensures r in t.runs ==>
      r in StartRows(t, r, session, now).runs && StartRows(t, r, session, now).runs[r].session == Some(session)
  {
  }

  lemma NextNames(s: State, step: Step)
    requires Inv(s.t) && Legal(s, step)
    ensures NamesEither(s, Next(s, step))
  {
    hide Inv, Names, NamesEither, Dispatch, Complete, Decide, Fail, MarkRunning, WaitApproval, WaitInput, CountAction, SetLoad,
      ClaimActions, Sweep, Restart, SweepRows, Enumerates, FreshIds;
    var u := Next(s, step);
    match step {
      case DoApply(input) =>
        if Commits(s, input) {
          DispatchNames(s, input);
          SameEvents(s, Dispatch(s, input).s, u);
        } else {
          QuietNames(s, u);
        }
      case DoMarkRunning(r, session, now) => AskNames(s, r, 0, 0, 0, 0, session, now);
      case DoSaveLoad(_, _) => QuietNames(s, u);
      case DoWaitApproval(r, task, a, x, now) => AskNames(s, r, task, a, x, 0, 0, now);
      case DoWaitInput(r, prompt) => AskNames(s, r, 0, 0, 0, prompt, 0, 0);
      case DoComplete(r, task, a, size, sha256, now) => CompleteNames(s, r, task, a, size, sha256, now);
      case DoFail(r, error, now) => FailNames(s, r, error, now);
      case DoBump(_, _) => QuietNames(s, u);
      case DoDecide(r, session, verdict, x, now) => DecideNames(s, r, session, verdict, x, now);
      case DoClaimDraft(_) => QuietNames(s, u);
      case DoPeerProgress(r, body) => PeerNames(s, r, body);
      case DoSweep(hs, rs, xs, now) =>
        SweepNames(s, hs, rs, xs, now);
        EitherFromNames(s, u, s.t);
      case DoRestart(rows, now) =>
        RestartNames(s, rows, now);
        EitherFromNames(s, u, u.t);
    }
  }

  lemma QuietNames(s: State, u: State)
    requires u.events == s.events
    ensures NamesEither(s, u)
  {
  }

  lemma SameEvents(s: State, v: State, u: State)
    requires NamesEither(s, v) && u.events == v.events && u.t == v.t
    ensures NamesEither(s, u)
  {
    hide Named;
  }

  lemma PeerNames(s: State, r: RunId, body: Digest)
    ensures NamesEither(s, PeerProgress(s, r, body))
  {
  }

  predicate AllNamed(s: State) {
    forall i | 0 <= i < |s.events| :: Named(s.t, s.events[i])
  }

  lemma NextAllNamed(s: State, step: Step)
    requires Inv(s.t) && Legal(s, step) && AllNamed(s)
    ensures AllNamed(Next(s, step))
  {
    hide Inv, Named, Next, Legal, Evolves, Thrifty;
    var u := Next(s, step);
    NextNames(s, step);
    NextOnward(s, step);
    forall i | 0 <= i < |u.events| ensures Named(u.t, u.events[i]) {
      if i < |s.events| {
        assert u.events[i] == s.events[i];
      }
      if Named(s.t, u.events[i]) {
        NamedLater(s.t, u.t, u.events[i]);
      }
    }
  }

  lemma {:induction false} ExecAllNamed(s: State, steps: seq<Step>)
    requires Inv(s.t) && LegalRun(s, steps) && AllNamed(s)
    ensures AllNamed(Exec(s, steps))
    decreases |steps|
  {
    hide Inv, Next, Legal, AllNamed;
    if steps != [] {
      NextAllNamed(s, steps[0]);
      NextKeeps(s, steps[0]);
      ExecAllNamed(Next(s, steps[0]), steps[1..]);
    }
  }

  /** In every reachable state, everything the log names is there and says what the log says of it. */
  lemma LogNamesRows(steps: seq<Step>)
    requires LegalRun(EMPTY, steps)
    ensures AllNamed(Exec(EMPTY, steps))
  {
    EmptyInv();
    hide Inv, Exec, LegalRun;
    ExecAllNamed(EMPTY, steps);
  }
}
