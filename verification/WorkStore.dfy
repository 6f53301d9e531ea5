/** The store as the daemon runs it: tables updated in place, row by row, with loops over the rows a query
    returned and a rollback when a write fails. Each method is one transaction, proved to compute the function
    of the same name, to keep the invariant and to log what it did. */
module WorkStores {
  import opened Types
  import opened Rows
  import T = Transactions
  import opened Invariants
  import opened Reachable
  import H = History
  import opened Chronicle

  /** The rows of a query, in some order. */
  method Select<K(==)>(ids: set<K>) returns (rows: seq<K>)
    ensures Enumerates(rows, ids)
  {
    rows := [];
    var rest := ids;
    while rest != {}
      invariant rest <= ids && Enumerates(rows, ids - rest)
      decreases |rest|
    {
      var x :| x in rest;
      rows, rest := rows + [x], rest - {x};
    }
    assert ids - rest == ids;
  }

  class WorkStore {
    var tasks: Tasks
    var runs: Runs
    var approvals: Approvals
    var actions: Actions
    var handoffs: Handoffs
    var artifacts: Artifacts
    var stopped: bool
    var events: seq<Event>
    var messages: set<MessageKey>
    var commands: map<Key, Committed>

    function Tables(): Tables
      reads this
    {
      Types.Tables(tasks, runs, Gates(approvals, actions), Flow(handoffs, artifacts), stopped)
    }

    function View(): State
      reads this
    {
      State(Tables(), events, messages, commands)
    }

    ghost predicate Valid()
      reads this
    {
      Inv(Tables()) && H.Logged(View())
    }

    constructor ()
      ensures Valid() && View() == EMPTY
    {
      tasks, runs, approvals, actions := map[], map[], map[], map[];
      handoffs, artifacts, stopped := map[], map[], false;
      events, messages, commands := [], {}, map[];
      new;
      EmptyInv();
      EmptyLogged();
    }

    // ---------- pieces shared by several transactions ----------

    method Post(key: MessageKey, event: Event)
      modifies this`messages, this`events
      ensures View() == T.Post(old(View()), key, event)
    {
      if key !in messages {
        messages := messages + {key};
      }
      events := events + [event];
    }

    method FinishRows(r: RunId, status: RunStatus, now: int, latest: Option<ArtifactId>)
      requires Finished(status)
      modifies this`tasks, this`runs
      ensures Tables() == Rows.FinishRows(old(Tables()), r, status, now, latest)
    {
      if r in runs {
        var row := runs[r];
        runs := runs[r := row.(status := status, completed := Some(now))];
        if row.task in tasks && tasks[row.task].current == r {
          var task := tasks[row.task].(status := FinishedTask(status), updated := now);
          if latest.Some? {
            task := task.(latest := latest);
          }
          tasks := tasks[row.task := task];
        }
      }
    }

    method FinishRun(r: RunId, status: RunStatus, now: int, latest: Option<ArtifactId>, key: MessageKey, event: Event)
      requires Finished(status)
      modifies this`tasks, this`runs, this`messages, this`events
      ensures View() == T.FinishRun(old(View()), r, status, now, latest, key, event)
    {
      FinishRows(r, status, now, latest);
      Post(key, event);
    }

    method DropActions(r: RunId, states: set<GateState>)
      modifies this`actions
      ensures Tables() == Rows.DropActions(old(Tables()), r, states)
    {
      actions := map x | x in actions ::
        if actions[x].run == r && actions[x].state in states then actions[x].(state := Dropped) else actions[x];
    }

    method RejectHandoff(r: RunId, to: HandoffState, status: RunStatus, now: int) returns (rejected: bool)
      requires Finished(status)
      modifies this
      ensures rejected == Rejectable(old(Tables()), r)
      ensures View() == T.RejectHandoff(old(View()), r, to, status, now)
    {
      if r !in handoffs || handoffs[r].state != Proposed {
        return false;
      }
      var h := handoffs[r];
      handoffs := handoffs[r := h.(state := to)];
      FinishRows(r, status, now, None);
      DropActions(r, {Pending});
      Post(HandoffNote(h.id, to), if to == Rejected then HandoffRejected(h.id, h.task, r) else HandoffLapsed(h.id, h.task, r));
      return true;
    }

    method SettleApproval(a: ApprovalId, to: GateState, resolver: Option<SessionId>)
      requires a in approvals
      modifies this`approvals, this`actions
      ensures Tables() == Rows.SettleApproval(old(Tables()), a, to, resolver)
    {
      approvals := approvals[a := approvals[a].(state := to, resolver := resolver)];
      actions := map x | x in actions ::
        if actions[x].approval == Some(a) && actions[x].state == Pending then actions[x].(state := to) else actions[x];
    }

    method ExpireApproval(a: ApprovalId, now: int)
      requires a in approvals
      modifies this
      ensures View() == T.ExpireApproval(old(View()), a, now)
    {
      var row := approvals[a];
      SettleApproval(a, Expired, row.resolver);
      FinishRun(row.run, Failed, now, None, ApprovalLapsedNote(a), RunFailed(row.run));
    }

    method SetStatus(r: RunId, status: RunStatus)
      modifies this`runs
      ensures Tables() == Rows.SetStatus(old(Tables()), r, status)
    {
      if r in runs {
        runs := runs[r := runs[r].(status := status)];
      }
    }

    method CancelOne(r: RunId, now: int, key: MessageKey)
      modifies this
      ensures View() == T.CancelOne(old(View()), r, now, key)
    {
      var _ := RejectHandoff(r, Rejected, Canceled, now);
      FinishRows(r, Canceled, now, None);
      DropActions(r, {Pending, Allowed});
      Post(key, RunCanceled(r));
    }

    method FailLoads()
      modifies this`runs
      ensures Tables() == Rows.FailLoads(old(Tables()))
    {
      runs := map r | r in runs :: if runs[r].load == Loading then runs[r].(load := LoadFailed) else runs[r];
    }

    // ---------- owner commands ----------

    method SubmitTask(input: Input, bot: BotChoice, unsupported: bool, plan: bool) returns (receipt: Receipt)
      modifies this
      ensures T.Outcome(View(), receipt) == T.Submit(old(View()), input, bot, unsupported, plan)
    {
      var ids := input.ids;
      var denial := T.SubmitDenial(Tables(), input, bot, unsupported, plan);
      if denial.Some? {
        return T.Refuse(View(), ids.command, denial.value).receipt;
      }
      var name := if bot.Named? then bot.bot else Mara;
      tasks := tasks[ids.task := Task(input.session, name, ids.run, None, Open, 0, input.now)];
      runs := runs[ids.run := T.NewRun(ids.task, name, T.ProviderFor(input.provider, name), MAX_ACTIONS_PER_RUN, input.now)];
      actions := actions[ids.action := Action(ids.run, Launch, Pending, None)];
      Post(Request(ids.command), TaskSubmitted(ids.task, ids.run, name));
      return Receipt(ids.command, false, true, None, Some(ids.task), Some(ids.run), None, None, [DoLaunch]);
    }

    method ProposeHandoff(input: Input, source: RunId) returns (receipt: Receipt)
      modifies this
      ensures T.Outcome(View(), receipt) == T.Propose(old(View()), input, source)
    {
      var ids := input.ids;
      var denial := T.ProposeDenial(Tables(), input, source);
      if denial.Some? {
        return T.Refuse(View(), ids.command, denial.value).receipt;
      }
      var origin := runs[source];
      runs := runs[ids.run := T.NewRun(origin.task, Ivo, Claude, origin.budget, input.now)];
      actions := actions[ids.action := Action(ids.run, Launch, Pending, None)];
      handoffs := handoffs[ids.run := Handoff(ids.handoff, origin.task, source, Proposed, input.now + HANDOFF_TTL_MS)];
      Post(HandoffNote(ids.handoff, Proposed), HandoffProposed(ids.handoff, origin.task, ids.run));
      return Receipt(ids.command, false, true, None, Some(origin.task), Some(ids.run), None, Some(ids.handoff), [DoLaunch]);
    }

    method ResolveApproval(input: Input, a: ApprovalId, allow: bool) returns (receipt: Receipt)
      modifies this
      ensures T.Outcome(View(), receipt) == T.Resolve(old(View()), input, a, allow)
    {
      var c := input.ids.command;
      if a !in approvals {
        return Receipt(c, false, false, Some(NoSuchApproval), None, None, None, None, []);
      }
      var row := approvals[a];
      if row.state != Pending {
        return Receipt(c, false, false, Some(ApprovalAlready(row.state)), None, None, Some(a), None, []);
      }
      if !(row.run in runs && runs[row.run].status == WaitingApproval && !stopped) {
        return Receipt(c, false, false, Some(NotActionable), None, None, Some(a), None, []);
      }
      if row.expires <= input.now {
        ExpireApproval(a, input.now);
        return Receipt(c, false, false, Some(ApprovalTimedOut), Some(row.task), Some(row.run), Some(a), None, [InterruptProvider]);
      }
      SettleApproval(a, if allow then Allowed else Denied, Some(input.session));
      Post(ApprovalDecided(a), ApprovalResolved(a, allow, row.run));
      if allow {
        SetStatus(row.run, Running);
      } else {
        FinishRun(row.run, Failed, input.now, None, ApprovalDeniedNote(a), RunFailed(row.run));
      }
      return Receipt(c, false, true, None, Some(row.task), Some(row.run), Some(a), None,
                     [if allow then DispatchTool else RejectTool]);
    }

    method AnswerInput(input: Input, r: RunId) returns (receipt: Receipt)
      modifies this
      ensures T.Outcome(View(), receipt) == T.AnswerRun(old(View()), input, r)
    {
      var c := input.ids.command;
      if !(r in runs && runs[r].status == WaitingInput) {
        return Receipt(c, false, false, Some(NotWaitingForInput), None, Some(r), None, None, []);
      }
      SetStatus(r, Running);
      Post(AnswerNote(c), InputAnswered(r));
      return Receipt(c, false, true, None, Some(runs[r].task), Some(r), None, None, [ResumeInput]);
    }

    method CancelRun(input: Input, r: RunId) returns (receipt: Receipt)
      modifies this
      ensures T.Outcome(View(), receipt) == T.Cancel(old(View()), input, r)
    {
      hide Rows.CancelRows, Rows.RejectRows;
      var c := input.ids.command;
      if r !in runs {
        return Receipt(c, false, false, Some(NoSuchRun), None, Some(r), None, None, []);
      }
      var row := runs[r];
      if Finished(row.status) {
        return Receipt(c, false, false, Some(RunAlready(row.status)), None, Some(r), None, None, []);
      }
      CancelOne(r, input.now, CancelNote(r));
      approvals := map a | a in approvals ::
        if approvals[a].run == r && approvals[a].state == Pending then approvals[a].(state := Dropped) else approvals[a];
      return Receipt(c, false, true, None, Some(row.task), Some(r), None, None, [InterruptProvider]);
    }

    method LoadSession(input: Input, r: RunId) returns (receipt: Receipt)
      modifies this
      ensures T.Outcome(View(), receipt) == T.BeginLoad(old(View()), input, r)
    {
      var c := input.ids.command;
      var denial := T.LoadDenial(Tables(), r);
      if denial.Some? {
        return T.Refuse(View(), c, denial.value).receipt;
      }
      runs := runs[r := runs[r].(load := Loading)];
      return Receipt(c, false, true, None, Some(runs[r].task), Some(r), None, None, [DoLoad]);
    }

    method CancelEach(rows: seq<RunId>, now: int)
      modifies this
      ensures View() == T.CancelEach(old(View()), rows, now)
    {
      hide Rows.CancelRows, Rows.RejectRows, T.CancelOne;
      var i := 0;
      while i < |rows|
        invariant 0 <= i <= |rows|
        invariant View() == T.CancelEach(old(View()), rows[..i], now)
      {
        CancelOne(rows[i], now, StopNote(rows[i]));
        assert rows[..i+1][..i] == rows[..i];
        i := i + 1;
      }
      assert rows[..i] == rows;
    }

    /** Latches, cancels the active runs one after the other, then drops pending approvals and fails loads. */
    method StopAll(input: Input) returns (receipt: Receipt)
      modifies this
      ensures T.Outcome(View(), receipt) == T.Stop(old(View()), input)
    {
      hide T.CancelEach;
      stopped := true;
      CancelEach(input.rows, input.now);
      approvals := map a | a in approvals :: if approvals[a].state == Pending then approvals[a].(state := Dropped) else approvals[a];
      FailLoads();
      events := events + [StopLatched(input.rows)];
      return Receipt(input.ids.command, false, true, None, None, None, None, None, [InterruptProvider]);
    }

    method Dispatch(input: Input) returns (receipt: Receipt)
      modifies this
      ensures T.Outcome(View(), receipt) == T.Dispatch(old(View()), input)
    {
      hide T.Submit, T.Propose, T.Resolve, T.AnswerRun, T.Cancel, T.BeginLoad, T.Stop;
      match input.command
      case SubmitTask(bot, unsupported, plan) => receipt := SubmitTask(input, bot, unsupported, plan);
      case ProposeHandoff(source) => receipt := ProposeHandoff(input, source);
      case ResolveApproval(a, allow) => receipt := ResolveApproval(input, a, allow);
      case AnswerInput(r, _) => receipt := AnswerInput(input, r);
      case CancelRun(r) => receipt := CancelRun(input, r);
      case LoadSession(r) => receipt := LoadSession(input, r);
      case StopAll => receipt := StopAll(input);
    }

    /** Everything the transaction wrote is undone when a later write of it fails. */
    method ApplyCommand(input: Input) returns (reply: Reply)
      requires Valid() && T.Legal(View(), T.DoApply(input))
      modifies this
      ensures View() == T.Apply(old(View()), input) && reply == T.Respond(old(View()), input)
      ensures Valid()
    {
      hide T.Dispatch, Inv, H.Logged, T.Legal;
      if !input.owner {
        return Thrown(Forbidden);
      }
      if input.key in commands {
        var prior := commands[input.key];
        if prior.command != input.command {
          return Thrown(Conflict);
        }
        return Returned(T.ReplayOf(prior.receipt));
      }
      NextKeeps(View(), T.DoApply(input));
      NextLogged(View(), T.DoApply(input));
      var begin := View();
      var receipt := Dispatch(input);
      if input.fault {
        Rollback(begin);
        return Thrown(Internal);
      }
      commands := commands[input.key := Committed(input.command, receipt)];
      return Returned(receipt);
    }

    method Rollback(s: State)
      modifies this
      ensures View() == s
    {
      tasks, runs, stopped := s.t.tasks, s.t.runs, s.t.stopped;
      approvals, actions := s.t.gates.approvals, s.t.gates.actions;
      handoffs, artifacts := s.t.flow.handoffs, s.t.flow.artifacts;
      events, messages, commands := s.events, s.messages, s.commands;
    }

    // ---------- engine callbacks ----------

    method MarkRunning(r: RunId, session: SessionId, now: int) returns (yes: bool)
      requires Valid()
      modifies this
      ensures T.Answer(View(), yes) == T.MarkRunning(old(View()), r, session, now)
      ensures Valid()
    {
      hide Inv, H.Logged;
      Keeps(T.DoMarkRunning(r, session, now));
      if !(r in runs && Active(runs[r].status) && !stopped) {
        return false;
      }
      var started := if runs[r].started.Some? then runs[r].started else Some(now);
      runs := runs[r := runs[r].(status := Running, session := Some(session), started := started)];
      tasks := map k | k in tasks :: if tasks[k].current == r then tasks[k].(status := InProgress, updated := now) else tasks[k];
      Claim(r, Launch);
      events := events + [RunRunning(r, session)];
      return true;
    }

    method Claim(r: RunId, kind: ActionKind)
      modifies this`actions
      ensures Tables() == ClaimActions(old(Tables()), r, kind)
    {
      actions := map x | x in actions ::
        if actions[x].run == r && actions[x].kind == kind && actions[x].state == Pending
        then actions[x].(state := Claimed) else actions[x];
    }

    method SaveLoad(r: RunId, load: Load)
      requires Valid() && T.Legal(View(), T.DoSaveLoad(r, load))
      modifies this
      ensures View() == T.SaveLoad(old(View()), r, load)
      ensures Valid()
    {
      hide Inv, H.Logged;
      Keeps(T.DoSaveLoad(r, load));
      if r in runs {
        runs := runs[r := runs[r].(load := load)];
      }
    }

    method WaitApproval(r: RunId, task: TaskId, a: ApprovalId, x: ActionId, now: int) returns (yes: bool)
      requires Valid() && T.Legal(View(), T.DoWaitApproval(r, task, a, x, now))
      modifies this
      ensures T.Answer(View(), yes) == T.WaitApproval(old(View()), r, task, a, x, now)
      ensures Valid()
    {
      hide Inv, H.Logged;
      Keeps(T.DoWaitApproval(r, task, a, x, now));
      if !(r in runs && Active(runs[r].status) && !stopped) {
        return false;
      }
      approvals := approvals[a := Approval(r, task, Pending, now + APPROVAL_TTL_MS, None)];
      actions := actions[x := Action(r, Tool, Pending, Some(a))];
      SetStatus(r, WaitingApproval);
      Post(ApprovalAsked(a), ApprovalOpened(r, a));
      return true;
    }

    method WaitInput(r: RunId, prompt: Digest)
      requires Valid()
      modifies this
      ensures View() == T.WaitInput(old(View()), r, prompt)
      ensures Valid()
    {
      hide Inv, H.Logged;
      Keeps(T.DoWaitInput(r, prompt));
      if r in runs && Active(runs[r].status) && !stopped {
        SetStatus(r, WaitingInput);
        Post(Question(r, prompt), InputOpened(r, prompt));
      }
    }

    method Complete(r: RunId, task: TaskId, a: ArtifactId, size: nat, sha256: Digest, now: int) returns (yes: bool)
      requires Valid() && T.Legal(View(), T.DoComplete(r, task, a, size, sha256, now))
      modifies this
      ensures T.Answer(View(), yes) == T.Complete(old(View()), r, task, a, size, sha256, now)
      ensures Valid()
    {
      hide Inv, H.Logged, Rows.FinishRows;
      Keeps(T.DoComplete(r, task, a, size, sha256, now));
      if !(r in runs && Active(runs[r].status) && !stopped) || (r in handoffs && handoffs[r].state != Accepted) {
        return false;
      }
      artifacts := artifacts[a := Artifact(task, r, runs[r].bot, size, sha256)];
      FinishRun(r, Succeeded, now, Some(a), ResultNote(r), RunSucceeded(r, a));
      if r in handoffs {
        events := events + [HandoffArtifact(handoffs[r].id, handoffs[r].task, r, a)];
      }
      return true;
    }

    method Fail(r: RunId, error: Digest, now: int)
      requires Valid()
      modifies this
      ensures View() == T.Fail(old(View()), r, error, now)
      ensures Valid()
    {
      hide Inv, H.Logged, Rows.FinishRows, Rows.RejectRows;
      Keeps(T.DoFail(r, error, now));
      if r in runs && Active(runs[r].status) && !stopped {
        var rejected := RejectHandoff(r, Rejected, Failed, now);
        if !rejected {
          FinishRun(r, Failed, now, None, FailureNote(r, error), RunFailed(r));
        }
      }
    }

    method BumpAction(r: RunId, task: TaskId) returns (yes: bool)
      requires Valid() && T.Legal(View(), T.DoBump(r, task))
      modifies this
      ensures T.Answer(View(), yes) == T.BumpAction(old(View()), r, task)
      ensures Valid()
    {
      hide Inv, H.Logged;
      Keeps(T.DoBump(r, task));
      if !(r in runs && Active(runs[r].status) && !stopped) {
        return false;
      }
      if runs[r].spent >= runs[r].budget || (task in tasks && tasks[task].spent >= MAX_ACTIONS_PER_TASK) {
        return false;
      }
      runs := runs[r := runs[r].(spent := runs[r].spent + 1)];
      if task in tasks {
        tasks := tasks[task := tasks[task].(spent := tasks[task].spent + 1)];
      }
      return true;
    }

    method AcceptHandoff(r: RunId, x: ActionId, now: int)
      requires r in handoffs
      modifies this
      ensures var h := old(handoffs[r]);
        View() == T.Post(old(View()).(t := T.AcceptRows(old(Tables()), r, x, now)), HandoffNote(h.id, Accepted),
                         HandoffAccepted(h.id, h.task, r))
    {
      var h := handoffs[r];
      handoffs := handoffs[r := h.(state := Accepted)];
      if h.task in tasks && tasks[h.task].bot == Mara {
        tasks := tasks[h.task := tasks[h.task].(bot := Ivo, status := InProgress, current := r, updated := now)];
      }
      actions := actions[x := Action(r, HandoffDraft, Pending, None)];
      Post(HandoffNote(h.id, Accepted), HandoffAccepted(h.id, h.task, r));
    }

    method DecideHandoff(r: RunId, session: SessionId, verdict: Verdict, x: ActionId, now: int) returns (yes: bool)
      requires Valid() && T.Legal(View(), T.DoDecide(r, session, verdict, x, now))
      modifies this
      ensures T.Answer(View(), yes) == T.Decide(old(View()), r, session, verdict, x, now)
      ensures Valid()
    {
      hide Inv, H.Logged, Rows.RejectRows, T.AcceptRows;
      Keeps(T.DoDecide(r, session, verdict, x, now));
      if r !in handoffs || handoffs[r].state != Proposed {
        return false;
      }
      var h := handoffs[r];
      if h.expires <= now {
        var _ := RejectHandoff(r, Lapsed, Failed, now);
        return false;
      }
      if !T.MayDecide(Tables(), r, session) {
        return false;
      }
      if !T.Accepts(Tables(), r, verdict) {
        var _ := RejectHandoff(r, Rejected, Failed, now);
        return false;
      }
      AcceptHandoff(r, x, now);
      return true;
    }

    method ClaimDraft(r: RunId) returns (yes: bool)
      requires Valid()
      modifies this
      ensures T.Answer(View(), yes) == T.ClaimDraft(old(View()), r)
      ensures Valid()
    {
      hide Inv, H.Logged;
      Keeps(T.DoClaimDraft(r));
      if !(r in runs && Active(runs[r].status) && !stopped && r in handoffs && handoffs[r].state == Accepted) {
        return false;
      }
      var changes := |DraftActions(Tables(), r)|;
      Claim(r, HandoffDraft);
      return changes == 1;
    }

    method PeerProgress(r: RunId, body: Digest)
      requires Valid()
      modifies this
      ensures View() == T.PeerProgress(old(View()), r, body)
      ensures Valid()
    {
      hide Inv, H.Logged;
      Keeps(T.DoPeerProgress(r, body));
      if r in runs && Active(runs[r].status) && !stopped && r in handoffs && handoffs[r].state == Accepted
         && PeerNote(r, body) !in messages {
        Post(PeerNote(r, body), PeerProgressed(handoffs[r].task, r, body));
      }
    }

    lemma Keeps(step: T.Step)
      requires Valid() && T.Legal(View(), step)
      ensures Inv(T.Next(View(), step).t) && H.Logged(T.Next(View(), step))
    {
      hide T.Next, T.Legal, Inv, H.Logged;
      NextKeeps(View(), step);
      NextLogged(View(), step);
    }

    // ---------- timeouts and restart ----------

    method LapseHandoffs(rows: seq<RunId>, now: int) returns (effects: seq<RunId>)
      modifies this
      ensures T.Swept(View(), effects) == T.LapseHandoffs(old(View()), rows, now)
    {
      hide Rows.RejectRows;
      effects := [];
      var i := 0;
      while i < |rows|
        invariant 0 <= i <= |rows|
        invariant T.Swept(View(), effects) == T.LapseHandoffs(old(View()), rows[..i], now)
      {
        var r := rows[i];
        assert rows[..i+1][..i] == rows[..i];
        if r in handoffs && handoffs[r].state == Proposed && handoffs[r].expires <= now {
          var rejected := RejectHandoff(r, Lapsed, Failed, now);
          if rejected {
            effects := effects + [r];
          }
        }
        i := i + 1;
      }
      assert rows[..i] == rows;
    }

    method FailOverdue(rows: seq<RunId>, now: int) returns (effects: seq<RunId>)
      modifies this
      ensures View() == T.FailOverdue(old(View()), rows, now) && effects == rows
    {
      hide Rows.FinishRows;
      effects := [];
      var i := 0;
      while i < |rows|
        invariant 0 <= i <= |rows| && effects == rows[..i]
        invariant View() == T.FailOverdue(old(View()), rows[..i], now)
      {
        FinishRun(rows[i], Failed, now, None, DeadlineNote(rows[i]), RunFailed(rows[i]));
        effects := effects + [rows[i]];
        assert rows[..i+1][..i] == rows[..i];
        i := i + 1;
      }
      assert rows[..i] == rows;
    }

    method ExpireEach(rows: seq<ApprovalId>, now: int) returns (effects: seq<RunId>)
      modifies this
      ensures T.Swept(View(), effects) == T.ExpireEach(old(View()), rows, now)
    {
      hide Rows.ExpireRows;
      effects := [];
      var i := 0;
      while i < |rows|
        invariant 0 <= i <= |rows|
        invariant T.Swept(View(), effects) == T.ExpireEach(old(View()), rows[..i], now)
      {
        assert rows[..i+1][..i] == rows[..i];
        if rows[i] in approvals {
          effects := effects + [approvals[rows[i]].run];
          ExpireApproval(rows[i], now);
        }
        i := i + 1;
      }
      assert rows[..i] == rows;
    }

    /** Lapses due handoffs, fails overdue runs and expires due approvals, each query run after the loop before it. */
    method SweepRunTimeouts(now: int) returns (effects: seq<RunId>, ghost step: T.Step)
      requires Valid()
      modifies this
      ensures step.DoSweep? && step.now == now && T.Legal(old(View()), step)
      ensures T.Swept(View(), effects) == T.Sweep(old(View()), step.handoffs, step.overdue, step.due, now)
      ensures Valid()
    {
      hide Inv, H.Logged, T.LapseHandoffs, T.FailOverdue, T.ExpireEach, Enumerates, Overdue, DueApprovals;
      ghost var before := View();
      var hs := Select(handoffs.Keys);
      var first := LapseHandoffs(hs, now);
      var rs := Select(Overdue(Tables(), now));
      var second := FailOverdue(rs, now);
      var xs := Select(DueApprovals(Tables(), now));
      step := T.DoSweep(hs, rs, xs, now);
      NextKeeps(before, step);
      NextLogged(before, step);
      var third := ExpireEach(xs, now);
      effects := first + second + third;
    }

    method InterruptEach(rows: seq<RunId>, now: int)
      modifies this`runs, this`messages
      ensures View() == T.InterruptEach(old(View()), rows, now)
    {
      hide Rows.SetStatus;
      var i := 0;
      while i < |rows|
        invariant 0 <= i <= |rows|
        invariant View() == T.InterruptEach(old(View()), rows[..i], now)
      {
        SetStatus(rows[i], Interrupted);
        messages := messages + {RestartNote(rows[i], now)};
        assert rows[..i+1][..i] == rows[..i];
        i := i + 1;
      }
      assert rows[..i] == rows;
    }

    method InterruptActive(now: int) returns (ghost step: T.Step)
      requires Valid()
      modifies this
      ensures step.DoRestart? && step.now == now && T.Legal(old(View()), step)
      ensures View() == T.Next(old(View()), step)
      ensures Valid()
    {
      hide Inv, H.Logged, Enumerates, ActiveRuns, T.InterruptEach;
      var active := Select(ActiveRuns(Tables()));
      step := T.DoRestart(active, now);
      Keeps(step);
      InterruptEach(active, now);
      FailLoads();
      if active != [] {
        events := events + [DaemonRestarted(active)];
      }
    }
  }
}
