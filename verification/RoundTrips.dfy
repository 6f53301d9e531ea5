/** Requests and decisions make the whole trip: a request of a working run is put to the owner, what the owner decides is
    written back to it, and a run that is canceled, stopped, refused or out of budget loses its session. */
module RoundTrips {
  import opened Types
  import opened Rows
  import opened Transactions
  import opened Invariants
  import opened Waiting
  import opened ProviderRequests
  import opened Traces
  import opened Outcomes
  import opened Decisions
  import Authority

  // ---------- a request is put to the owner ----------

  /** A run of its own, in a session with nothing in its slot, that may still act. */
  predicate MayAsk(w: World, r: RunId, kind: AskKind) {
    && Free(w.h, r) && !Muted(w, r) && Working(w.s.t, r)
    && (kind == ApprovalAsk || w.s.t.runs[r].provider == Claude ==> BumpAction(w.s, r, TaskOf(w.s.t.runs, r)).yes)
  }

  /** The request takes the slot and nothing is answered yet; the run waits; an approval is open for it for five minutes; and
      it is counted, but for a question on Codex. */
  lemma RequestIsPut(w: World, r: RunId, kind: AskKind, a: ApprovalId, x: ActionId, prompt: Digest, now: int)
    requires MayAsk(w, r, kind)
    ensures var v, q := Ask(w, r, kind, a, x, prompt, now), |w.h.asked|;
      && HoldsRequest(v.h, r) && v.h.sessions[r].slot == Some(q) && v.h.sent == w.h.sent && v.h.outbox == w.h.outbox
      && v.h.issued == w.h.issued
      && v.h.asked == w.h.asked + [Asked(r, kind, if kind == ApprovalAsk then Some(a) else None)]
      && r in v.s.t.runs && v.s.t.runs[r].status == (if kind == ApprovalAsk then WaitingApproval else WaitingInput)
      && v.s.t.runs[r].provider == w.s.t.runs[r].provider && v.s.commands == w.s.commands
      && v.s.t.runs[r].spent == w.s.t.runs[r].spent + (if kind == ApprovalAsk || w.s.t.runs[r].provider == Claude then 1 else 0)
      && (kind == ApprovalAsk ==>
            a in v.s.t.gates.approvals && v.s.t.gates.approvals[a].run == r
            && forall n: int :: Authority.Actionable(v.s.t, a, n) <==> n < now + APPROVAL_TTL_MS)
  {
    var k := TaskOf(w.s.t.runs, r);
    var s := if Counts(w.s.t.runs, r, kind) then BumpAction(w.s, r, k).s else w.s;
    CountedRow(w.s, r, k);
    hide BumpAction, CountAction;
    AskedIsActionable(s, r, TaskOf(s.t.runs, r), a, x, now);
  }

  lemma CountedRow(s: State, r: RunId, task: TaskId)
    requires r in s.t.runs
    ensures var c := BumpAction(s, r, task);
      && c.s.commands == s.commands && c.s.t.stopped == s.t.stopped && r in c.s.t.runs
      && c.s.t.runs[r] == if c.yes then s.t.runs[r].(spent := s.t.runs[r].spent + 1) else s.t.runs[r]
  {
  }

  /** Out of budget: the run fails and its session is dropped, and only Claude is told. */
  lemma ExhaustedIsFailed(w: World, r: RunId, kind: AskKind, a: ApprovalId, x: ActionId, prompt: Digest, now: int)
    requires Inv(w.s.t) && Free(w.h, r) && !Muted(w, r) && Working(w.s.t, r) && Counts(w.s.t.runs, r, kind)
    requires !BumpAction(w.s, r, TaskOf(w.s.t.runs, r)).yes
    ensures var v := Ask(w, r, kind, a, x, prompt, now);
      && r !in v.h.sessions && r in v.s.t.runs && v.s.t.runs[r].status == Failed
      && v.h.sent == if OnClaude(w.s.t.runs, r) then w.h.sent + [Sent(|w.h.asked|, Unavailable)] else w.h.sent
  {
    hide Inv, Fail;
    FailureRefutes(w.s, r, prompt, now);
  }

  /** A session that loads history, or a handoff's recipient, is told that nobody is there, and the store hears nothing. */
  lemma MutedIsTurnedAway(w: World, r: RunId, kind: AskKind, a: ApprovalId, x: ActionId, prompt: Digest, now: int)
    requires r in w.h.sessions && (w.h.sessions[r].loading || (r in w.s.t.flow.handoffs && OnClaude(w.s.t.runs, r)))
    ensures var v := Ask(w, r, kind, a, x, prompt, now);
      v.s == w.s && v.h.sessions == w.h.sessions && v.h.sent == w.h.sent + [Sent(|w.h.asked|, Unavailable)]
  {
  }

  // ---------- a decision is written back ----------

  /** The decision on an approval, once applied, is what the request in the slot is told: accept to an allowed one, decline to
      a denied one, whose session is dropped. */
  lemma DecisionIsCarried(w: World, input: Input, a: ApprovalId, allow: bool)
    requires Authority.Rules(w.s, DoApply(input), a, allow)
    requires var r := w.s.t.gates.approvals[a].run; Driven(w.s.t.runs, r) && HoldsKind(w.h, r, ApprovalAsk)
    ensures var r := w.s.t.gates.approvals[a].run;
      var v := Act(Act(w, Transact(DoApply(input))), ApplyEffect(w.h.issued));
      && v.h.sent == w.h.sent + [Sent(w.h.sessions[r].slot.value, if allow then Accept else Decline)]
      && r in v.s.t.runs && v.s.t.runs[r].status == (if allow then Running else Failed)
      && (if allow then r in v.h.sessions && v.h.sessions[r].slot.None? else r !in v.h.sessions)
  {
    var o := Resolve(w.s, input, a, allow);
    DecisionIsObeyed(w.s, input, a, allow);
    DecisionIssues(w.s, input, a, allow);
    hide Resolve;
    assert Dispatch(w.s, input) == o;
  }

  lemma DecisionIssues(s: State, input: Input, a: ApprovalId, allow: bool)
    requires Authority.Actionable(s.t, a, input.now)
    ensures var o, r := Resolve(s, input, a, allow), s.t.gates.approvals[a].run;
      && o.receipt.effects == [if allow then DispatchTool else RejectTool] && o.receipt.run == Some(r)
      && r in o.s.t.runs && o.s.t.runs[r].provider == s.t.runs[r].provider
  {
  }

  /** The answer to a question, once applied, is what the request in the slot is told. */
  lemma AnswerIsCarried(w: World, input: Input, r: RunId)
    requires Commits(w.s, input) && input.command.AnswerInput? && input.command.run == r
    requires Driven(w.s.t.runs, r) && w.s.t.runs[r].status == WaitingInput && HoldsKind(w.h, r, InputAsk)
    ensures var v := Act(Act(w, Transact(DoApply(input))), ApplyEffect(w.h.issued));
      && v.h.sent == w.h.sent + [Sent(w.h.sessions[r].slot.value, Answered)]
      && r in v.s.t.runs && v.s.t.runs[r].status == Running && r in v.h.sessions && v.h.sessions[r].slot.None?
  {
  }

  /** The whole trip, from any state of the protocol: a session is started, asks for an approval, the owner decides within five
      minutes, the decision is applied, and the request hears it. */
  lemma AskedAndDecided(w: World, r: RunId, a: ApprovalId, x: ActionId, prompt: Digest, now: int, input: Input, allow: bool)
    requires Allows(w, StartSession(r)) && r !in w.s.t.flow.handoffs
    requires BumpAction(w.s, r, TaskOf(w.s.t.runs, r)).yes && Commits(w.s, input) && input.now < now + APPROVAL_TTL_MS
    requires input.command == ResolveApproval(a, allow)
    ensures var w2 := Act(Act(w, StartSession(r)), MakeRequest(r, ApprovalAsk, a, x, prompt, now));
      var v := Act(Act(w2, Transact(DoApply(input))), ApplyEffect(w2.h.issued));
      v.h.sent == w.h.sent + [Sent(|w.h.asked|, if allow then Accept else Decline)]
      && v.h.asked == w.h.asked + [Asked(r, ApprovalAsk, Some(a))]
  {
    hide BumpAction, Ask, Commits;
    var w1 := Act(w, StartSession(r));
    var w2 := Act(w1, MakeRequest(r, ApprovalAsk, a, x, prompt, now));
    RequestIsPut(w1, r, ApprovalAsk, a, x, prompt, now);
    StillCommits(w.s, w2.s, input);
    assert HoldsKind(w2.h, r, ApprovalAsk) && Driven(w2.s.t.runs, r);
    DecisionIsCarried(w2, input, a, allow);
    hide Next, Dispatch, Deliver;
    AskedStays(w2, input);
  }

  lemma StillCommits(s: State, u: State, input: Input)
    requires Commits(s, input) && u.commands == s.commands
    ensures Commits(u, input)
  {
  }

  lemma AskedStays(w: World, input: Input)
    ensures Act(Act(w, Transact(DoApply(input))), ApplyEffect(w.h.issued)).h.asked == w.h.asked
  {
    hide Next, Dispatch, Commits;
  }

  /** A question makes the same trip. */
  lemma AskedAndAnswered(w: World, r: RunId, a: ApprovalId, x: ActionId, prompt: Digest, now: int, input: Input)
    requires Allows(w, StartSession(r)) && r !in w.s.t.flow.handoffs && Commits(w.s, input)
    requires OnClaude(w.s.t.runs, r) ==> BumpAction(w.s, r, TaskOf(w.s.t.runs, r)).yes
    requires input.command.AnswerInput? && input.command.run == r
    ensures var w2 := Act(Act(w, StartSession(r)), MakeRequest(r, InputAsk, a, x, prompt, now));
      var v := Act(Act(w2, Transact(DoApply(input))), ApplyEffect(w2.h.issued));
      v.h.sent == w.h.sent + [Sent(|w.h.asked|, Answered)] && v.h.asked == w.h.asked + [Asked(r, InputAsk, None)]
  {
    hide BumpAction, Ask, Commits;
    var w1 := Act(w, StartSession(r));
    var w2 := Act(w1, MakeRequest(r, InputAsk, a, x, prompt, now));
    RequestIsPut(w1, r, InputAsk, a, x, prompt, now);
    StillCommits(w.s, w2.s, input);
    assert HoldsKind(w2.h, r, InputAsk) && Driven(w2.s.t.runs, r);
    AnswerIsCarried(w2, input, r);
    hide Next, Dispatch, Deliver;
    AskedStays(w2, input);
  }

  // ---------- sessions end ----------

  /** A committed cancel, once applied, leaves the run without a session; so does a decision that came too late; and a
      committed stop-all leaves none at all. */
  lemma InterruptionsClose(w: World, input: Input, r: RunId)
    requires Commits(w.s, input)
    requires input.command.StopAll? || Cancels(w.s, input, r) || ComesLate(w.s, input, r)
    ensures var v := Act(Act(w, Transact(DoApply(input))), ApplyEffect(w.h.issued));
      r !in v.h.sessions && (input.command.StopAll? ==> v.h.sessions == map[])
  {
    hide Next;
    match input.command {
      case StopAll => hide CancelEach, FailLoads, DropAllApprovals;
      case CancelRun(_) => hide CancelRows, RejectRows, DropApprovals;
      case ResolveApproval(a, allow) =>
        LateDecisionExpires(w.s, input, a, allow);
        LateInterrupts(w.s, input, a, allow);
        hide Resolve;
      case _ =>
    }
  }

  predicate Cancels(s: State, input: Input, r: RunId) {
    input.command == CancelRun(r) && r in s.t.runs && !Finished(s.t.runs[r].status)
  }

  predicate ComesLate(s: State, input: Input, r: RunId) {
    input.command.ResolveApproval? &&
    var a := input.command.approval;
    a in s.t.gates.approvals && s.t.gates.approvals[a].run == r && s.t.gates.approvals[a].state == Pending
    && s.t.gates.approvals[a].expires <= input.now && r in s.t.runs && s.t.runs[r].status == WaitingApproval && !s.t.stopped
  }

  lemma LateInterrupts(s: State, input: Input, a: ApprovalId, allow: bool)
    requires a in s.t.gates.approvals && s.t.gates.approvals[a].state == Pending
    requires s.t.gates.approvals[a].run in s.t.runs && s.t.runs[s.t.gates.approvals[a].run].status == WaitingApproval
    requires !s.t.stopped && s.t.gates.approvals[a].expires <= input.now
    ensures Resolve(s, input, a, allow).receipt.effects == [InterruptProvider]
  {
  }

  // ---------- sessions begin ----------

  /** A granted submission or proposal puts the launch of its run on its way, and the run may be started at once, if it has a
      provider. */
  lemma BegunMayStart(w: World, input: Input)
    requires Commits(w.s, input) && FreshIds(w.s.t, input.ids) && OwedRunsExist(w.s.t.runs, w.h)
    requires Authority.Begins(w.s, DoApply(input), input.ids.run)
    ensures var v, r := Act(w, Transact(DoApply(input))), input.ids.run;
      && v.h.outbox == w.h.outbox[w.h.issued := Delivery(Some(r), DoLaunch)]
      && r in v.s.t.runs && (Allows(v, StartSession(r)) <==> v.s.t.runs[r].provider != Fake)
  {
    hide Owes;
    BegunRun(w.s, input);
    hide Dispatch, SubmitDenial, ProposeDenial;
  }

  lemma BegunRun(s: State, input: Input)
    requires Commits(s, input) && Authority.Begins(s, DoApply(input), input.ids.run)
    ensures var o := Dispatch(s, input);
      Working(o.s.t, input.ids.run) && o.receipt.run == Some(input.ids.run) && o.receipt.effects == [DoLaunch]
  {
    match input.command {
      case SubmitTask(bot, unsupported, plan) =>
        SubmissionBegins(s, input, bot, unsupported, plan);
        hide Submit, SubmitDenial;
      case ProposeHandoff(source) =>
        ProposeNeeds(s.t, input, source);
        hide ProposeDenial;
      case _ =>
    }
  }

  /** A granted load puts its start on its way, and the history may be loaded at once, in a session that answers nobody. */
  lemma LoadMayStart(w: World, input: Input, r: RunId)
    requires Commits(w.s, input) && input.command == LoadSession(r) && LoadDenial(w.s.t, r).None?
    ensures var v := Act(w, Transact(DoApply(input)));
      v.h.outbox == w.h.outbox[w.h.issued := Delivery(Some(r), DoLoad)] && Allows(v, LoadHistory(r))
      && r in Act(v, LoadHistory(r)).h.sessions && Act(v, LoadHistory(r)).h.sessions[r] == Session(true, None)
  {
    hide Occupants, OccupantsOf;
  }
}
