/** The approval opened for a request is its own: on its own run, and opened for no other request. And a run that asks
    is never the recipient of a handoff. */
module Opening {
  import opened Types
  import opened Rows
  import opened Transactions
  import opened Invariants
  import opened Insertions
  import opened Reachable
  import opened Lifecycle
  import opened Traces
  import opened Waiting
  import opened ProviderRequests
  import Authority

  /** Approvals are never removed and stay with their run. */
  predicate ApprovalsKept(approvals: Approvals, later: Approvals) {
    forall a | a in approvals :: a in later && later[a].run == approvals[a].run
  }

  predicate OpenedApart(asked: seq<Asked>) {
    forall i, j | 0 <= i < j < |asked| && asked[i].approval.Some? :: asked[i].approval != asked[j].approval
  }

  predicate OpenedOwn(approvals: Approvals, asked: seq<Asked>) {
    forall i | 0 <= i < |asked| && asked[i].approval.Some? ::
      asked[i].approval.value in approvals && approvals[asked[i].approval.value].run == asked[i].run
  }

  predicate Opened(approvals: Approvals, asked: seq<Asked>) {
    OpenedOwn(approvals, asked) && OpenedApart(asked)
  }

  /** Nothing was asked, or one request more, with an approval that is new and its own if it has one. */
  predicate AsksOnce(approvals: Approvals, asked: seq<Asked>, later: Approvals, more: seq<Asked>) {
    more == asked ||
    (|more| == |asked| + 1 && more[..|asked|] == asked &&
     var o := more[|asked|].approval;
     o.Some? ==> o.value !in approvals && o.value in later && later[o.value].run == more[|asked|].run)
  }

  lemma OpenedLater(approvals: Approvals, asked: seq<Asked>, later: Approvals, more: seq<Asked>)
    requires Opened(approvals, asked) && ApprovalsKept(approvals, later) && AsksOnce(approvals, asked, later, more)
    ensures Opened(later, more)
  {
    assert forall i | 0 <= i < |asked| :: more[..|asked|][i] == more[i] == asked[i];
  }

  lemma NextKeepsApprovals(s: State, step: Step)
    requires Inv(s.t) && Legal(s, step)
    ensures ApprovalsKept(s.t.gates.approvals, Next(s, step).t.gates.approvals)
  {
    hide Inv, Legal, Next, RunsEvolve, OutcomesStand, FlowEvolves, DraftsEvolve, LatchEvolves;
    NextOnward(s, step);
  }

  lemma KeptOn(approvals: Approvals, later: Approvals, last: Approvals)
    requires ApprovalsKept(approvals, later) && ApprovalsKept(later, last)
    ensures ApprovalsKept(approvals, last)
  {
  }

  /** Every recipient of a handoff runs on Claude, whose driver refuses its requests. */
  lemma RecipientsOnClaude(t: Tables, r: RunId)
    requires Inv(t)
    ensures r in t.flow.handoffs ==> OnClaude(t.runs, r)
  {
    hide RunsLinked, ApprovalsLinked, ActionsLinked, HandoffsLinked, Owned, Drafted, Authored, Live;
    if r in t.flow.handoffs {
      RecipientRow(t.runs, t.flow.handoffs, r);
    }
  }

  // ---------- one request ----------

  /** The store when the slot is taken: a transaction or none after the one the world holds, with the same gates. */
  predicate Counted(w: World, s: State, r: RunId) {
    Inv(s.t) && s.t.gates == w.s.t.gates && s.t.flow == w.s.t.flow && r in s.t.runs
  }

  lemma BumpCounted(w: World, r: RunId)
    requires Inv(w.s.t) && r in w.s.t.runs
    ensures Counted(w, BumpAction(w.s, r, TaskOf(w.s.t.runs, r)).s, r)
  {
    hide Inv;
    NextKeeps(w.s, DoBump(r, TaskOf(w.s.t.runs, r)));
    assert Next(w.s, DoBump(r, TaskOf(w.s.t.runs, r))) == BumpAction(w.s, r, TaskOf(w.s.t.runs, r)).s;
  }

  lemma SeatOpens(w: World, s: State, r: RunId, kind: AskKind, a: ApprovalId, x: ActionId, prompt: Digest, now: int)
    requires Counted(w, s, r) && r in w.h.sessions
    requires kind == ApprovalAsk ==> r !in s.t.flow.handoffs && a !in s.t.gates.approvals && x !in s.t.gates.actions
    ensures var v := TakeSeat(s, w.h, r, kind, a, x, prompt, now);
      ApprovalsKept(w.s.t.gates.approvals, v.s.t.gates.approvals)
      && AsksOnce(w.s.t.gates.approvals, w.h.asked, v.s.t.gates.approvals, v.h.asked)
  {
    hide Inv;
    var k := TaskOf(s.t.runs, r);
    if kind == InputAsk {
      NextKeepsApprovals(s, DoWaitInput(r, prompt));
      assert Next(s, DoWaitInput(r, prompt)) == WaitInput(s, r, prompt);
    } else {
      NextKeepsApprovals(s, DoWaitApproval(r, k, a, x, now));
      assert Next(s, DoWaitApproval(r, k, a, x, now)) == WaitApproval(s, r, k, a, x, now).s;
    }
  }

  lemma FailKeepsApprovals(s: State, r: RunId, error: Digest, now: int)
    requires Inv(s.t)
    ensures ApprovalsKept(s.t.gates.approvals, Fail(s, r, error, now).t.gates.approvals)
  {
    hide Inv;
    NextKeepsApprovals(s, DoFail(r, error, now));
    assert Next(s, DoFail(r, error, now)) == Fail(s, r, error, now);
  }

  lemma AskOpens(w: World, r: RunId, kind: AskKind, a: ApprovalId, x: ActionId, prompt: Digest, now: int)
    requires Inv(w.s.t) && OwedRunsExist(w.s.t.runs, w.h) && Allows(w, MakeRequest(r, kind, a, x, prompt, now))
    ensures var v := Ask(w, r, kind, a, x, prompt, now);
      ApprovalsKept(w.s.t.gates.approvals, v.s.t.gates.approvals)
      && AsksOnce(w.s.t.gates.approvals, w.h.asked, v.s.t.gates.approvals, v.h.asked)
  {
    hide Inv, BumpAction, Fail, TakeSeat, Owes;
    if r in w.h.sessions {
      RecipientsOnClaude(w.s.t, r);
      BumpCounted(w, r);
      var counted := BumpAction(w.s, r, TaskOf(w.s.t.runs, r));
      FailKeepsApprovals(counted.s, r, prompt, now);
      if !Muted(w, r) && w.h.sessions[r].slot.None? {
        if !Counts(w.s.t.runs, r, kind) {
          SeatOpens(w, w.s, r, kind, a, x, prompt, now);
        } else if counted.yes {
          SeatOpens(w, counted.s, r, kind, a, x, prompt, now);
        }
      }
    }
  }

  // ---------- every move ----------

  lemma ActOpened(w: World, m: Move)
    requires Inv(w.s.t) && OwedRunsExist(w.s.t.runs, w.h) && Allows(w, m) && Opened(w.s.t.gates.approvals, w.h.asked)
    ensures var v := Act(w, m); Opened(v.s.t.gates.approvals, v.h.asked)
  {
    hide Inv, Ask, Deliver, Next, Legal, Commits, Dispatch, Opened, OwedRunsExist;
    var v := Act(w, m);
    match m {
      case Transact(step) => NextKeepsApprovals(w.s, step);
      case MakeRequest(r, kind, a, x, prompt, now) => AskOpens(w, r, kind, a, x, prompt, now);
      case ApplyEffect(k) =>
        if k in w.h.outbox {
          DeliverAsked(w.s.t.runs, w.h, k);
        }
      case StartSession(_) =>
      case LoadHistory(_) =>
      case CloseSession(_) =>
    }
    OpenedLater(w.s.t.gates.approvals, w.h.asked, v.s.t.gates.approvals, v.h.asked);
  }

  lemma DeliverAsked(runs: Runs, h: Hub, k: nat)
    requires k in h.outbox
    ensures Deliver(runs, h, k).asked == h.asked
  {
  }

  // ---------- recipients ----------

  /** A run that holds a slot is not the recipient of a handoff. */
  ghost predicate AskersWork(w: World) {
    forall r | HoldsRequest(w.h, r) :: r !in w.s.t.flow.handoffs
  }

  /** A handoff comes with a recipient run that did not exist before. */
  lemma NewRecipients(s: State, step: Step)
    requires Inv(s.t) && Legal(s, step)
    ensures forall r | r in Next(s, step).t.flow.handoffs :: r in s.t.flow.handoffs || r !in s.t.runs
  {
    hide Inv, Legal, Next, Authority.NoneRuled, Authority.NoneAccepted, Authority.NoneSucceeded, Authority.Actionable, MayDecide,
      Accepts, SubmitDenial, ProposeDenial, Working;
    Authority.NextShape(s, step);
  }
}
