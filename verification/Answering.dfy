/** Every move of the provider protocol keeps it sound: an owner decision reaches the request it was made for,
    and no other. */
module Answering {
  import opened Types
  import opened Rows
  import opened Transactions
  import opened Invariants
  import opened Reachable
  import opened Sweeping
  import opened Lifecycle
  import opened Waiting
  import opened ProviderRequests

  /** What a step of the store may do to one run as far as its requests go. */
  ghost predicate CalmFor(t: Tables, u: Tables, r: RunId) {
    && (r in u.runs && Awaits(u.runs[r].status) ==> r in t.runs && t.runs[r].status == u.runs[r].status)
    && (r in t.runs ==> r in u.runs && u.runs[r].provider == t.runs[r].provider
                        && (Active(u.runs[r].status) ==> Active(t.runs[r].status)))
    && (forall a: ApprovalId | PendingFor(u.gates.approvals, a, r) :: PendingFor(t.gates.approvals, a, r))
  }

  predicate SettledStays(approvals: Approvals, later: Approvals) {
    forall a | a in approvals && approvals[a].state != Pending :: a in later && later[a] == approvals[a]
  }

  lemma CalmForAll(t: Tables, u: Tables, r: RunId)
    requires Calm(t, u)
    ensures CalmFor(t, u, r) && SettledStays(t.gates.approvals, u.gates.approvals)
  {
  }

  /** The same deliveries are on their way for the run. */
  ghost predicate SameOwed(h: Hub, g: Hub, r: RunId) {
    forall k: nat :: (Owes(h, r, k) <==> Owes(g, r, k)) && (Owes(h, r, k) ==> g.outbox[k] == h.outbox[k])
  }

  lemma UnaskedStays(t: Tables, u: Tables, h: Hub, g: Hub, r: RunId)
    requires Unasked(t.runs, t.gates.approvals, h, r) && CalmFor(t, u, r) && SameOwed(h, g, r)
    ensures Unasked(u.runs, u.gates.approvals, g, r)
  {
    hide Owes, Awaits, PendingFor;
  }

  lemma SeatStays(t: Tables, u: Tables, h: Hub, g: Hub, r: RunId, q: Asked)
    requires Seats(t.runs, t.gates.approvals, h, r, q) && CalmFor(t, u, r) && SameOwed(h, g, r)
    requires SettledStays(t.gates.approvals, u.gates.approvals)
    ensures Seats(u.runs, u.gates.approvals, g, r, q)
  {
    hide PendingFor, Awaits, Matches;
    forall k: nat | Owes(g, r, k) ensures r in u.runs && !Awaits(u.runs[r].status) && Matches(u.gates.approvals, q, g.outbox[k].effect) {
      assert Owes(h, r, k);
      MatchStays(t.gates.approvals, u.gates.approvals, q, h.outbox[k].effect);
    }
    if r in u.runs && (u.runs[r].status == WaitingApproval || u.runs[r].status == WaitingInput) {
      SeatStatus(t, u, r);
    }
  }

  lemma SeatStatus(t: Tables, u: Tables, r: RunId)
    requires CalmFor(t, u, r) && r in u.runs && (u.runs[r].status == WaitingApproval || u.runs[r].status == WaitingInput)
    ensures r in t.runs && t.runs[r].status == u.runs[r].status
  {
  }

  lemma MatchStays(approvals: Approvals, later: Approvals, q: Asked, effect: Effect)
    requires Matches(approvals, q, effect) && SettledStays(approvals, later)
    ensures Matches(later, q, effect)
  {
  }

  lemma SessionStays(t: Tables, u: Tables, h: Hub, g: Hub, r: RunId)
    requires r in h.sessions && r in g.sessions && g.sessions[r] == h.sessions[r] && h.launched <= g.launched
    requires |h.asked| <= |g.asked| && g.asked[..|h.asked|] == h.asked
    requires SessionHolds(t.runs, t.gates.approvals, h, r) && CalmFor(t, u, r) && SameOwed(h, g, r)
    requires SettledStays(t.gates.approvals, u.gates.approvals)
    ensures SessionHolds(u.runs, u.gates.approvals, g, r)
  {
    hide Unasked, Seats, CalmFor, SameOwed, SettledStays;
    if !h.sessions[r].loading {
      if h.sessions[r].slot.None? {
        UnaskedStays(t, u, h, g, r);
      } else {
        var q := h.sessions[r].slot.value;
        assert g.asked[q] == g.asked[..|h.asked|][q];
        SeatStays(t, u, h, g, r, h.asked[q]);
      }
    }
  }

  lemma BackedStays(approvals: Approvals, later: Approvals, asked: seq<Asked>, more: seq<Asked>, sent: seq<Sent>)
    requires Backed(approvals, asked, sent) && SettledStays(approvals, later)
    requires |asked| <= |more| && more[..|asked|] == asked
    requires forall i | 0 <= i < |sent| :: sent[i].request < |asked|
    ensures Backed(later, more, sent)
  {
    forall i | 0 <= i < |sent| && sent[i].request < |more|
      ensures (sent[i].word == Accept ==> OpenedAnd(later, more[sent[i].request], Allowed))
        && (sent[i].word == Decline ==> OpenedAnd(later, more[sent[i].request], Denied))
    {
      assert more[sent[i].request] == more[..|asked|][sent[i].request];
    }
  }

  // ---------- all runs but one ----------

  /** Nothing about the run changed hands between the two worlds. */
  ghost predicate Apart(w: World, v: World, r: RunId) {
    CalmFor(w.s.t, v.s.t, r) && SameOwed(w.h, v.h, r)
    && (r in v.h.sessions ==> r in w.h.sessions && v.h.sessions[r] == w.h.sessions[r])
  }

  /** A move concerns at most one run; every other run is apart from it. */
  ghost predicate Concerns(w: World, v: World, o: Option<RunId>) {
    && (forall r: RunId | o != Some(r) :: Apart(w, v, r))
    && SettledStays(w.s.t.gates.approvals, v.s.t.gates.approvals) && w.h.launched <= v.h.launched
    && |w.h.asked| <= |v.h.asked| && v.h.asked[..|w.h.asked|] == w.h.asked
  }

  lemma ApartSession(w: World, v: World, o: Option<RunId>, r: RunId)
    requires Sound(w) && Concerns(w, v, o) && o != Some(r) && r in v.h.sessions
    ensures SessionHolds(v.s.t.runs, v.s.t.gates.approvals, v.h, r)
  {
    hide FreshUnasked, Once, Backed, OwedRunsExist, CalmFor, SameOwed, SettledStays, SessionHolds;
    assert Apart(w, v, r);
    SessionStays(w.s.t, v.s.t, w.h, v.h, r);
  }

  /** A run that had no session yet, whether or not it existed before. */
  lemma ApartFresh(w: World, v: World, o: Option<RunId>, r: RunId)
    requires Inv(w.s.t) && Sound(w) && Concerns(w, v, o) && o != Some(r)
    requires Driven(v.s.t.runs, r) && Active(v.s.t.runs[r].status) && r !in v.h.launched
    ensures Unasked(v.s.t.runs, v.s.t.gates.approvals, v.h, r)
  {
    hide Links, Live, SessionsHold, Once, Backed, SameOwed;
    var t, u := w.s.t, v.s.t;
    assert Apart(w, v, r);
    if r in t.runs {
      assert Driven(t.runs, r) && Active(t.runs[r].status);
    } else {
      RowsLinked(t);
      assert forall k: nat :: !Owes(w.h, r, k);
      assert forall a: ApprovalId :: !PendingFor(t.gates.approvals, a, r);
    }
    UnaskedStays(t, u, w.h, v.h, r);
  }

  /** It remains to look at the run a move concerns. */
  lemma ConcernedRun(w: World, v: World, o: Option<RunId>)
    requires Inv(w.s.t) && Sound(w) && Concerns(w, v, o)
    requires o.Some? && o.value in v.h.sessions ==>
      SessionHolds(v.s.t.runs, v.s.t.gates.approvals, v.h, o.value)
    requires o.Some? && Driven(v.s.t.runs, o.value) && Active(v.s.t.runs[o.value].status) && o.value !in v.h.launched ==>
      Unasked(v.s.t.runs, v.s.t.gates.approvals, v.h, o.value)
    ensures SessionsHold(v.s.t.runs, v.s.t.gates.approvals, v.h) && FreshUnasked(v.s.t.runs, v.s.t.gates.approvals, v.h)
  {
    hide Inv, Sound, Concerns, SessionHolds, Unasked;
    forall r | r in v.h.sessions ensures SessionHolds(v.s.t.runs, v.s.t.gates.approvals, v.h, r) {
      if o != Some(r) {
        ApartSession(w, v, o, r);
      }
    }
    forall r | Driven(v.s.t.runs, r) && Active(v.s.t.runs[r].status) && r !in v.h.launched
      ensures Unasked(v.s.t.runs, v.s.t.gates.approvals, v.h, r)
    {
      if o != Some(r) {
        ApartFresh(w, v, o, r);
      }
    }
  }

  // ---------- transactions ----------

  lemma CalmConcerns(w: World, v: World)
    requires Calm(w.s.t, v.s.t) && v.h == w.h
    ensures Concerns(w, v, None)
  {
    hide Calm, CalmFor, SettledStays;
    forall r: RunId ensures Apart(w, v, r) {
      CalmForAll(w.s.t, v.s.t, r);
    }
    CalmForAll(w.s.t, v.s.t, 0);
  }

  /** A reply effect is issued for the request that holds the slot: the run waited, so nothing else was open. */
  lemma IssuedSeat(t: Tables, u: Tables, h: Hub, receipt: Receipt, r: RunId)
    requires Calm(t, u) && receipt.effects != [] && receipt.run == Some(r) && Replies(receipt.effects[0])
    requires Warranted(t, u, receipt) && r in h.sessions && SessionHolds(t.runs, t.gates.approvals, h, r)
    requires forall k :: k in h.outbox ==> k < h.issued
    ensures SessionHolds(u.runs, u.gates.approvals, Issue(h, receipt), r)
  {
    var g := Issue(h, receipt);
    if !h.sessions[r].loading {
      var q := h.sessions[r].slot.value;
      assert forall k: nat :: !Owes(h, r, k);
      assert forall k: nat :: Owes(g, r, k) <==> k == h.issued;
      CalmForAll(t, u, r);
      if receipt.effects[0] != ResumeInput {
        assert PendingFor(t.gates.approvals, receipt.approval.value, r);
      }
    }
  }

  lemma IssuedOther(h: Hub, receipt: Receipt, r: RunId)
    requires receipt.effects == [] || receipt.run != Some(r) || !Replies(receipt.effects[0])
    requires forall k :: k in h.outbox ==> k < h.issued
    ensures SameOwed(h, Issue(h, receipt), r)
  {
  }

  lemma WarrantedWaited(t: Tables, u: Tables, h: Hub, receipt: Receipt, r: RunId)
    requires receipt.effects != [] && receipt.run == Some(r) && Warranted(t, u, receipt) && Calm(t, u)
    requires FreshUnasked(t.runs, t.gates.approvals, h) && Driven(u.runs, r)
    ensures r in h.launched
  {
    assert Awaits(t.runs[r].status);
  }

  function ConcernOf(receipt: Receipt): Option<RunId> {
    if receipt.effects != [] && Replies(receipt.effects[0]) then receipt.run else None
  }

  lemma ApplySessions(w: World, input: Input)
    requires Inv(w.s.t) && Sound(w) && Legal(w.s, DoApply(input)) && Commits(w.s, input)
    ensures var v := Commit(w, DoApply(input));
      SessionsHold(v.s.t.runs, v.s.t.gates.approvals, v.h) && FreshUnasked(v.s.t.runs, v.s.t.gates.approvals, v.h)
      && Once(v.h) && OwedRunsExist(v.s.t.runs, v.h)
  {
    hide Inv, Calm, CalmFor, Dispatch, SessionHolds, Unasked, Warranted, SameOwed, SettledStays, Replies;
    var v, receipt := Commit(w, DoApply(input)), Dispatch(w.s, input).receipt;
    var o := ConcernOf(receipt);
    DispatchCalm(w.s, input);
    CalmForAll(w.s.t, v.s.t, 0);
    forall r: RunId | o != Some(r) ensures Apart(w, v, r) {
      CalmForAll(w.s.t, v.s.t, r);
      IssuedOther(w.h, receipt, r);
    }
    if o.Some? {
      if o.value in v.h.sessions {
        IssuedSeat(w.s.t, v.s.t, w.h, receipt, o.value);
      }
      if Driven(v.s.t.runs, o.value) {
        WarrantedWaited(w.s.t, v.s.t, w.h, receipt, o.value);
      }
    }
    ConcernedRun(w, v, o);
    IssuedExist(w, v, receipt);
  }

  lemma IssuedExist(w: World, v: World, receipt: Receipt)
    requires Once(w.h) && OwedRunsExist(w.s.t.runs, w.h) && v.h == Issue(w.h, receipt) && Calm(w.s.t, v.s.t)
    requires receipt.effects != [] && Replies(receipt.effects[0]) ==> Warranted(w.s.t, v.s.t, receipt)
    ensures Once(v.h) && OwedRunsExist(v.s.t.runs, v.h)
  {
    forall r, k: nat | Owes(v.h, r, k) ensures r in v.s.t.runs {
      assert Owes(w.h, r, k) || k == w.h.issued;
    }
  }

  /** The two callbacks that ask touch no run but their own. */
  lemma WaitApprovalApart(s: State, p: RunId, k: TaskId, a: ApprovalId, x: ActionId, now: int, r: RunId)
    requires a !in s.t.gates.approvals && r != p
    ensures var u := WaitApproval(s, p, k, a, x, now).s.t;
      CalmFor(s.t, u, r) && SettledStays(s.t.gates.approvals, u.gates.approvals) && u.runs.Keys == s.t.runs.Keys
  {
  }

  lemma WaitInputApart(s: State, p: RunId, prompt: Digest, r: RunId)
    requires r != p
    ensures var u := WaitInput(s, p, prompt).t;
      CalmFor(s.t, u, r) && SettledStays(s.t.gates.approvals, u.gates.approvals) && u.runs.Keys == s.t.runs.Keys
  {
  }

  lemma ForeignAsk(w: World, step: Step)
    requires Inv(w.s.t) && Sound(w) && Allows(w, Transact(step)) && Asks(step)
    ensures Sound(Commit(w, step))
  {
    hide Inv, CalmFor, SettledStays, SessionHolds, Unasked, SameOwed, WaitApproval, WaitInput, Owes;
    var v, p := Commit(w, step), step.run;
    forall r: RunId | r != p
      ensures Apart(w, v, r) && SettledStays(w.s.t.gates.approvals, v.s.t.gates.approvals)
        && v.s.t.runs.Keys == w.s.t.runs.Keys
    {
      if step.DoWaitApproval? {
        WaitApprovalApart(w.s, p, step.task, step.approval, step.action, step.now, r);
      } else {
        WaitInputApart(w.s, p, step.prompt, r);
      }
      SameStays(w.h, r);
    }
    assert Apart(w, v, p + 1);
    NotDriven(w, step);
    DrivenKept(w, v, p);
    ConcernedRun(w, v, Some(p));
    BackedStays(w.s.t.gates.approvals, v.s.t.gates.approvals, w.h.asked, w.h.asked, w.h.sent);
  }

  lemma DrivenKept(w: World, v: World, p: RunId)
    requires forall r: RunId | r != p :: Apart(w, v, r)
    requires OwedRunsExist(w.s.t.runs, w.h) && !Driven(w.s.t.runs, p) && v.h == w.h && v.s.t.runs.Keys == w.s.t.runs.Keys
    ensures OwedRunsExist(v.s.t.runs, v.h)
  {
    hide SameOwed, Owes;
    forall r | r in v.h.sessions ensures Driven(v.s.t.runs, r) {
      assert Apart(w, v, r);
    }
  }

  lemma NotDriven(w: World, step: Step)
    requires Allows(w, Transact(step)) && Asks(step)
    ensures !Driven(Next(w.s, step).t.runs, step.run)
  {
  }

  lemma SameStays(h: Hub, r: RunId)
    ensures SameOwed(h, h, r)
  {
  }

  lemma RestartedSound(w: World, step: Step)
    requires Inv(w.s.t) && Sound(w) && Allows(w, Transact(step)) && step.DoRestart?
    ensures Sound(Commit(w, step))
  {
    hide Inv, InterruptEach, FailLoads, Unasked, Calm, SettledStays;
    var v := Commit(w, step);
    RestartStops(w.s, step.rows, step.now);
    NextCalm(w.s, step);
    CalmForAll(w.s.t, v.s.t, 0);
    BackedStays(w.s.t.gates.approvals, v.s.t.gates.approvals, w.h.asked, w.h.asked, w.h.sent);
  }

  lemma RestartStops(s: State, rows: seq<RunId>, now: int)
    requires Inv(s.t) && Enumerates(rows, ActiveRuns(s.t))
    ensures forall r :: r in Restart(s, rows, now).t.runs ==> !Active(Restart(s, rows, now).t.runs[r].status)
  {
    hide Inv, InterruptEach;
    InterruptKeeps(s, rows, now);
    var u := InterruptEach(s, rows, now).t;
    forall r | r in u.runs ensures !Active(u.runs[r].status) {
      assert r in rows || r !in ActiveRuns(s.t);
    }
  }

  lemma CalmExist(w: World, v: World)
    requires OwedRunsExist(w.s.t.runs, w.h) && Calm(w.s.t, v.s.t) && v.h == w.h
    ensures OwedRunsExist(v.s.t.runs, v.h)
  {
  }

  lemma TransactSound(w: World, step: Step)
    requires Inv(w.s.t) && Sound(w) && Allows(w, Transact(step))
    ensures Sound(Commit(w, step))
  {
    hide Inv, Next, Legal, Calm, CalmFor, SessionsHold, FreshUnasked, Once, Backed, OwedRunsExist, SettledStays, Dispatch;
    var v := Commit(w, step);
    if Asks(step) {
      ForeignAsk(w, step);
    } else if step.DoRestart? {
      RestartedSound(w, step);
    } else {
      NextCalm(w.s, step);
      CalmForAll(w.s.t, v.s.t, 0);
      SentBefore(w.h);
      if step.DoApply? && Commits(w.s, step.input) {
        ApplySessions(w, step.input);
        BackedStays(w.s.t.gates.approvals, v.s.t.gates.approvals, w.h.asked, w.h.asked, w.h.sent);
      } else {
        CalmConcerns(w, v);
        ConcernedRun(w, v, None);
        CalmExist(w, v);
        BackedStays(w.s.t.gates.approvals, v.s.t.gates.approvals, w.h.asked, w.h.asked, w.h.sent);
      }
    }
  }

  lemma SentBefore(h: Hub)
    requires Once(h)
    ensures forall i | 0 <= i < |h.sent| :: h.sent[i].request < |h.asked|
  {
  }
}
