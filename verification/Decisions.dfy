/** Requests, replies and sessions: the moves of the hub itself, and what holds over every run of the protocol. */
module Decisions {
  import opened Types
  import opened Rows
  import opened Transactions
  import opened Invariants
  import opened Reachable
  import opened Waiting
  import opened ProviderRequests
  import opened Answering
  import opened Opening

  // ---------- a request arrives ----------

  lemma CalmForOn(t: Tables, u: Tables, v: Tables, r: RunId)
    requires CalmFor(t, u, r) && CalmFor(u, v, r)
    ensures CalmFor(t, v, r)
  {
  }

  lemma SettledOn(approvals: Approvals, later: Approvals, last: Approvals)
    requires SettledStays(approvals, later) && SettledStays(later, last)
    ensures SettledStays(approvals, last)
  {
  }

  /** The number a request is given was never replied to. */
  lemma SeatedOnce(h: Hub, r: RunId, kind: AskKind, approval: Option<ApprovalId>)
    requires Once(h) && r in h.sessions
    ensures Once(Seated(h, r, kind, approval))
  {
    var g := Seated(h, r, kind, approval);
    forall q, i | HoldsRequest(g, q) && 0 <= i < |g.sent| ensures g.sent[i].request != g.sessions[q].slot.value {
      assert q != r ==> HoldsRequest(h, q);
    }
  }

  lemma RefusedOnce(w: World, r: RunId, kind: AskKind, word: Word)
    requires Sound(w) && word != Accept && word != Decline && word != Answered
    ensures var g := Refused(w.h, r, kind, word); Once(g) && Backed(w.s.t.gates.approvals, g.asked, g.sent)
  {
    var h, g := w.h, Refused(w.h, r, kind, word);
    BackedStays(w.s.t.gates.approvals, w.s.t.gates.approvals, h.asked, g.asked, h.sent);
    forall i | 0 <= i < |g.sent| && g.sent[i].request < |g.asked|
      ensures (g.sent[i].word == Accept ==> OpenedAnd(w.s.t.gates.approvals, g.asked[g.sent[i].request], Allowed))
        && (g.sent[i].word == Decline ==> OpenedAnd(w.s.t.gates.approvals, g.asked[g.sent[i].request], Denied))
        && (g.sent[i].word == Answered ==> g.asked[g.sent[i].request].kind == InputAsk)
    {
      assert i < |h.sent| ==> g.sent[i] == h.sent[i];
    }
    forall q, i | HoldsRequest(g, q) && 0 <= i < |g.sent| ensures g.sent[i].request != g.sessions[q].slot.value {
      assert HoldsRequest(h, q) && q in h.sessions && SessionHolds(w.s.t.runs, w.s.t.gates.approvals, h, q);
    }
  }

  lemma RefusedSound(w: World, r: RunId, kind: AskKind, word: Word)
    requires Inv(w.s.t) && Sound(w) && word != Accept && word != Decline && word != Answered
    ensures Sound(w.(h := Refused(w.h, r, kind, word)))
  {
    hide Inv, Once, Backed, CalmFor, Unasked, SessionHolds;
    var v := w.(h := Refused(w.h, r, kind, word));
    forall q: RunId ensures Apart(w, v, q) {
      Still(w.s.t, q);
    }
    Still(w.s.t, 0);
    ConcernedRun(w, v, None);
    RefusedOnce(w, r, kind, word);
  }

  lemma Still(t: Tables, r: RunId)
    ensures CalmFor(t, t, r) && SettledStays(t.gates.approvals, t.gates.approvals)
  {
  }

  /** A question to the owner takes the free slot. */
  lemma InputSeat(t: Tables, s: State, h: Hub, r: RunId, prompt: Digest)
    requires t == s.t && r in h.sessions && !h.sessions[r].loading && r in h.launched
      && Unasked(t.runs, t.gates.approvals, h, r)
    ensures SessionHolds(WaitInput(s, r, prompt).t.runs, WaitInput(s, r, prompt).t.gates.approvals, Seated(h, r, InputAsk, None), r)
  {
    var g := Seated(h, r, InputAsk, None);
    assert forall k: nat :: Owes(g, r, k) ==> Owes(h, r, k);
    assert g.asked[|h.asked|] == Asked(r, InputAsk, None);
    var u := WaitInput(s, r, prompt).t;
    assert forall a: ApprovalId :: PendingFor(u.gates.approvals, a, r) ==> PendingFor(t.gates.approvals, a, r);
  }

  lemma ApprovalSeat(s: State, h: Hub, r: RunId, k: TaskId, a: ApprovalId, x: ActionId, now: int)
    requires r in h.sessions && !h.sessions[r].loading && r in h.launched && Unasked(s.t.runs, s.t.gates.approvals, h, r)
    requires Working(s.t, r)
    ensures var u := WaitApproval(s, r, k, a, x, now).s.t;
      SessionHolds(u.runs, u.gates.approvals, Seated(h, r, ApprovalAsk, Some(a)), r)
  {
    var g := Seated(h, r, ApprovalAsk, Some(a));
    assert forall k: nat :: Owes(g, r, k) ==> Owes(h, r, k);
    assert g.asked[|h.asked|] == Asked(r, ApprovalAsk, Some(a));
    var u := WaitApproval(s, r, k, a, x, now).s.t;
    assert u.gates.approvals.Keys == s.t.gates.approvals.Keys + {a};
    assert forall b: ApprovalId :: PendingFor(u.gates.approvals, b, r) ==> b == a || PendingFor(s.t.gates.approvals, b, r);
  }

  lemma SeatedApart(w: World, v: World, r: RunId, kind: AskKind, approval: Option<ApprovalId>)
    requires r in w.h.sessions && v.h == Seated(w.h, r, kind, approval)
    requires forall q: RunId | q != r :: CalmFor(w.s.t, v.s.t, q)
    requires SettledStays(w.s.t.gates.approvals, v.s.t.gates.approvals)
    ensures Concerns(w, v, Some(r))
  {
    hide CalmFor, SettledStays;
  }

  lemma SeatedExist(w: World, v: World, r: RunId)
    requires OwedRunsExist(w.s.t.runs, w.h) && r in w.h.sessions && v.h.sessions.Keys == w.h.sessions.Keys
    requires v.h.outbox == w.h.outbox && v.h.launched == w.h.launched
    requires forall q :: q in w.s.t.runs ==> q in v.s.t.runs && v.s.t.runs[q].provider == w.s.t.runs[q].provider
    ensures OwedRunsExist(v.s.t.runs, v.h)
  {
    forall q, k: nat | Owes(v.h, q, k) ensures q in v.s.t.runs {
      assert Owes(w.h, q, k);
    }
    forall q | q in v.h.sessions ensures Driven(v.s.t.runs, q) {
      assert q in w.h.sessions;
    }
  }

  lemma SeatedSound(w: World, v: World, r: RunId, kind: AskKind, approval: Option<ApprovalId>)
    requires Inv(w.s.t) && Sound(w) && r in w.h.sessions && !w.h.sessions[r].loading
    requires v.h == Seated(w.h, r, kind, approval)
    requires forall q: RunId | q != r :: CalmFor(w.s.t, v.s.t, q)
    requires SettledStays(w.s.t.gates.approvals, v.s.t.gates.approvals)
    requires SessionHolds(v.s.t.runs, v.s.t.gates.approvals, v.h, r)
    requires forall q :: q in w.s.t.runs ==> q in v.s.t.runs && v.s.t.runs[q].provider == w.s.t.runs[q].provider
    ensures Sound(v)
  {
    hide Inv, CalmFor, SettledStays, Once, Backed, OwedRunsExist, FreshUnasked;
    SeatedApart(w, v, r, kind, approval);
    assert r in v.h.launched;
    hide SessionHolds;
    ConcernedRun(w, v, Some(r));
    SeatedOnce(w.h, r, kind, approval);
    SeatedExist(w, v, r);
    SentBefore(w.h);
    BackedStays(w.s.t.gates.approvals, v.s.t.gates.approvals, w.h.asked, v.h.asked, w.h.sent);
  }

  lemma FreeSlot(w: World, r: RunId)
    requires Sound(w) && r in w.h.sessions && !w.h.sessions[r].loading && w.h.sessions[r].slot.None?
    ensures r in w.h.launched && Unasked(w.s.t.runs, w.s.t.gates.approvals, w.h, r) && Driven(w.s.t.runs, r)
  {
    hide Unasked;
    assert SessionHolds(w.s.t.runs, w.s.t.gates.approvals, w.h, r);
  }

  lemma InputRows(s: State, r: RunId, prompt: Digest)
    requires Inv(s.t)
    ensures var u := WaitInput(s, r, prompt).t;
      Inv(u) && forall q :: q in s.t.runs ==> q in u.runs && u.runs[q].provider == s.t.runs[q].provider
  {
    hide Inv;
    NextKeeps(s, DoWaitInput(r, prompt));
    assert Next(s, DoWaitInput(r, prompt)) == WaitInput(s, r, prompt);
  }

  lemma ApprovalRows(s: State, r: RunId, k: TaskId, a: ApprovalId, x: ActionId, now: int)
    requires Inv(s.t) && OwnTask(s.t, r, k) && r !in s.t.flow.handoffs && a !in s.t.gates.approvals
      && x !in s.t.gates.actions
    ensures var u := WaitApproval(s, r, k, a, x, now).s.t;
      Inv(u) && forall q :: q in s.t.runs ==> q in u.runs && u.runs[q].provider == s.t.runs[q].provider
  {
    hide Inv;
    NextKeeps(s, DoWaitApproval(r, k, a, x, now));
    assert Next(s, DoWaitApproval(r, k, a, x, now)) == WaitApproval(s, r, k, a, x, now).s;
  }

  lemma BumpRows(s: State, r: RunId, k: TaskId)
    requires Inv(s.t) && OwnTask(s.t, r, k)
    ensures var u := BumpAction(s, r, k).s;
      Inv(u.t) && Calm(s.t, u.t) && u.t.gates == s.t.gates && u.t.flow == s.t.flow
      && (BumpAction(s, r, k).yes ==> Working(u.t, r))
      && (!BumpAction(s, r, k).yes ==> u == s)
      && (r in s.t.runs ==> r in u.t.runs && u.t.runs[r].status == s.t.runs[r].status && OwnTask(u.t, r, k))
  {
    hide Inv, Calm;
    NextKeeps(s, DoBump(r, k));
    NextCalm(s, DoBump(r, k));
    assert Next(s, DoBump(r, k)) == BumpAction(s, r, k).s;
  }

  lemma UnaskedSame(t: Tables, u: Tables, h: Hub, r: RunId)
    requires Unasked(t.runs, t.gates.approvals, h, r) && u.gates == t.gates
    requires r in t.runs && r in u.runs && u.runs[r].status == t.runs[r].status
    ensures Unasked(u.runs, u.gates.approvals, h, r)
  {
  }

  lemma CalmProviders(t: Tables, u: Tables)
    requires Calm(t, u)
    ensures forall q :: q in t.runs ==> q in u.runs && u.runs[q].provider == t.runs[q].provider
  {
  }

  /** The store as a request finds it: as it was, or with one more action counted. */
  predicate Ready(w: World, s: State, r: RunId) {
    Inv(s.t) && Calm(w.s.t, s.t) && s.t.gates == w.s.t.gates && s.t.flow == w.s.t.flow
    && r in w.s.t.runs && r in s.t.runs && s.t.runs[r].status == w.s.t.runs[r].status
  }

  predicate Free(h: Hub, r: RunId) {
    r in h.sessions && !h.sessions[r].loading && h.sessions[r].slot.None?
  }

  lemma SeatInputSound(w: World, s: State, r: RunId, a: ApprovalId, x: ActionId, prompt: Digest, now: int)
    requires Inv(w.s.t) && Sound(w) && Free(w.h, r) && Ready(w, s, r)
    ensures var v := TakeSeat(s, w.h, r, InputAsk, a, x, prompt, now); Sound(v) && Inv(v.s.t)
  {
    hide Inv, Calm, CalmFor, SettledStays, Sound, Unasked, SessionHolds, WaitInput;
    var v := TakeSeat(s, w.h, r, InputAsk, a, x, prompt, now);
    FreeSlot(w, r);
    forall q: RunId | q != r ensures CalmFor(w.s.t, v.s.t, q) {
      CalmForAll(w.s.t, s.t, q);
      WaitInputApart(s, r, prompt, q);
      CalmForOn(w.s.t, s.t, v.s.t, q);
    }
    CalmForAll(w.s.t, s.t, r + 1);
    WaitInputApart(s, r, prompt, r + 1);
    SettledOn(w.s.t.gates.approvals, s.t.gates.approvals, v.s.t.gates.approvals);
    CalmProviders(w.s.t, s.t);
    InputRows(s, r, prompt);
    UnaskedSame(w.s.t, s.t, w.h, r);
    InputSeat(s.t, s, w.h, r, prompt);
    SeatedSound(w, v, r, InputAsk, None);
  }

  lemma SeatApprovalSound(w: World, s: State, r: RunId, a: ApprovalId, x: ActionId, prompt: Digest, now: int)
    requires Inv(w.s.t) && Sound(w) && Free(w.h, r) && Ready(w, s, r) && Working(s.t, r)
    requires r !in s.t.flow.handoffs && a !in s.t.gates.approvals && x !in s.t.gates.actions
    ensures var v := TakeSeat(s, w.h, r, ApprovalAsk, a, x, prompt, now); Sound(v) && Inv(v.s.t)
  {
    hide Inv, Calm, CalmFor, SettledStays, Sound, Unasked, SessionHolds, WaitApproval;
    var k, v := TaskOf(s.t.runs, r), TakeSeat(s, w.h, r, ApprovalAsk, a, x, prompt, now);
    FreeSlot(w, r);
    WaitsWhenWorking(s, r, k, a, x, now);
    ApprovalRows(s, r, k, a, x, now);
    CalmProviders(w.s.t, s.t);
    forall q: RunId | q != r ensures CalmFor(w.s.t, v.s.t, q) {
      CalmForAll(w.s.t, s.t, q);
      WaitApprovalApart(s, r, k, a, x, now, q);
      CalmForOn(w.s.t, s.t, v.s.t, q);
    }
    CalmForAll(w.s.t, s.t, r + 1);
    WaitApprovalApart(s, r, k, a, x, now, r + 1);
    SettledOn(w.s.t.gates.approvals, s.t.gates.approvals, v.s.t.gates.approvals);
    UnaskedSame(w.s.t, s.t, w.h, r);
    ApprovalSeat(s, w.h, r, k, a, x, now);
    SeatedSound(w, v, r, ApprovalAsk, Some(a));
  }

  lemma WaitsWhenWorking(s: State, r: RunId, k: TaskId, a: ApprovalId, x: ActionId, now: int)
    requires Working(s.t, r)
    ensures WaitApproval(s, r, k, a, x, now).yes
  {
  }

  /** Out of budget: the run fails and its session is dropped, so the request is never granted. */
  lemma ExhaustedSound(w: World, r: RunId, kind: AskKind, prompt: Digest, now: int, told: bool)
    requires Inv(w.s.t) && Sound(w) && Free(w.h, r)
    ensures var v := World(Fail(w.s, r, prompt, now), Exhausted(w.h, r, kind, told)); Sound(v) && Inv(v.s.t)
  {
    hide Inv, Calm, CalmFor, SettledStays, Unasked, SessionHolds, Fail, SameOwed, Owes, Once, Backed, OwedRunsExist;
    var v := World(Fail(w.s, r, prompt, now), Exhausted(w.h, r, kind, told));
    FailRows(w.s, r, prompt, now);
    forall q: RunId ensures Apart(w, v, q) {
      CalmForAll(w.s.t, v.s.t, q);
      SameDeliveries(w.h, v.h, q);
    }
    CalmForAll(w.s.t, v.s.t, 0);
    ConcernedRun(w, v, None);
    CalmProviders(w.s.t, v.s.t);
    SeatedExist(w, World(v.s, w.h), r);
    ExhaustedExist(v.s.t.runs, w.h, r, kind, told);
    ExhaustedOnce(w, r, kind, told);
    SentBefore(v.h);
    BackedStays(w.s.t.gates.approvals, v.s.t.gates.approvals, v.h.asked, v.h.asked, v.h.sent);
  }

  lemma ExhaustedExist(runs: Runs, h: Hub, r: RunId, kind: AskKind, told: bool)
    requires OwedRunsExist(runs, h) && r in h.sessions
    ensures OwedRunsExist(runs, Exhausted(h, r, kind, told))
  {
    var g := Exhausted(h, r, kind, told);
    assert forall q, k: nat :: Owes(g, q, k) ==> Owes(h, q, k);
  }

  lemma ExhaustedOnce(w: World, r: RunId, kind: AskKind, told: bool)
    requires Sound(w) && Free(w.h, r)
    ensures var g := Exhausted(w.h, r, kind, told); Once(g) && Backed(w.s.t.gates.approvals, g.asked, g.sent)
  {
    hide FreshUnasked, OwedRunsExist, Unasked, Seats;
    var h, g := w.h, Exhausted(w.h, r, kind, told);
    if told {
      RefusedOnce(w, r, kind, Unavailable);
      var f := Refused(h, r, kind, Unavailable);
      assert forall q :: HoldsRequest(g, q) ==> HoldsRequest(f, q) && g.sessions[q] == f.sessions[q];
    } else {
      SentBefore(h);
      BackedStays(w.s.t.gates.approvals, w.s.t.gates.approvals, h.asked, g.asked, h.sent);
      assert forall q :: HoldsRequest(g, q) ==> HoldsRequest(h, q) && g.sessions[q] == h.sessions[q];
    }
  }

  lemma SameDeliveries(h: Hub, g: Hub, r: RunId)
    requires g.outbox == h.outbox
    ensures SameOwed(h, g, r)
  {
  }

  lemma DroppedExist(runs: Runs, h: Hub, r: RunId)
    requires OwedRunsExist(runs, h)
    ensures OwedRunsExist(runs, Drop(h, r))
  {
    assert forall q, k: nat :: Owes(Drop(h, r), q, k) ==> Owes(h, q, k);
  }

  lemma FailRows(s: State, r: RunId, error: Digest, now: int)
    requires Inv(s.t)
    ensures Inv(Fail(s, r, error, now).t) && Calm(s.t, Fail(s, r, error, now).t)
  {
    hide Inv, Calm;
    NextKeeps(s, DoFail(r, error, now));
    NextCalm(s, DoFail(r, error, now));
    assert Next(s, DoFail(r, error, now)) == Fail(s, r, error, now);
  }

  lemma CountedReady(w: World, r: RunId)
    requires Inv(w.s.t) && r in w.s.t.runs
    ensures var counted := BumpAction(w.s, r, TaskOf(w.s.t.runs, r));
      && Ready(w, counted.s, r) && (counted.yes ==> Working(counted.s.t, r)) && (!counted.yes ==> counted.s == w.s)
  {
    hide Inv, Calm, BumpAction;
    BumpRows(w.s, r, TaskOf(w.s.t.runs, r));
  }

  lemma UncountedReady(w: World, r: RunId)
    requires Inv(w.s.t) && r in w.s.t.runs
    ensures Ready(w, w.s, r)
  {
    hide Inv;
  }

  lemma AskSound(w: World, r: RunId, kind: AskKind, a: ApprovalId, x: ActionId, prompt: Digest, now: int)
    requires Inv(w.s.t) && Sound(w) && Allows(w, MakeRequest(r, kind, a, x, prompt, now))
    ensures var v := Ask(w, r, kind, a, x, prompt, now); Sound(v) && Inv(v.s.t)
  {
    hide Inv, Sound, BumpAction, Fail, TakeSeat, Exhausted, Calm, Working;
    if r in w.h.sessions {
      if Muted(w, r) {
        RefusedSound(w, r, kind, Unavailable);
      } else if w.h.sessions[r].slot.Some? {
        RefusedSound(w, r, kind, Busy);
      } else {
        FreeSlot(w, r);
        var counted := BumpAction(w.s, r, TaskOf(w.s.t.runs, r));
        CountedReady(w, r);
        UncountedReady(w, r);
        RecipientsOnClaude(w.s.t, r);
        if !Counts(w.s.t.runs, r, kind) {
          SeatInputSound(w, w.s, r, a, x, prompt, now);
        } else if !counted.yes {
          ExhaustedSound(w, r, kind, prompt, now, OnClaude(w.s.t.runs, r));
        } else if kind == InputAsk {
          SeatInputSound(w, counted.s, r, a, x, prompt, now);
        } else {
          SeatApprovalSound(w, counted.s, r, a, x, prompt, now);
        }
      }
    }
  }

  // ---------- an effect is applied ----------

  /** Two sessions never hold the same request. */
  lemma SlotsDiffer(w: World)
    requires Sound(w)
    ensures forall q, p | HoldsRequest(w.h, q) && HoldsRequest(w.h, p)
              && w.h.sessions[q].slot == w.h.sessions[p].slot :: q == p
  {
    hide Unasked, FreshUnasked, Once, Backed, OwedRunsExist;
    forall q, p | HoldsRequest(w.h, q) && HoldsRequest(w.h, p) && w.h.sessions[q].slot == w.h.sessions[p].slot ensures q == p {
      assert SessionHolds(w.s.t.runs, w.s.t.gates.approvals, w.h, q);
      assert SessionHolds(w.s.t.runs, w.s.t.gates.approvals, w.h, p);
    }
  }

  function Without(h: Hub, k: nat): Hub {
    h.(outbox := h.outbox - {k})
  }

  function WordOf(effect: Effect): Word {
    match effect
    case DispatchTool => Accept
    case RejectTool => Decline
    case _ => Answered
  }

  function KindOf(effect: Effect): AskKind {
    if effect == ResumeInput then InputAsk else ApprovalAsk
  }

  /** The decision reaches the request it was made for: the request in the slot, whose approval it decided. */
  lemma DecisionReaches(w: World, r: RunId, k: nat)
    requires Sound(w) && Owes(w.h, r, k) && r in w.h.sessions && !w.h.sessions[r].loading
    ensures HoldsRequest(w.h, r) && w.h.sessions[r].slot.value < |w.h.asked|
    ensures var q, e := w.h.sessions[r].slot.value, w.h.outbox[k].effect;
      && w.h.asked[q].run == r && Matches(w.s.t.gates.approvals, w.h.asked[q], e)
      && Deliver(w.s.t.runs, w.h, k).sent == w.h.sent + [Sent(q, WordOf(e))]
      && HoldsKind(w.h, r, KindOf(e)) && !HoldsRequest(Deliver(w.s.t.runs, w.h, k), r)
  {
    hide Unasked, FreshUnasked, Once, Backed;
    var s := w.s;
    assert SessionHolds(s.t.runs, s.t.gates.approvals, w.h, r);
    if w.h.sessions[r].slot.None? {
      UnaskedOwesNothing(s.t, w.h, r, k);
    }
  }

  lemma UnaskedOwesNothing(t: Tables, h: Hub, r: RunId, k: nat)
    requires Unasked(t.runs, t.gates.approvals, h, r)
    ensures !Owes(h, r, k)
  {
  }

  /** Once its decision was delivered, nothing is open about the run. */
  lemma Unseated(t: Tables, h: Hub, r: RunId, k: nat, q: Asked)
    requires Seats(t.runs, t.gates.approvals, h, r, q) && Owes(h, r, k)
    ensures Unasked(t.runs, t.gates.approvals, Without(h, k), r)
  {
    forall j: nat ensures !Owes(Without(h, k), r, j) {
      assert Owes(Without(h, k), r, j) ==> Owes(h, r, j);
    }
    forall a: ApprovalId ensures !PendingFor(t.gates.approvals, a, r) {
      assert PendingFor(t.gates.approvals, a, r) ==> q.approval == Some(a);
    }
  }

  lemma DeliveredElsewhere(t: Tables, h: Hub, k: nat, r: RunId)
    requires k in h.outbox && !Owes(h, r, k)
    ensures SameOwed(h, Deliver(t.runs, h, k), r)
    ensures var g := Deliver(t.runs, h, k);
      g.asked == h.asked && g.launched == h.launched
      && (r in g.sessions ==> r in h.sessions && (h.outbox[k].run != Some(r) ==> g.sessions[r] == h.sessions[r]))
      && (!Replies(h.outbox[k].effect) && r in g.sessions ==> g.sessions[r] == h.sessions[r])
  {
  }

  lemma DeliverExist(w: World, k: nat)
    requires OwedRunsExist(w.s.t.runs, w.h) && k in w.h.outbox
    ensures OwedRunsExist(w.s.t.runs, Deliver(w.s.t.runs, w.h, k))
  {
    var g := Deliver(w.s.t.runs, w.h, k);
    forall r, j: nat | Owes(g, r, j) ensures r in w.s.t.runs {
      assert Owes(w.h, r, j);
    }
    forall r | r in g.sessions ensures Driven(w.s.t.runs, r) {
      assert r in w.h.sessions;
    }
  }

  /** An effect that replies to nobody: not one of the three, or its run has no request in its slot. */
  lemma SilentSound(w: World, k: nat)
    requires Inv(w.s.t) && Sound(w) && k in w.h.outbox
    requires forall r: RunId :: Owes(w.h, r, k) ==> r !in w.h.sessions || w.h.sessions[r].loading
    ensures Sound(w.(h := Deliver(w.s.t.runs, w.h, k)))
  {
    hide Inv, CalmFor, SettledStays, Unasked, SameOwed;
    var g := Deliver(w.s.t.runs, w.h, k);
    var v, o := w.(h := g), if Replies(w.h.outbox[k].effect) then w.h.outbox[k].run else None;
    SilentDelivery(w, k);
    forall r: RunId | o != Some(r) ensures Apart(w, v, r) {
      Still(w.s.t, r);
      DeliveredElsewhere(w.s.t, w.h, k, r);
    }
    Still(w.s.t, 0);
    if o.Some? {
      assert Owes(w.h, o.value, k);
      if Driven(w.s.t.runs, o.value) && Active(w.s.t.runs[o.value].status) {
        UnlaunchedOwesNothing(w, o.value, k);
      }
    }
    ConcernedRun(w, v, o);
    DeliverExist(w, k);
  }

  lemma UnlaunchedOwesNothing(w: World, r: RunId, k: nat)
    requires Sound(w) && Owes(w.h, r, k) && Driven(w.s.t.runs, r) && Active(w.s.t.runs[r].status)
    ensures r in w.h.launched
  {
    hide SessionsHold, Once, Backed, OwedRunsExist;
  }

  lemma SilentDelivery(w: World, k: nat)
    requires Sound(w) && k in w.h.outbox
    requires forall r: RunId :: Owes(w.h, r, k) ==> r !in w.h.sessions || w.h.sessions[r].loading
    ensures var g := Deliver(w.s.t.runs, w.h, k);
      g.sent == w.h.sent && Once(g)
      && forall r :: r in g.sessions ==> r in w.h.sessions && g.sessions[r] == w.h.sessions[r]
  {
    hide Unasked, Seats, FreshUnasked, Backed, OwedRunsExist;
    var g, d := Deliver(w.s.t.runs, w.h, k), w.h.outbox[k];
    if d.run.Some? && Replies(d.effect) {
      assert Owes(w.h, d.run.value, k);
      assert !HoldsRequest(w.h, d.run.value) by {
        assert d.run.value in w.h.sessions ==> SessionHolds(w.s.t.runs, w.s.t.gates.approvals, w.h, d.run.value);
      }
    }
    assert g.sent == w.h.sent;
    assert forall q :: HoldsRequest(g, q) ==> HoldsRequest(w.h, q) && g.sessions[q] == w.h.sessions[q];
  }

  lemma BackedReply(approvals: Approvals, asked: seq<Asked>, sent: seq<Sent>, q: nat, word: Word)
    requires Backed(approvals, asked, sent) && q < |asked|
    requires (word == Accept ==> OpenedAnd(approvals, asked[q], Allowed))
      && (word == Decline ==> OpenedAnd(approvals, asked[q], Denied))
      && (word == Answered ==> asked[q].kind == InputAsk)
    ensures Backed(approvals, asked, sent + [Sent(q, word)])
  {
  }

  lemma OnceAfter(h: Hub, g: Hub, q: nat, word: Word, r: RunId)
    requires Once(h) && HoldsRequest(h, r) && h.sessions[r].slot == Some(q) && q < |h.asked|
    requires forall p, p' | HoldsRequest(h, p) && HoldsRequest(h, p')
      && h.sessions[p].slot == h.sessions[p'].slot :: p == p'
    requires g.sent == h.sent + [Sent(q, word)] && g.asked == h.asked && g.issued == h.issued
    requires (forall k :: k in g.outbox ==> k in h.outbox) && !HoldsRequest(g, r)
    requires forall p | p in g.sessions && p != r :: p in h.sessions && g.sessions[p] == h.sessions[p]
    ensures Once(g)
  {
    assert forall p :: HoldsRequest(g, p) ==> HoldsRequest(h, p) && p != r && g.sessions[p] == h.sessions[p];
    forall p, i | HoldsRequest(g, p) && 0 <= i < |g.sent| ensures g.sent[i].request != g.sessions[p].slot.value {
      if i < |h.sent| {
        assert g.sent[i] == h.sent[i];
      }
    }
  }

  lemma ReplyShape(w: World, r: RunId, k: nat)
    requires Owes(w.h, r, k) && r in w.h.sessions && Driven(w.s.t.runs, r)
      && HoldsKind(w.h, r, KindOf(w.h.outbox[k].effect))
    ensures var g := Deliver(w.s.t.runs, w.h, k);
      g.outbox == w.h.outbox - {k} && g.issued == w.h.issued
      && (r in g.sessions ==> g.sessions[r] == w.h.sessions[r].(slot := None))
  {
  }

  lemma ReplySound(w: World, r: RunId, k: nat)
    requires Inv(w.s.t) && Sound(w) && Owes(w.h, r, k) && r in w.h.sessions && !w.h.sessions[r].loading
    ensures Sound(w.(h := Deliver(w.s.t.runs, w.h, k)))
  {
    hide Inv, CalmFor, SettledStays, Unasked, SameOwed, Seats, Once, Backed, Deliver, FreshUnasked;
    var h, g := w.h, Deliver(w.s.t.runs, w.h, k);
    var v := w.(h := g);
    DecisionReaches(w, r, k);
    SlotsDiffer(w);
    assert SessionHolds(w.s.t.runs, w.s.t.gates.approvals, h, r);
    var q := h.sessions[r].slot.value;
    ReplyShape(w, r, k);
    forall p: RunId | p != r ensures Apart(w, v, p) {
      Still(w.s.t, p);
      DeliveredElsewhere(w.s.t, h, k, p);
    }
    DeliveredElsewhere(w.s.t, h, k, r + 1);
    Still(w.s.t, 0);
    Unseated(w.s.t, h, r, k, h.asked[q]);
    UnaskedDelivered(w.s.t, Without(h, k), g, r);
    assert r in g.sessions ==> SessionHolds(w.s.t.runs, w.s.t.gates.approvals, g, r);
    hide SessionHolds;
    ConcernedRun(w, v, Some(r));
    DeliverExist(w, k);
    forall p | p in g.sessions && p != r ensures p in h.sessions && g.sessions[p] == h.sessions[p] {
      assert Apart(w, v, p);
    }
    OnceAfter(h, g, q, WordOf(h.outbox[k].effect), r);
    BackedReply(w.s.t.gates.approvals, h.asked, h.sent, q, WordOf(h.outbox[k].effect));
  }

  lemma UnaskedDelivered(t: Tables, h: Hub, g: Hub, r: RunId)
    requires Unasked(t.runs, t.gates.approvals, h, r) && g.outbox == h.outbox
    ensures Unasked(t.runs, t.gates.approvals, g, r)
  {
    assert forall k: nat :: Owes(g, r, k) ==> Owes(h, r, k);
  }

  lemma ApplyEffectSound(w: World, k: nat)
    requires Inv(w.s.t) && Sound(w) && k in w.h.outbox
    ensures Sound(w.(h := Deliver(w.s.t.runs, w.h, k)))
  {
    hide Inv, Sound, Deliver;
    var d := w.h.outbox[k];
    if d.run.Some? && Replies(d.effect) && d.run.value in w.h.sessions && !w.h.sessions[d.run.value].loading {
      ReplySound(w, d.run.value, k);
    } else {
      SilentSound(w, k);
    }
  }

  // ---------- sessions ----------

  lemma StartSound(w: World, r: RunId)
    requires Inv(w.s.t) && Sound(w) && Allows(w, StartSession(r))
    ensures Sound(Act(w, StartSession(r)))
  {
    hide Inv, CalmFor, SettledStays, Unasked, Backed;
    var v := Act(w, StartSession(r));
    forall p: RunId | p != r ensures Apart(w, v, p) {
      Still(w.s.t, p);
      SameDeliveries(w.h, v.h, p);
    }
    Still(w.s.t, 0);
    UnaskedDelivered(w.s.t, w.h, v.h, r);
    ConcernedRun(w, v, Some(r));
    ReplacedOnce(w, r, Session(false, None), w.h.launched + {r});
  }

  lemma LoadSound(w: World, r: RunId)
    requires Inv(w.s.t) && Sound(w) && Allows(w, LoadHistory(r))
    ensures Sound(Act(w, LoadHistory(r)))
  {
    hide Inv, CalmFor, SettledStays, Unasked, Backed, Links, Projected, Gated, Bounded, Delivered, Budgeted, Barred;
    var v := Act(w, LoadHistory(r));
    forall p: RunId | p != r ensures Apart(w, v, p) {
      Still(w.s.t, p);
      SameDeliveries(w.h, v.h, p);
    }
    Still(w.s.t, 0);
    LoadingIsInactive(w.s.t, r);
    ConcernedRun(w, v, Some(r));
    ReplacedOnce(w, r, Session(true, None), w.h.launched);
  }

  lemma LoadingIsInactive(t: Tables, r: RunId)
    requires Inv(t) && IsLoading(t, r)
    ensures !Active(t.runs[r].status)
  {
    hide Links, Projected, Gated, Bounded, Delivered, Budgeted, Barred;
  }

  lemma ReplacedOnce(w: World, r: RunId, session: Session, launched: set<RunId>)
    requires Once(w.h) && OwedRunsExist(w.s.t.runs, w.h) && session.slot.None? && Driven(w.s.t.runs, r)
    requires launched <= w.h.launched + {r}
    ensures var g := w.h.(sessions := w.h.sessions[r := session], launched := launched);
      Once(g) && OwedRunsExist(w.s.t.runs, g)
  {
    var g := w.h.(sessions := w.h.sessions[r := session], launched := launched);
    assert forall p :: HoldsRequest(g, p) ==> HoldsRequest(w.h, p) && g.sessions[p] == w.h.sessions[p];
    assert forall p, k: nat :: Owes(g, p, k) ==> Owes(w.h, p, k);
  }

  lemma CloseSound(w: World, r: RunId)
    requires Inv(w.s.t) && Sound(w)
    ensures Sound(Act(w, CloseSession(r)))
  {
    hide Inv, CalmFor, SettledStays, Unasked, SessionHolds, Backed;
    var v := Act(w, CloseSession(r));
    forall p: RunId ensures Apart(w, v, p) {
      Still(w.s.t, p);
      SameDeliveries(w.h, v.h, p);
    }
    Still(w.s.t, 0);
    ConcernedRun(w, v, None);
    DroppedExist(w.s.t.runs, w.h, r);
    assert forall p :: HoldsRequest(v.h, p) ==> HoldsRequest(w.h, p) && v.h.sessions[p] == w.h.sessions[p];
  }

  // ---------- every run of the protocol ----------

  lemma ActSound(w: World, m: Move)
    requires Inv(w.s.t) && Sound(w) && Allows(w, m)
    ensures Inv(Act(w, m).s.t) && Sound(Act(w, m))
  {
    hide Inv, Sound, Ask, Deliver, Next, Legal, Commits, Dispatch;
    match m {
      case Transact(step) =>
        TransactSound(w, step);
        NextKeeps(w.s, step);
      case StartSession(r) => StartSound(w, r);
      case LoadHistory(r) => LoadSound(w, r);
      case CloseSession(r) => CloseSound(w, r);
      case MakeRequest(r, kind, a, x, prompt, now) => AskSound(w, r, kind, a, x, prompt, now);
      case ApplyEffect(k) =>
        if k in w.h.outbox {
          ApplyEffectSound(w, k);
        }
    }
  }

  function Play(w: World, moves: seq<Move>): World
    decreases |moves|
  {
    if moves == [] then w else Play(Act(w, moves[0]), moves[1..])
  }

  predicate AllowsAll(w: World, moves: seq<Move>)
    decreases |moves|
  {
    moves == [] || (Allows(w, moves[0]) && AllowsAll(Act(w, moves[0]), moves[1..]))
  }

  const START := World(EMPTY, Hub(map[], {}, map[], 0, [], []))

  lemma {:induction false} PlaySound(w: World, moves: seq<Move>)
    requires Inv(w.s.t) && Sound(w) && AllowsAll(w, moves)
    ensures Inv(Play(w, moves).s.t) && Sound(Play(w, moves))
    decreases |moves|
  {
    hide Inv, Sound, Act, Allows;
    if moves != [] {
      ActSound(w, moves[0]);
      PlaySound(Act(w, moves[0]), moves[1..]);
    }
  }

  lemma StartIsSound()
    ensures Inv(START.s.t) && Sound(START)
  {
    EmptyInv();
    hide Inv;
  }

  /** All that is kept: the store, the slots, the approvals opened, and that no recipient of a handoff holds a slot. */
  ghost predicate Held(w: World) {
    Inv(w.s.t) && Sound(w) && Opened(w.s.t.gates.approvals, w.h.asked) && AskersWork(w)
  }

  lemma ActAskers(w: World, m: Move)
    requires Inv(w.s.t) && OwedRunsExist(w.s.t.runs, w.h) && AskersWork(w) && Allows(w, m)
    ensures AskersWork(Act(w, m))
  {
    hide Inv, Owes, Next, Legal, Commits, Dispatch;
    match m {
      case Transact(step) => NewRecipients(w.s, step);
      case MakeRequest(r, kind, a, x, prompt, now) => AskAskers(w, r, kind, a, x, prompt, now);
      case ApplyEffect(k) =>
        if k in w.h.outbox {
          DeliverSlots(w.s.t.runs, w.h, k);
        }
      case StartSession(_) =>
      case LoadHistory(_) =>
      case CloseSession(_) =>
    }
  }

  lemma DeliverSlots(runs: Runs, h: Hub, k: nat)
    requires k in h.outbox
    ensures forall q :: HoldsRequest(Deliver(runs, h, k), q) ==> HoldsRequest(h, q)
  {
  }

  lemma AskAskers(w: World, r: RunId, kind: AskKind, a: ApprovalId, x: ActionId, prompt: Digest, now: int)
    requires Inv(w.s.t) && AskersWork(w)
    ensures AskersWork(Ask(w, r, kind, a, x, prompt, now))
  {
    hide Inv;
    var v := Ask(w, r, kind, a, x, prompt, now);
    RecipientsOnClaude(w.s.t, r);
    AskKeepsRecipients(w, r, kind, a, x, prompt, now);
    hide BumpAction, WaitApproval, WaitInput, Fail;
    assert forall q :: HoldsRequest(v.h, q) ==> HoldsRequest(w.h, q) || q == r;
  }

  lemma AskKeepsRecipients(w: World, r: RunId, kind: AskKind, a: ApprovalId, x: ActionId, prompt: Digest, now: int)
    ensures Ask(w, r, kind, a, x, prompt, now).s.t.flow.handoffs.Keys == w.s.t.flow.handoffs.Keys
  {
    hide Fail, CountAction;
    var counted := BumpAction(w.s, r, TaskOf(w.s.t.runs, r));
    FailKeepsRecipients(counted.s, r, prompt, now);
    assert counted.s.t.flow == w.s.t.flow by {
      CountKeepsFlow(w.s.t, r, TaskOf(w.s.t.runs, r));
    }
  }

  lemma CountKeepsFlow(t: Tables, r: RunId, k: TaskId)
    ensures r in t.runs ==> CountAction(t, r, k).flow == t.flow
  {
  }

  lemma FailKeepsRecipients(s: State, r: RunId, error: Digest, now: int)
    ensures Fail(s, r, error, now).t.flow.handoffs.Keys == s.t.flow.handoffs.Keys
  {
  }

  lemma ActHeld(w: World, m: Move)
    requires Held(w) && Allows(w, m)
    ensures Held(Act(w, m))
  {
    hide Inv, SessionsHold, FreshUnasked, Once, Backed, OwedRunsExist, Opened, AskersWork, Act, Allows;
    ActSound(w, m);
    ActOpened(w, m);
    ActAskers(w, m);
  }

  lemma {:induction false} PlayHeld(w: World, moves: seq<Move>)
    requires Held(w) && AllowsAll(w, moves)
    ensures Held(Play(w, moves))
    decreases |moves|
  {
    hide Held, Act, Allows;
    if moves != [] {
      ActHeld(w, moves[0]);
      PlayHeld(Act(w, moves[0]), moves[1..]);
    }
  }

  lemma StartIsHeld()
    ensures Held(START)
  {
    StartIsSound();
    hide Inv, Sound;
  }

  /** In every run of the protocol, a request that was accepted had an approval opened for it, on its own run and for no
      other request, that the owner allowed; a declined one such an approval that the owner denied; the owner's answers
      went to questions only; and no request was answered twice. */
  lemma OnlyAllowedIsAccepted(moves: seq<Move>)
    requires AllowsAll(START, moves)
    ensures var w := Play(START, moves);
      && (forall i | 0 <= i < |w.h.sent| :: w.h.sent[i].request < |w.h.asked| &&
            (w.h.sent[i].word == Accept ==> OpenedAnd(w.s.t.gates.approvals, w.h.asked[w.h.sent[i].request], Allowed)) &&
            (w.h.sent[i].word == Decline ==> OpenedAnd(w.s.t.gates.approvals, w.h.asked[w.h.sent[i].request], Denied)) &&
            (w.h.sent[i].word == Answered ==> w.h.asked[w.h.sent[i].request].kind == InputAsk))
      && (forall i, j :: 0 <= i < j < |w.h.sent| ==> w.h.sent[i].request != w.h.sent[j].request)
      && (forall q | 0 <= q < |w.h.asked| && w.h.asked[q].approval.Some? ::
            var a := w.h.asked[q].approval.value;
            a in w.s.t.gates.approvals && w.s.t.gates.approvals[a].run == w.h.asked[q].run)
      && (forall q, p | 0 <= q < p < |w.h.asked| && w.h.asked[q].approval.Some? ::
            w.h.asked[q].approval != w.h.asked[p].approval)
  {
    hide Inv, Play, AllowsAll, SessionsHold, FreshUnasked, OwedRunsExist, OpenedAnd, AskersWork;
    StartIsHeld();
    PlayHeld(START, moves);
  }

  /** What a request was, and the approval opened for it, is fixed when it arrives. */
  lemma {:induction false} AskedStands(w: World, moves: seq<Move>)
    ensures w.h.asked <= Play(w, moves).h.asked
    decreases |moves|
  {
    hide Ask, Deliver, Next, Dispatch, Commits;
    if moves != [] {
      ActAsked(w, moves[0]);
      AskedStands(Act(w, moves[0]), moves[1..]);
    }
  }

  lemma ActAsked(w: World, m: Move)
    ensures w.h.asked <= Act(w, m).h.asked
  {
    hide Next, Dispatch, Commits, BumpAction, WaitApproval, WaitInput, Fail;
  }

  /** While a request holds the slot, a later one is refused at once and nothing else changes; and so is every request
      of a handoff's recipient. */
  lemma SlotIsExclusive(w: World, r: RunId, kind: AskKind, a: ApprovalId, x: ActionId, prompt: Digest, now: int)
    requires r in w.h.sessions && (HoldsRequest(w.h, r) || Muted(w, r))
    ensures var v := Ask(w, r, kind, a, x, prompt, now);
      v.s == w.s && v.h.sessions == w.h.sessions
      && v.h.sent == w.h.sent + [Sent(|w.h.asked|, if Muted(w, r) then Unavailable else Busy)]
  {
  }

  // ---------- how long a slot is held ----------

  /** What ends the wait of the request in the slot of run r: the reply to it, an interruption, the end of its session, a
      history load in its place, or a restart. */
  ghost predicate Releases(w: World, m: Move, r: RunId) {
    match m
    case Transact(step) => step.DoRestart?
    case StartSession(_) => false
    case LoadHistory(p) => p == r
    case CloseSession(p) => p == r
    case MakeRequest(_, _, _, _, _, _) => false
    case ApplyEffect(k) =>
      Owes(w.h, r, k) || (k in w.h.outbox && w.h.outbox[k].effect == InterruptProvider
                          && (w.h.outbox[k].run == None || w.h.outbox[k].run == Some(r)))
  }

  predicate SameSlot(h: Hub, g: Hub, r: RunId) {
    HoldsRequest(h, r) && HoldsRequest(g, r) && g.sessions[r] == h.sessions[r]
  }

  lemma DeliverReleases(w: World, k: nat, r: RunId)
    requires Sound(w) && HoldsRequest(w.h, r) && k in w.h.outbox
    ensures SameSlot(w.h, Deliver(w.s.t.runs, w.h, k), r) <==> !Releases(w, ApplyEffect(k), r)
  {
    hide Unasked, Seats, FreshUnasked, Once, Backed;
    assert SessionHolds(w.s.t.runs, w.s.t.gates.approvals, w.h, r);
    if Owes(w.h, r, k) {
      DecisionReaches(w, r, k);
    } else {
      hide Sound, SessionHolds;
    }
  }

  /** Exactly these moves end it: any other leaves the request in its slot. */
  lemma SlotEndsExactly(w: World, m: Move, r: RunId)
    requires Held(w) && Allows(w, m) && HoldsRequest(w.h, r)
    ensures SameSlot(w.h, Act(w, m).h, r) <==> !Releases(w, m, r)
  {
    hide Inv, Opened, AskersWork, Unasked, Seats, FreshUnasked, Once, Backed, OwedRunsExist, Next, Legal, Commits, Dispatch, BumpAction,
      WaitApproval, WaitInput, Fail, Deliver;
    assert SessionHolds(w.s.t.runs, w.s.t.gates.approvals, w.h, r);
    if m.ApplyEffect? && m.k in w.h.outbox {
      DeliverReleases(w, m.k, r);
    }
  }

  ghost predicate NothingReleases(w: World, moves: seq<Move>, r: RunId)
    decreases |moves|
  {
    moves == [] || (!Releases(w, moves[0], r) && NothingReleases(Act(w, moves[0]), moves[1..], r))
  }

  /** Every request of the run since there were n of them was answered that another one waits. */
  ghost predicate TurnedAway(h: Hub, r: RunId, n: nat) {
    forall q: nat | n <= q < |h.asked| && h.asked[q].run == r :: Sent(q, Busy) in h.sent
  }

  lemma TurnsAway(w: World, m: Move, r: RunId, n: nat)
    requires Held(w) && Allows(w, m) && HoldsRequest(w.h, r) && TurnedAway(w.h, r, n)
    ensures TurnedAway(Act(w, m).h, r, n)
  {
    var v := Act(w, m);
    assert !Muted(w, r) by {
      hide Inv, Opened, Unasked, Seats, FreshUnasked, Once, Backed, OwedRunsExist;
      assert SessionHolds(w.s.t.runs, w.s.t.gates.approvals, w.h, r);
    }
    hide Held, Next, Commits, Dispatch, BumpAction, WaitApproval, WaitInput, Fail;
    ActAsked(w, m);
    ActSent(w, m);
    if m.MakeRequest? && m.run == r {
      SlotIsExclusive(w, r, m.kind, m.approval, m.action, m.prompt, m.now);
      assert v.h.sent[|w.h.sent|] == Sent(|w.h.asked|, Busy);
    }
    forall q: nat | n <= q < |v.h.asked| && v.h.asked[q].run == r ensures Sent(q, Busy) in v.h.sent {
      AsksForOthers(w, m, r, q);
      if q < |w.h.asked| {
        var i :| 0 <= i < |w.h.sent| && w.h.sent[i] == Sent(q, Busy);
        assert v.h.sent[i] == Sent(q, Busy);
      }
    }
  }

  lemma ActSent(w: World, m: Move)
    ensures w.h.sent <= Act(w, m).h.sent
  {
    hide Next, Dispatch, Commits, BumpAction, WaitApproval, WaitInput, Fail;
  }

  /** Only a request of the run adds a request of the run. */
  lemma AsksForOthers(w: World, m: Move, r: RunId, q: nat)
    requires q < |Act(w, m).h.asked| && Act(w, m).h.asked[q].run == r
    ensures (q < |w.h.asked| && w.h.asked[q].run == r) || (q == |w.h.asked| && m.MakeRequest? && m.run == r)
  {
    hide Next, Dispatch, Commits, BumpAction, WaitApproval, WaitInput, Fail;
  }

  /** From the moment a request is seated until one of the moves above, however long that takes: it keeps the slot, it is
      not answered, and every other request of its run is turned away. */
  lemma SlotIsKept(w: World, moves: seq<Move>, r: RunId)
    requires Held(w) && AllowsAll(w, moves) && HoldsRequest(w.h, r) && NothingReleases(w, moves, r)
    ensures var v := Play(w, moves);
      && SameSlot(w.h, v.h, r) && TurnedAway(v.h, r, |w.h.asked|)
      && forall i | 0 <= i < |v.h.sent| :: v.h.sent[i].request != w.h.sessions[r].slot.value
  {
    KeptFrom(w, moves, r, |w.h.asked|);
    PlayHeld(w, moves);
    hide Inv, SessionsHold, FreshUnasked, Backed, OwedRunsExist, Opened, AskersWork, AllowsAll, NothingReleases, TurnedAway, Play;
  }

  lemma {:induction false} KeptFrom(w: World, moves: seq<Move>, r: RunId, n: nat)
    requires Held(w) && AllowsAll(w, moves) && HoldsRequest(w.h, r) && NothingReleases(w, moves, r) && TurnedAway(w.h, r, n)
    ensures SameSlot(w.h, Play(w, moves).h, r) && TurnedAway(Play(w, moves).h, r, n)
    decreases |moves|
  {
    hide Held, Act, Allows, Releases, TurnedAway;
    if moves != [] {
      SlotEndsExactly(w, moves[0], r);
      TurnsAway(w, moves[0], r, n);
      ActHeld(w, moves[0]);
      KeptFrom(Act(w, moves[0]), moves[1..], r, n);
    }
  }
}
