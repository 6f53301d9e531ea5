/** The single-slot protocol that carries an owner's decision back to the provider request it was made for. Codex
    answers whatever holds its slot, Claude only a request of the right kind; effects of committed receipts are applied
    after any delay and in any order. */
module ProviderRequests {
  import opened Types
  import opened Rows
  import opened Transactions
  import opened Invariants
  import opened Reachable
  import opened Sweeping
  import opened Waiting

  datatype AskKind = ApprovalAsk | InputAsk

  /** A provider request, and the approval that was opened for it if one was. */
  datatype Asked = Asked(run: RunId, kind: AskKind, approval: Option<ApprovalId>)

  /** A live session: history loads answer no request, and any other holds at most one. */
  datatype Session = Session(loading: bool, slot: Option<nat>)

  datatype Word = Accept | Decline | Answered | Busy | Unavailable

  datatype Sent = Sent(request: nat, word: Word)

  datatype Delivery = Delivery(run: Option<RunId>, effect: Effect)

  /** Requests are numbered by arrival, receipts' effects by commit. `launched` holds the runs whose one session was
      started since the daemon started. */
  datatype Hub = Hub(
    sessions: map<RunId, Session>, launched: set<RunId>, outbox: map<nat, Delivery>, issued: nat,
    asked: seq<Asked>, sent: seq<Sent>)

  datatype World = World(s: State, h: Hub)

  function Drop(h: Hub, r: RunId): Hub {
    h.(sessions := h.sessions - {r})
  }

  predicate HoldsRequest(h: Hub, r: RunId) {
    r in h.sessions && h.sessions[r].slot.Some?
  }

  predicate HoldsKind(h: Hub, r: RunId, kind: AskKind) {
    HoldsRequest(h, r) && h.sessions[r].slot.value < |h.asked| && h.asked[h.sessions[r].slot.value].kind == kind
  }

  /** Writes to whatever request holds the slot, and frees it. */
  function AnswerSlot(h: Hub, r: RunId, word: Word): Hub {
    if !HoldsRequest(h, r) then h else
    h.(sent := h.sent + [Sent(h.sessions[r].slot.value, word)], sessions := h.sessions[r := h.sessions[r].(slot := None)])
  }

  /** The run has a provider behind it. */
  predicate Driven(runs: Runs, r: RunId) {
    r in runs && runs[r].provider != Fake
  }

  /** Claude keeps one callback for an approval and another for an answer. */
  function AnswerKind(h: Hub, r: RunId, kind: AskKind, word: Word): Hub {
    if HoldsKind(h, r, kind) then AnswerSlot(h, r, word) else h
  }

  /** applyReceiptEffects for one effect of one receipt. */
  function Deliver(runs: Runs, h: Hub, k: nat): Hub
    requires k in h.outbox
  {
    var d, rest := h.outbox[k], h.(outbox := h.outbox - {k});
    if d.effect.InterruptProvider? then
      if d.run.Some? then Drop(rest, d.run.value) else rest.(sessions := map[])
    else if d.run.None? || !Driven(runs, d.run.value) then rest
    else if runs[d.run.value].provider == Claude then ClaudeTakes(rest, d.run.value, d.effect)
    else CodexTakes(rest, d.run.value, d.effect)
  }

  /** resolveCodexApproval and answerCodexInput. */
  function CodexTakes(h: Hub, r: RunId, effect: Effect): Hub {
    match effect
    case DispatchTool => AnswerSlot(h, r, Accept)
    case RejectTool => if HoldsRequest(h, r) then Drop(AnswerSlot(h, r, Decline), r) else h
    case ResumeInput => AnswerSlot(h, r, Answered)
    case _ => h
  }

  /** resolveClaudeApproval and answerClaudeInput. */
  function ClaudeTakes(h: Hub, r: RunId, effect: Effect): Hub {
    match effect
    case DispatchTool => AnswerKind(h, r, ApprovalAsk, Accept)
    case RejectTool => Drop(AnswerKind(h, r, ApprovalAsk, Decline), r)
    case ResumeInput => AnswerKind(h, r, InputAsk, Answered)
    case _ => h
  }

  function Refused(h: Hub, r: RunId, kind: AskKind, word: Word): Hub {
    h.(asked := h.asked + [Asked(r, kind, None)], sent := h.sent + [Sent(|h.asked|, word)])
  }

  function Seated(h: Hub, r: RunId, kind: AskKind, approval: Option<ApprovalId>): Hub
    requires r in h.sessions
  {
    h.(asked := h.asked + [Asked(r, kind, approval)],
       sessions := h.sessions[r := h.sessions[r].(slot := Some(|h.asked|))])
  }

  function TaskOf(runs: Runs, r: RunId): TaskId {
    if r in runs then runs[r].task else 0
  }

  predicate OnClaude(runs: Runs, r: RunId) {
    r in runs && runs[r].provider == Claude
  }

  /** Claude is refused outright when it drives the recipient of a handoff. */
  predicate Muted(w: World, r: RunId)
    requires r in w.h.sessions
  {
    w.h.sessions[r].loading || (OnClaude(w.s.t.runs, r) && r in w.s.t.flow.handoffs)
  }

  /** Codex counts approvals against the budget, Claude every request. */
  predicate Counts(runs: Runs, r: RunId, kind: AskKind) {
    kind == ApprovalAsk || OnClaude(runs, r)
  }

  /** A request of either kind: handleNotice for Codex, permission for Claude. */
  function Ask(w: World, r: RunId, kind: AskKind, a: ApprovalId, x: ActionId, prompt: Digest, now: int): World {
    if r !in w.h.sessions then w
    else if Muted(w, r) then w.(h := Refused(w.h, r, kind, Unavailable))
    else if w.h.sessions[r].slot.Some? then w.(h := Refused(w.h, r, kind, Busy))
    else if !Counts(w.s.t.runs, r, kind) then TakeSeat(w.s, w.h, r, kind, a, x, prompt, now)
    else
      var counted := BumpAction(w.s, r, TaskOf(w.s.t.runs, r));
      if counted.yes then TakeSeat(counted.s, w.h, r, kind, a, x, prompt, now)
      else World(Fail(counted.s, r, prompt, now), Exhausted(w.h, r, kind, OnClaude(w.s.t.runs, r)))
  }

  /** The request takes the slot and the store is asked. */
  function TakeSeat(s: State, h: Hub, r: RunId, kind: AskKind, a: ApprovalId, x: ActionId, prompt: Digest, now: int): World
    requires r in h.sessions
  {
    if kind == InputAsk then World(WaitInput(s, r, prompt), Seated(h, r, kind, None))
    else
      var waiting := WaitApproval(s, r, TaskOf(s.t.runs, r), a, x, now);
      World(waiting.s, Seated(h, r, kind, if waiting.yes then Some(a) else None))
  }

  /** Out of budget the session is dropped; only Claude is told. */
  function Exhausted(h: Hub, r: RunId, kind: AskKind, told: bool): Hub
    requires r in h.sessions
  {
    Drop(if told then Refused(h, r, kind, Unavailable) else Seated(h, r, kind, None), r)
  }

  function Restarted(h: Hub): Hub {
    h.(sessions := map[], launched := {}, outbox := map[])
  }

  function Issue(h: Hub, receipt: Receipt): Hub {
    if receipt.effects == [] then h else
    h.(outbox := h.outbox[h.issued := Delivery(receipt.run, receipt.effects[0])], issued := h.issued + 1)
  }

  /** A transaction, with the effects of the receipt it returned on their way. */
  function Commit(w: World, step: Step): World {
    World(Next(w.s, step),
          if step.DoRestart? then Restarted(w.h)
          else if step.DoApply? && Commits(w.s, step.input) then Issue(w.h, Dispatch(w.s, step.input).receipt)
          else w.h)
  }

  datatype Move =
    | Transact(step: Step)
    | StartSession(run: RunId)
    | LoadHistory(run: RunId)
    | CloseSession(run: RunId)
    | MakeRequest(run: RunId, kind: AskKind, approval: ApprovalId, action: ActionId, prompt: Digest, now: int)
    | ApplyEffect(k: nat)

  function Act(w: World, m: Move): World {
    match m
    case Transact(step) => Commit(w, step)
    case StartSession(r) => w.(h := w.h.(sessions := w.h.sessions[r := Session(false, None)], launched := w.h.launched + {r}))
    case LoadHistory(r) => w.(h := w.h.(sessions := w.h.sessions[r := Session(true, None)]))
    case CloseSession(r) => w.(h := Drop(w.h, r))
    case MakeRequest(r, kind, a, x, prompt, now) => Ask(w, r, kind, a, x, prompt, now)
    case ApplyEffect(k) => if k in w.h.outbox then w.(h := Deliver(w.s.t.runs, w.h, k)) else w
  }

  /** A run with a provider waits only through a request of its session, and has one session for its whole life. */
  predicate Allows(w: World, m: Move) {
    match m
    case Transact(step) => Legal(w.s, step) && (Asks(step) ==> !Driven(w.s.t.runs, step.run))
    case StartSession(r) => Driven(w.s.t.runs, r) && Working(w.s.t, r) && r !in w.h.launched
    case LoadHistory(r) => Driven(w.s.t.runs, r) && IsLoading(w.s.t, r)
    case CloseSession(r) => true
    case MakeRequest(r, kind, a, x, prompt, now) =>
      r in w.h.sessions ==>
        a !in w.s.t.gates.approvals && x !in w.s.t.gates.actions
    case ApplyEffect(k) => true
  }

  // ---------- what holds between moves ----------

  ghost predicate Owes(h: Hub, r: RunId, k: nat) {
    k in h.outbox && h.outbox[k].run == Some(r) && Replies(h.outbox[k].effect)
  }

  predicate PendingFor(approvals: Approvals, a: ApprovalId, r: RunId) {
    a in approvals && approvals[a].run == r && approvals[a].state == Pending
  }

  /** Nothing is asked of the owner about the run, and no reply is on its way. */
  ghost predicate Unasked(runs: Runs, approvals: Approvals, h: Hub, r: RunId) {
    (r in runs ==> !Awaits(runs[r].status)) && (forall a: ApprovalId :: !PendingFor(approvals, a, r)) && (forall k: nat :: !Owes(h, r, k))
  }

  /** The effect on its way is the decision on the approval that was opened for the request. */
  predicate Matches(approvals: Approvals, asked: Asked, effect: Effect) {
    match effect
    case DispatchTool => OpenedAnd(approvals, asked, Allowed)
    case RejectTool => OpenedAnd(approvals, asked, Denied)
    case ResumeInput => asked.kind == InputAsk
    case _ => true
  }

  predicate OpenedAnd(approvals: Approvals, asked: Asked, state: GateState) {
    asked.approval.Some? && asked.approval.value in approvals && approvals[asked.approval.value].state == state
  }

  /** While a request holds the slot, all that is open about the run is about that request. */
  ghost predicate Seats(runs: Runs, approvals: Approvals, h: Hub, r: RunId, q: Asked) {
    && q.run == r && (q.approval.Some? ==> q.kind == ApprovalAsk)
    && (forall k: nat, j: nat :: Owes(h, r, k) && Owes(h, r, j) ==> k == j)
    && (forall k: nat | Owes(h, r, k) :: r in runs && !Awaits(runs[r].status) && Matches(approvals, q, h.outbox[k].effect))
    && (forall a: ApprovalId | PendingFor(approvals, a, r) :: q.approval == Some(a))
    && (r in runs ==> (runs[r].status == WaitingApproval ==> q.kind == ApprovalAsk)
                      && (runs[r].status == WaitingInput ==> q.kind == InputAsk))
  }

  ghost predicate SessionHolds(runs: Runs, approvals: Approvals, h: Hub, r: RunId)
    requires r in h.sessions
  {
    var slot := h.sessions[r].slot;
    if h.sessions[r].loading then slot.None?
    else if slot.None? then r in h.launched && Unasked(runs, approvals, h, r)
    else r in h.launched && slot.value < |h.asked| && Seats(runs, approvals, h, r, h.asked[slot.value])
  }

  ghost predicate SessionsHold(runs: Runs, approvals: Approvals, h: Hub) {
    forall r | r in h.sessions :: SessionHolds(runs, approvals, h, r)
  }

  ghost predicate FreshUnasked(runs: Runs, approvals: Approvals, h: Hub) {
    forall r | Driven(runs, r) && Active(runs[r].status) && r !in h.launched :: Unasked(runs, approvals, h, r)
  }

  /** Each request is answered at most once, and not while it still holds a slot. */
  ghost predicate Once(h: Hub) {
    && (forall k :: k in h.outbox ==> k < h.issued)
    && (forall i | 0 <= i < |h.sent| :: h.sent[i].request < |h.asked|)
    && (forall i, j :: 0 <= i < j < |h.sent| ==> h.sent[i].request != h.sent[j].request)
    && (forall r, i :: HoldsRequest(h, r) && 0 <= i < |h.sent| ==> h.sent[i].request != h.sessions[r].slot.value)
  }

  /** What was accepted was allowed, what was declined was denied, and only questions were answered. */
  ghost predicate Backed(approvals: Approvals, asked: seq<Asked>, sent: seq<Sent>) {
    forall i | 0 <= i < |sent| && sent[i].request < |asked| ::
      && (sent[i].word == Accept ==> OpenedAnd(approvals, asked[sent[i].request], Allowed))
      && (sent[i].word == Decline ==> OpenedAnd(approvals, asked[sent[i].request], Denied))
      && (sent[i].word == Answered ==> asked[sent[i].request].kind == InputAsk)
  }

  ghost predicate OwedRunsExist(runs: Runs, h: Hub) {
    (forall r, k: nat :: Owes(h, r, k) ==> r in runs) && (forall r :: r in h.sessions ==> Driven(runs, r))
    && (forall r :: r in h.launched ==> r in runs)
  }

  ghost predicate Sound(w: World) {
    SessionsHold(w.s.t.runs, w.s.t.gates.approvals, w.h) && FreshUnasked(w.s.t.runs, w.s.t.gates.approvals, w.h)
    && Once(w.h) && Backed(w.s.t.gates.approvals, w.h.asked, w.h.sent) && OwedRunsExist(w.s.t.runs, w.h)
  }
}
