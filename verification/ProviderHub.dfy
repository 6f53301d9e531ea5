/** The two drivers' session maps as they run: requests and replies update them in place, next to the store. A run has
    one provider, so the two maps are held as one. */
module ProviderHubs {
  import opened Types
  import opened Rows
  import T = Transactions
  import opened Invariants
  import H = History
  import opened ProviderRequests
  import opened Decisions
  import Opening
  import opened WorkStores

  class ProviderHub {
    const store: WorkStore
    var sessions: map<RunId, Session>
    var asked: seq<Asked>
    var sent: seq<Sent>
    ghost var launched: set<RunId>
    ghost var outbox: map<nat, Delivery>
    ghost var issued: nat

    ghost function View(): World
      reads this, store
    {
      World(store.View(), Hub(sessions, launched, outbox, issued, asked, sent))
    }

    ghost predicate Valid()
      reads this, store
    {
      store.Valid() && Sound(View())
    }

    constructor (s: WorkStore)
      requires s.Valid() && s.View() == EMPTY
      ensures Valid() && store == s && View() == START
    {
      store := s;
      sessions, launched, outbox, issued, asked, sent := map[], {}, map[], 0, [], [];
      new;
      StartIsSound();
    }

    // ---------- requests ----------

    /** Answers a request that never got the slot. */
    method Refuse(r: RunId, kind: AskKind, word: Word)
      modifies this`asked, this`sent
      ensures Hub(sessions, launched, outbox, issued, asked, sent)
           == Refused(old(Hub(sessions, launched, outbox, issued, asked, sent)), r, kind, word)
    {
      sent, asked := sent + [Sent(|asked|, word)], asked + [Asked(r, kind, None)];
    }

    method DropSession(r: RunId) returns (had: bool)
      modifies this`sessions
      ensures sessions == old(sessions) - {r} && had == (r in old(sessions))
    {
      had := r in sessions;
      sessions := sessions - {r};
    }

    /** Takes the slot, then asks the store. */
    method SeatRequest(r: RunId, kind: AskKind, a: ApprovalId, x: ActionId, prompt: Digest, now: int)
      requires store.Valid() && r in sessions
      requires kind == ApprovalAsk ==>
        T.Legal(store.View(), T.DoWaitApproval(r, TaskOf(store.runs, r), a, x, now))
      modifies this`sessions, this`asked, store
      ensures View() == TakeSeat(old(store.View()), old(View().h), r, kind, a, x, prompt, now)
      ensures store.Valid()
    {
      hide Inv, H.Logged, T.WaitApproval, T.WaitInput;
      sessions := sessions[r := sessions[r].(slot := Some(|asked|))];
      if kind == InputAsk {
        asked := asked + [Asked(r, kind, None)];
        store.WaitInput(r, prompt);
        return;
      }
      var waiting := store.WaitApproval(r, TaskOf(store.runs, r), a, x, now);
      asked := asked + [Asked(r, kind, if waiting then Some(a) else None)];
    }

    /** A Codex request: handleNotice. Only approvals are counted against the budget. */
    method HandleNotice(r: RunId, kind: AskKind, a: ApprovalId, x: ActionId, prompt: Digest, now: int)
      requires Valid() && Allows(View(), MakeRequest(r, kind, a, x, prompt, now)) && !OnClaude(store.runs, r)
      modifies this, store
      ensures View() == Ask(old(View()), r, kind, a, x, prompt, now)
      ensures Valid()
    {
      hide Inv, Sound, T.BumpAction, T.WaitApproval, T.WaitInput, T.Fail, T.Next, H.Logged, TakeSeat;
      AskSound(View(), r, kind, a, x, prompt, now);
      if r !in sessions {
        return;
      }
      if sessions[r].loading {
        Refuse(r, kind, Unavailable);
        return;
      }
      if sessions[r].slot.Some? {
        Refuse(r, kind, Busy);
        return;
      }
      Opening.RecipientsOnClaude(store.Tables(), r);
      if kind == ApprovalAsk {
        Counted(store.View(), r, TaskOf(store.runs, r));
        var counted := store.BumpAction(r, TaskOf(store.runs, r));
        if !counted {
          asked := asked + [Asked(r, kind, None)];
          store.Fail(r, prompt, now);
          var _ := DropSession(r);
          ExhaustedShape(old(View().h), r, kind);
          return;
        }
      }
      SeatRequest(r, kind, a, x, prompt, now);
    }

    lemma ExhaustedShape(h: Hub, r: RunId, kind: AskKind)
      requires r in h.sessions
      ensures Exhausted(h, r, kind, false) == h.(sessions := h.sessions - {r}, asked := h.asked + [Asked(r, kind, None)])
      ensures Exhausted(h, r, kind, true)
           == h.(sessions := h.sessions - {r}, asked := h.asked + [Asked(r, kind, None)], sent := h.sent + [Sent(|h.asked|, Unavailable)])
    {
      assert h.sessions[r := h.sessions[r].(slot := Some(|h.asked|))] - {r} == h.sessions - {r};
    }

    /** A Claude request: permission. Every request is counted, and a handoff's recipient is refused. */
    method Permission(r: RunId, kind: AskKind, a: ApprovalId, x: ActionId, prompt: Digest, now: int)
      requires Valid() && Allows(View(), MakeRequest(r, kind, a, x, prompt, now)) && OnClaude(store.runs, r)
      modifies this, store
      ensures View() == Ask(old(View()), r, kind, a, x, prompt, now)
      ensures Valid()
    {
      hide Inv, Sound, T.BumpAction, T.WaitApproval, T.WaitInput, T.Fail, T.Next, H.Logged, TakeSeat;
      AskSound(View(), r, kind, a, x, prompt, now);
      if r !in sessions {
        return;
      }
      if r in store.handoffs || sessions[r].loading {
        Refuse(r, kind, Unavailable);
        return;
      }
      if sessions[r].slot.Some? {
        Refuse(r, kind, Busy);
        return;
      }
      Counted(store.View(), r, TaskOf(store.runs, r));
      var counted := store.BumpAction(r, TaskOf(store.runs, r));
      if !counted {
        Refuse(r, kind, Unavailable);
        store.Fail(r, prompt, now);
        var _ := DropSession(r);
        ExhaustedShape(old(View().h), r, kind);
        return;
      }
      SeatRequest(r, kind, a, x, prompt, now);
    }

    lemma Counted(s: State, r: RunId, k: TaskId)
      requires Inv(s.t) && k == TaskOf(s.t.runs, r)
      ensures T.OwnTask(s.t, r, k)
      ensures var u := T.BumpAction(s, r, k).s.t;
        u.gates == s.t.gates && u.flow == s.t.flow && T.OwnTask(u, r, TaskOf(u.runs, r))
    {
    }

    // ---------- replies ----------

    /** Answers the request in the slot and frees the slot. */
    method Answer(r: RunId, word: Word) returns (answered: bool)
      modifies this`sessions, this`sent
      ensures answered == HoldsRequest(old(View()).h, r)
      ensures View() == old(View()).(h := AnswerSlot(old(View()).h, r, word))
    {
      if !(r in sessions && sessions[r].slot.Some?) {
        return false;
      }
      sent := sent + [Sent(sessions[r].slot.value, word)];
      sessions := sessions[r := sessions[r].(slot := None)];
      return true;
    }

    /** Claude's callback for one kind of request, if it is the one in place. */
    method AnswerOf(r: RunId, kind: AskKind, word: Word)
      modifies this`sessions, this`sent
      ensures View() == old(View()).(h := AnswerKind(old(View()).h, r, kind, word))
    {
      if r in sessions && sessions[r].slot.Some? && sessions[r].slot.value < |asked| && asked[sessions[r].slot.value].kind == kind {
        var _ := Answer(r, word);
      }
    }

    method ResolveCodex(r: RunId, effect: Effect)
      modifies this`sessions, this`sent
      ensures View() == old(View()).(h := CodexTakes(old(View()).h, r, effect))
    {
      match effect
      case DispatchTool => var _ := Answer(r, Accept);
      case RejectTool =>
        var answered := Answer(r, Decline);
        if answered {
          var _ := DropSession(r);
        }
      case ResumeInput => var _ := Answer(r, Answered);
      case _ =>
    }

    method ResolveClaude(r: RunId, effect: Effect)
      modifies this`sessions, this`sent
      ensures View() == old(View()).(h := ClaudeTakes(old(View()).h, r, effect))
    {
      match effect
      case DispatchTool => AnswerOf(r, ApprovalAsk, Accept);
      case RejectTool =>
        AnswerOf(r, ApprovalAsk, Decline);
        var _ := DropSession(r);
      case ResumeInput => AnswerOf(r, InputAsk, Answered);
      case _ =>
    }

    /** One effect of a committed receipt, applied whenever it arrives. */
    method ApplyEffect(d: Delivery, ghost k: nat)
      requires Valid() && k in outbox && outbox[k] == d
      modifies this
      ensures View() == Act(old(View()), MoveOf(k))
      ensures Valid()
    {
      hide Inv, Sound, H.Logged, CodexTakes, ClaudeTakes;
      ApplyEffectSound(View(), k);
      outbox := outbox - {k};
      if d.effect.InterruptProvider? {
        if d.run.Some? {
          var _ := DropSession(d.run.value);
        } else {
          sessions := map[];
        }
      } else if d.run.Some? && d.run.value in store.runs {
        var provider := store.runs[d.run.value].provider;
        if provider == Claude {
          ResolveClaude(d.run.value, d.effect);
        } else if provider == Codex {
          ResolveCodex(d.run.value, d.effect);
        }
      }
    }

    ghost function MoveOf(k: nat): Move {
      Move.ApplyEffect(k)
    }
  }
}
