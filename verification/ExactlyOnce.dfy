/** Retrying a command over an unreliable network, against an idempotent store, is exactly-once, as long as setup is
    acknowledged only while the client is idle; and it is not when setup is acknowledged in the middle. */
module ExactlyOnce {
  import opened Types
  import opened Rows
  import opened Transactions
  import opened Replays
  import opened ClientCommands
  import G = Guarantees

  lemma TakeOffSound(w: World, f: Flight)
    requires Sound(w) && !w.c.busy && !f.Calling?
    ensures Sound(TakeOff(w, f))
  {
    hide OthersResolved, AcceptedOnce;
    ResolvedSame(w.c, TakeOff(w, f).c);
    AcceptedSame(w.c, TakeOff(w, f).c);
    assert w.c.next in TakeOff(w, f).c.flights;
  }

  lemma DispatchSound(w: World)
    requires Sound(w)
    ensures Sound(DispatchCommand(w))
  {
    hide OthersResolved, AcceptedOnce, Faithful, Recorded, CommittedOnce;
    var v := DispatchCommand(w);
    ResolvedSame(w.c, v.c);
    AcceptedSame(w.c, v.c);
    DispatchFlight(w);
    hide OneFlight, Numbered, KeysFresh;
    FaithfulSent(w, v);
    CommitsSent(w);
  }

  lemma DispatchFlight(w: World)
    requires OneFlight(w.c) && Numbered(w) && KeysFresh(w)
    ensures var v := DispatchCommand(w); OneFlight(v.c) && Numbered(v) && KeysFresh(v)
  {
    assert w.c.retry.Some? && !w.c.busy ==> w.c.next in DispatchCommand(w).c.flights;
  }

  lemma CommitsSent(w: World)
    requires CommittedOnce(w)
    ensures CommittedOnce(DispatchCommand(w))
  {
  }

  lemma FaithfulSent(w: World, v: World)
    requires Faithful(w) && v.s == w.s && v.answers == w.answers && v.c.receipts == w.c.receipts
      && v.c.issued == w.c.issued
    requires forall f :: f in w.sent ==> f in v.sent && v.sent[f] == w.sent[f]
    ensures Faithful(v)
  {
    hide Recorded;
  }

  lemma IssueSound(w: World, call: Call)
    requires Sound(w) && w.c.retry.None? && call.key !in w.s.commands && call.key !in w.c.issued
    ensures Sound(w.(c := w.c.(retry := Some(call), issued := w.c.issued + [call.key])))
  {
    var c := w.c.(retry := Some(call), issued := w.c.issued + [call.key]);
    assert forall i :: 0 <= i < |c.accepted| ==> c.accepted[i] in c.receipts;
    forall i | 0 <= i < |c.accepted| ensures c.accepted[i].key != call.key {
      assert w.c.accepted[i] in w.c.receipts;
      var j :| 0 <= j < |w.c.receipts| && w.c.receipts[j] == w.c.accepted[i];
    }
    forall k | k in c.issued && k !in c.dropped && k != call.key ensures Answered(c, k) {
      assert Answered(w.c, k);
    }
  }

  lemma AnsweredLater(c: Client, d: Client, k: Key)
    requires Answered(c, k) && c.receipts <= d.receipts
    ensures Answered(d, k)
  {
    var i :| 0 <= i < |c.receipts| && c.receipts[i].key == k;
    assert d.receipts[i] == c.receipts[i];
  }

  lemma GiveUpSound(w: World, f: nat)
    requires Sound(w) && f in w.c.flights && w.c.flights[f].Calling?
    ensures Sound(Land(w.(c := GiveUp(w.c, w.c.flights[f].call)), f))
  {
    var call, d := w.c.flights[f].call, GiveUp(w.c, w.c.flights[f].call);
    forall k | k in d.issued && k !in d.dropped ensures Answered(d, k) {
      assert Answered(w.c, k);
    }
  }

  lemma LandSound(w: World, f: nat)
    requires Sound(w) && f in w.c.flights
    ensures Sound(Land(w, f))
  {
    var d := Land(w, f).c;
    forall k | k in d.issued && k !in d.dropped && !(d.retry.Some? && d.retry.value.key == k) ensures Answered(d, k) {
      AnsweredLater(w.c, d, k);
    }
  }

  /** A receipt resolves the command kept for retrying, and no other. */
  lemma ReceiptResolves(w: World, f: nat, receipt: Receipt)
    requires Sound(w) && f in w.c.flights && w.c.flights[f].Calling? && (f, Returned(receipt)) in w.answers
    ensures var call := w.c.flights[f].call; Recorded(w.s, call.key, receipt) && call.key in w.c.issued
    ensures OthersResolved(w.c.(retry := None, receipts := w.c.receipts + [Seen(w.c.flights[f].call.key, receipt)]))
  {
    var call := w.c.flights[f].call;
    var d := w.c.(retry := None, receipts := w.c.receipts + [Seen(call.key, receipt)]);
    assert (f, Returned(receipt)).0 == f;
    assert d.receipts[|w.c.receipts|].key == call.key;
    forall k | k in d.issued && k !in d.dropped ensures Answered(d, k) {
      if k != call.key {
        AnsweredLater(w.c, d, k);
      }
    }
  }

  lemma AcceptedGrows(c: Client, call: Call, receipt: Receipt)
    requires AcceptedOnce(c) && c.retry == Some(call) && receipt.accepted
    ensures AcceptedOnce(c.(retry := None, receipts := c.receipts + [Seen(call.key, receipt)], accepted := c.accepted + [Seen(call.key, receipt)]))
  {
  }

  lemma ReceiptSound(w: World, f: nat, receipt: Receipt)
    requires Sound(w) && f in w.c.flights && w.c.flights[f].Calling? && (f, Returned(receipt)) in w.answers
    ensures Sound(Resume(w, f, w.c.flights[f].call, Got(Returned(receipt))))
  {
    hide OthersResolved, AcceptedOnce, CommittedOnce, SameReceipt;
    var call, v := w.c.flights[f].call, Resume(w, f, w.c.flights[f].call, Got(Returned(receipt)));
    ReceiptResolves(w, f, receipt);
    ResolvedSame(w.c.(retry := None, receipts := w.c.receipts + [Seen(call.key, receipt)]), v.c);
    if receipt.accepted {
      AcceptedGrows(w.c, call, receipt);
    } else {
      AcceptedMore(w.c, call, receipt);
    }
    AcceptedSame(if receipt.accepted
                 then w.c.(retry := None, receipts := w.c.receipts + [Seen(call.key, receipt)], accepted := w.c.accepted + [Seen(call.key, receipt)])
                 else w.c.(retry := None, receipts := w.c.receipts + [Seen(call.key, receipt)]), v.c);
    CommitsSame(w, v);
  }

  lemma AcceptedMore(c: Client, call: Call, receipt: Receipt)
    requires AcceptedOnce(c)
    ensures AcceptedOnce(c.(retry := None, receipts := c.receipts + [Seen(call.key, receipt)]))
  {
  }

  lemma AcceptedSame(c: Client, d: Client)
    requires AcceptedOnce(c) && d.accepted == c.accepted && d.receipts == c.receipts && d.retry == c.retry
    ensures AcceptedOnce(d)
  {
  }

  lemma ResolvedSame(c: Client, d: Client)
    requires OthersResolved(c) && d.issued == c.issued && d.receipts == c.receipts && d.retry == c.retry
      && d.dropped == c.dropped
    ensures OthersResolved(d)
  {
    forall k | k in d.issued && k !in d.dropped && !(d.retry.Some? && d.retry.value.key == k) ensures Answered(d, k) {
      AnsweredLater(c, d, k);
    }
  }

  lemma CommitsSame(w: World, v: World)
    requires CommittedOnce(w) && v.s == w.s && v.sent == w.sent && v.commits == w.commits && v.c.issued == w.c.issued
    requires v.c.retry == w.c.retry || v.c.retry.None?
    ensures CommittedOnce(v)
  {
  }

  // ---------- the server's side ----------

  lemma RecordedLater(s: State, u: State, key: Key, receipt: Receipt)
    requires Recorded(s, key, receipt) && OnlyAdds(s, u)
    ensures Recorded(u, key, receipt)
  {
  }

  lemma FaithfulLater(w: World, v: World)
    requires Faithful(w) && OnlyAdds(w.s, v.s) && v.c == w.c && v.sent == w.sent
    ensures Faithful(v.(answers := w.answers))
  {
    hide Recorded, OnlyAdds;
    forall a | a in w.answers && a.1.Returned? ensures a.0 in w.sent && Recorded(v.s, w.sent[a.0].key, a.1.receipt) {
      RecordedLater(w.s, v.s, w.sent[a.0].key, a.1.receipt);
    }
    forall i | 0 <= i < |w.c.receipts| ensures Recorded(v.s, w.c.receipts[i].key, w.c.receipts[i].receipt) {
      RecordedLater(w.s, v.s, w.c.receipts[i].key, w.c.receipts[i].receipt);
    }
  }

  lemma AnswerRecorded(s: State, input: Input)
    requires Respond(s, input).Returned?
    ensures Recorded(Apply(s, input), input.key, Respond(s, input).receipt)
  {
    hide Dispatch;
  }

  lemma ServeSound(w: World, f: nat, input: Input)
    requires Sound(w) && Allows(w, Serves(f, input))
    ensures Sound(Act(w, Serves(f, input)))
  {
    hide Apply, Respond, OthersResolved, OneFlight, AcceptedOnce, Recorded, OnlyAdds;
    var v := Act(w, Serves(f, input));
    ServeGrows(w.s, input);
    FaithfulLater(w, v);
    if Respond(w.s, input).Returned? {
      AnswerRecorded(w.s, input);
    }
    ServeCommits(w, f, input);
  }

  lemma ServeGrows(s: State, input: Input)
    ensures OnlyAdds(s, Apply(s, input))
  {
    hide Apply;
    NextKeepsCommands(s, DoApply(input));
    assert Next(s, DoApply(input)) == Apply(s, input);
  }

  lemma ApplyRecords(s: State, input: Input)
    ensures var u := Apply(s, input);
      if Commits(s, input) then u.commands.Keys == s.commands.Keys + {input.key} && u.commands[input.key].command == input.command
                                && input.key !in s.commands && forall k :: k in s.commands ==> u.commands[k] == s.commands[k]
      else u == s
  {
    hide Dispatch;
    DispatchKeepsCommands(s, input);
  }

  lemma ServeCommits(w: World, f: nat, input: Input)
    requires KeysFresh(w) && CommittedOnce(w) && Allows(w, Serves(f, input))
    ensures CommittedOnce(Act(w, Serves(f, input)))
  {
    hide Apply, Respond;
    ApplyRecords(w.s, input);
  }

  lemma OtherSound(w: World, step: Step)
    requires Sound(w) && Allows(w, Others(step))
    ensures Sound(Act(w, Others(step)))
  {
    hide Next, OthersResolved, OneFlight, AcceptedOnce, Recorded, KeysFresh, Numbered;
    NextKeepsCommands(w.s, step);
    FaithfulLater(w, Act(w, Others(step)));
    OtherCommits(w, step);
    hide Faithful, CommittedOnce;
    FreshSame(w, Act(w, Others(step)));
  }

  lemma FreshSame(w: World, v: World)
    requires KeysFresh(w) && Numbered(w) && v.c == w.c && v.sent == w.sent
    ensures KeysFresh(v) && Numbered(v)
  {
  }

  lemma OtherCommits(w: World, step: Step)
    requires KeysFresh(w) && CommittedOnce(w) && Allows(w, Others(step)) && OnlyAdds(w.s, Next(w.s, step))
    requires forall key :: key in Next(w.s, step).commands ==> key in w.s.commands || (step.DoApply? && key == step.input.key)
    ensures CommittedOnce(Act(w, Others(step)))
  {
    hide Next;
  }

  // ---------- every run ----------

  lemma FinishSound(w: World, f: nat, result: Result)
    requires Sound(w) && Allows(w, Finishes(f, result))
    ensures Sound(Act(w, Finishes(f, result)))
  {
    hide Sound;
    if !w.c.flights[f].Calling? {
      LandSound(w, f);
    } else {
      match result
      case Lost => LandSound(w, f);
      case SignedOut => GiveUpSound(w, f);
      case Got(Thrown(Forbidden)) => GiveUpSound(w, f);
      case Got(Thrown(_)) => LandSound(w, f);
      case Got(Returned(receipt)) => ReceiptSound(w, f, receipt);
    }
  }

  lemma ActSound(w: World, m: Move)
    requires Sound(w) && Allows(w, m) && SetupAlone(w, m)
    ensures Sound(Act(w, m))
  {
    hide Sound, Apply, Respond, Next, Resume;
    match m
    case Sends(call) =>
      if w.c.retry.None? {
        IssueSound(w, call);
        DispatchSound(w.(c := w.c.(retry := Some(call), issued := w.c.issued + [call.key])));
      }
    case Retries => DispatchSound(w);
    case Checks =>
      if !w.c.busy {
        TakeOffSound(w, Checking);
      }
    case Acknowledges => TakeOffSound(w, Acknowledging);
    case Finishes(f, result) => FinishSound(w, f, result);
    case Serves(f, input) => ServeSound(w, f, input);
    case Others(step) => OtherSound(w, step);
  }

  ghost function Play(w: World, moves: seq<Move>): World
    requires AllowsAll(w, moves)
    decreases |moves|
  {
    if moves == [] then w else Play(Act(w, moves[0]), moves[1..])
  }

  ghost predicate AllowsAll(w: World, moves: seq<Move>)
    decreases |moves|
  {
    moves == [] || (Allows(w, moves[0]) && AllowsAll(Act(w, moves[0]), moves[1..]))
  }

  /** Setup was never acknowledged while something else was under way. */
  ghost predicate NeverInterrupted(w: World, moves: seq<Move>)
    requires AllowsAll(w, moves)
    decreases |moves|
  {
    moves == [] || (SetupAlone(w, moves[0]) && NeverInterrupted(Act(w, moves[0]), moves[1..]))
  }

  const IDLE := World(EMPTY, Client(false, None, map[], 0, [], [], [], []), map[], {}, [])

  lemma {:induction false} PlaySound(w: World, moves: seq<Move>)
    requires Sound(w) && AllowsAll(w, moves) && NeverInterrupted(w, moves)
    ensures Sound(Play(w, moves))
    decreases |moves|
  {
    hide Sound, Act, Allows, SetupAlone;
    if moves != [] {
      ActSound(w, moves[0]);
      PlaySound(Act(w, moves[0]), moves[1..]);
    }
  }

  /** Over every run: a key commits at most once; every receipt seen for it is the committed one or its replay, with the
      same identifiers; onAccepted ran at most once for it, after the commit; and all commands but the one kept for
      retrying were answered or given up. */
  lemma RetryIsExactlyOnce(moves: seq<Move>)
    requires AllowsAll(IDLE, moves) && NeverInterrupted(IDLE, moves)
    ensures var w := Play(IDLE, moves);
      && (forall i, j :: 0 <= i < j < |w.commits| ==> w.commits[i] != w.commits[j])
      && (forall i | 0 <= i < |w.c.receipts| :: Recorded(w.s, w.c.receipts[i].key, w.c.receipts[i].receipt))
      && (forall i, j :: 0 <= i < j < |w.c.accepted| ==> w.c.accepted[i].key != w.c.accepted[j].key)
      && (forall i | 0 <= i < |w.c.accepted| :: w.c.accepted[i].key in w.commits && w.c.accepted[i] in w.c.receipts)
      && OthersResolved(w.c)
  {
    hide Play, AllowsAll, NeverInterrupted, Recorded, OthersResolved;
    IdleSound();
    PlaySound(IDLE, moves);
    var w := Play(IDLE, moves);
    forall i | 0 <= i < |w.c.accepted| ensures w.c.accepted[i].key in w.commits && w.c.accepted[i] in w.c.receipts {
      var j :| 0 <= j < |w.c.receipts| && w.c.receipts[j] == w.c.accepted[i];
      RecordedKnown(w.s, w.c.receipts[j].key, w.c.receipts[j].receipt);
    }
  }

  lemma RecordedKnown(s: State, key: Key, receipt: Receipt)
    requires Recorded(s, key, receipt)
    ensures key in s.commands
  {
  }

  lemma IdleSound()
    ensures Sound(IDLE)
  {
  }

  /** Two receipts seen for one key name the same command, task, run, approval and handoff. */
  lemma ReceiptsAgree(w: World, i: nat, j: nat)
    requires Sound(w) && i < |w.c.receipts| && j < |w.c.receipts| && w.c.receipts[i].key == w.c.receipts[j].key
    ensures var a, b := w.c.receipts[i].receipt, w.c.receipts[j].receipt;
      (a.command, a.accepted, a.denial, a.task, a.run, a.approval, a.handoff)
      == (b.command, b.accepted, b.denial, b.task, b.run, b.approval, b.handoff)
  {
    hide OthersResolved, OneFlight, Numbered, KeysFresh, CommittedOnce, AcceptedOnce;
  }

  /** While a command is kept for retrying no other is sent, whatever is called. */
  lemma NoSecondCommand(w: World, m: Move)
    requires Sound(w) && Allows(w, m) && SetupAlone(w, m) && w.c.retry.Some?
    ensures var v := Act(w, m);
      v.c.issued == w.c.issued && forall f :: f in v.sent && f !in w.sent ==> v.sent[f] == w.c.retry.value
  {
    hide Apply, Respond, Next;
  }

  // ---------- when setup is acknowledged in the middle ----------

  /** Besides leaving setup alone while busy, the page stays signed in and the store is called as the daemon calls it. */
  predicate Fair(w: World, m: Move) {
    && SetupAlone(w, m)
    && (m.Finishes? ==> m.result != SignedOut && m.result != Got(Thrown(Forbidden)))
    && (m.Serves? ==> m.input.owner && Legal(w.s, DoApply(m.input)))
    && (m.Others? ==> Legal(w.s, m.step))
  }

  ghost predicate FairAll(w: World, moves: seq<Move>)
    requires AllowsAll(w, moves)
    decreases |moves|
  {
    moves == [] || (Fair(w, moves[0]) && FairAll(Act(w, moves[0]), moves[1..]))
  }

  lemma PlayFirst(w: World, m: Move, rest: seq<Move>)
    requires Allows(w, m) && AllowsAll(Act(w, m), rest)
    ensures AllowsAll(w, [m] + rest) && Play(w, [m] + rest) == Play(Act(w, m), rest)
    ensures Fair(w, m) && FairAll(Act(w, m), rest) ==> FairAll(w, [m] + rest)
  {
    hide Act, Allows, Fair;
    assert ([m] + rest)[1..] == rest;
  }

  lemma {:induction false} FairIsNeverInterrupted(w: World, moves: seq<Move>)
    requires AllowsAll(w, moves) && FairAll(w, moves)
    ensures NeverInterrupted(w, moves)
    decreases |moves|
  {
    hide Act, Allows;
    if moves != [] {
      FairIsNeverInterrupted(Act(w, moves[0]), moves[1..]);
    }
  }

  lemma PlayTwo(w: World, m: Move, n: Move)
    requires Allows(w, m) && Allows(Act(w, m), n)
    ensures AllowsAll(w, [m, n]) && Play(w, [m, n]) == Act(Act(w, m), n)
    ensures Fair(w, m) && Fair(Act(w, m), n) ==> FairAll(w, [m, n])
  {
    hide Act, Allows, Fair, AllowsAll, Play, FairAll;
    var v := Act(Act(w, m), n);
    assert [m] + [n] == [m, n] && [n] + [] == [n];
    PlayNothing(v);
    PlayFirst(Act(w, m), n, []);
    PlayFirst(w, m, [n]);
  }

  lemma PlayThree(w: World, m: Move, n: Move, o: Move)
    requires Allows(w, m) && Allows(Act(w, m), n) && Allows(Act(Act(w, m), n), o)
    ensures AllowsAll(w, [m, n, o]) && Play(w, [m, n, o]) == Act(Act(Act(w, m), n), o)
    ensures Fair(w, m) && Fair(Act(w, m), n) && Fair(Act(Act(w, m), n), o) ==> FairAll(w, [m, n, o])
  {
    hide Act, Allows, Fair, AllowsAll, Play, FairAll;
    PlayTwo(Act(w, m), n, o);
    PlayFirst(w, m, [n, o]);
    assert [m] + [n, o] == [m, n, o];
  }

  /** The call f of a Calling flight, retried while it is still under way: the second copy of it. */
  predicate Doubled(w: World, f: nat, g: nat, call: Call) {
    f != g && f in w.c.flights && g in w.c.flights && w.c.flights[f] == Calling(call) == w.c.flights[g]
    && f in w.sent && g in w.sent && w.sent[f] == call == w.sent[g]
  }

  /** Acknowledging setup clears busy when it ends, so the same command can be retried while it is under way. */
  lemma SetupDoubles(w: World, f: nat) returns (moves: seq<Move>, g: nat)
    requires Sound(w) && f in w.c.flights && w.c.flights[f].Calling?
    ensures AllowsAll(w, moves) && moves != [] && moves[0] == Acknowledges
    ensures var v := Play(w, moves); v.s == w.s && v.c.accepted == w.c.accepted && Doubled(v, f, g, w.c.flights[f].call)
  {
    hide OthersResolved, KeysFresh, CommittedOnce, Faithful, AcceptedOnce;
    var a := w.c.next;
    g := a + 1;
    var w1 := Act(w, Acknowledges);
    var w2 := Act(w1, Finishes(a, Lost));
    var w3 := Act(w2, Retries);
    assert Doubled(w3, f, g, w.c.flights[f].call);
    hide Sound, AllowsAll, Play, FairAll;
    moves := [Acknowledges, Finishes(a, Lost), Retries];
    PlayThree(w, Acknowledges, Finishes(a, Lost), Retries);
  }

  /** Both copies come back accepted: the second as a replay of the first. */
  lemma DoubledAcceptsTwice(w: World, f: nat, g: nat, input: Input, repeat: Input) returns (moves: seq<Move>)
    requires f in w.c.flights && w.c.flights[f].Calling? && Doubled(w, f, g, w.c.flights[f].call)
    requires Call(input.key, input.command) == w.c.flights[f].call == Call(repeat.key, repeat.command) && repeat.owner
    requires Respond(w.s, input).Returned? && Respond(w.s, input).receipt.accepted
    ensures AllowsAll(w, moves)
    ensures Legal(w.s, DoApply(input)) && Legal(Apply(w.s, input), DoApply(repeat)) ==> FairAll(w, moves)
    ensures var v := Play(w, moves);
      exists i, j :: 0 <= i < j < |v.c.accepted| && v.c.accepted[i].key == v.c.accepted[j].key == input.key
  {
    hide Apply, Respond, AllowsAll, Play, FairAll, Legal, Recorded;
    var first, again := Respond(w.s, input), Respond(Apply(w.s, input), repeat);
    var w2 := Act(Act(w, Serves(f, input)), Serves(g, repeat));
    OwnerAnswered(w.s, input);
    RepeatAccepted(w.s, input, repeat);
    BothAnswered(w2, f, g, first, again);
    PlayTwo(w, Serves(f, input), Serves(g, repeat));
    PlayTwo(w2, Finishes(f, Got(first)), Finishes(g, Got(again)));
    moves := [Serves(f, input), Serves(g, repeat)] + [Finishes(f, Got(first)), Finishes(g, Got(again))];
    PlayAll(w, [Serves(f, input), Serves(g, repeat)], [Finishes(f, Got(first)), Finishes(g, Got(again))]);
  }

  lemma RepeatAccepted(s: State, input: Input, repeat: Input)
    requires Respond(s, input).Returned? && Respond(s, input).receipt.accepted && repeat.owner
    requires repeat.key == input.key && repeat.command == input.command
    ensures var again := Respond(Apply(s, input), repeat); again.Returned? && again.receipt.accepted
  {
    ReplayedForever(s, input, [], repeat);
    hide Apply, Respond, Next;
    assert Exec(Apply(s, input), []) == Apply(s, input);
  }

  lemma BothAnswered(w: World, f: nat, g: nat, first: Reply, again: Reply)
    requires f in w.c.flights && w.c.flights[f].Calling? && Doubled(w, f, g, w.c.flights[f].call)
    requires first.Returned? && first.receipt.accepted && again.Returned? && again.receipt.accepted
    requires (f, first) in w.answers && (g, again) in w.answers
    ensures Allows(w, Finishes(f, Got(first))) && Allows(Act(w, Finishes(f, Got(first))), Finishes(g, Got(again)))
    ensures var v := Act(Act(w, Finishes(f, Got(first))), Finishes(g, Got(again)));
      exists i, j :: 0 <= i < j < |v.c.accepted|
        && v.c.accepted[i].key == v.c.accepted[j].key == w.c.flights[f].call.key
  {
    var call, n := w.c.flights[f].call, |w.c.accepted|;
    var v := Act(Act(w, Finishes(f, Got(first))), Finishes(g, Got(again)));
    assert v.c.accepted == w.c.accepted + [Seen(call.key, first.receipt), Seen(call.key, again.receipt)];
    assert v.c.accepted[n].key == v.c.accepted[n + 1].key;
  }

  lemma PlayNothing(w: World)
    ensures AllowsAll(w, []) && Play(w, []) == w && FairAll(w, [])
  {
  }

  lemma {:induction false} PlayAll(w: World, first: seq<Move>, rest: seq<Move>)
    requires AllowsAll(w, first) && AllowsAll(Play(w, first), rest)
    ensures AllowsAll(w, first + rest) && Play(w, first + rest) == Play(Play(w, first), rest)
    ensures FairAll(w, first) && FairAll(Play(w, first), rest) ==> FairAll(w, first + rest)
    decreases |first|
  {
    hide Act, Allows, Fair;
    if first == [] {
      assert first + rest == rest;
    } else {
      PlayAll(Act(w, first[0]), first[1..], rest);
      assert (first + rest)[1..] == first[1..] + rest;
    }
  }

  /** When a call is under way that the store would accept, it is that very command whose onAccepted can run twice. */
  lemma InterruptedAcceptsTwice(w: World, f: nat, input: Input) returns (moves: seq<Move>)
    requires Sound(w) && f in w.c.flights && w.c.flights[f].Calling?
      && Call(input.key, input.command) == w.c.flights[f].call
    requires Respond(w.s, input).Returned? && Respond(w.s, input).receipt.accepted
    ensures AllowsAll(w, moves) && moves != [] && moves[0] == Acknowledges
    ensures var v := Play(w, moves);
      exists i, j :: 0 <= i < j < |v.c.accepted| && v.c.accepted[i].key == v.c.accepted[j].key == input.key
  {
    hide Sound, Act, Allows, Play, AllowsAll, FairAll, Apply, Legal;
    var first, g := SetupDoubles(w, f);
    OwnerAnswered(w.s, input);
    hide Respond;
    var rest := DoubledAcceptsTwice(Play(w, first), f, g, input, input);
    PlayAll(w, first, rest);
    moves := first + rest;
  }

  lemma OwnerAnswered(s: State, input: Input)
    ensures Respond(s, input).Returned? ==> input.owner
  {
    hide Dispatch;
  }

  // ---------- whatever keeps the client busy ----------

  /** A number above all of the given ones. */
  lemma {:induction false} Above(ids: set<nat>) returns (k: nat)
    ensures forall x :: x in ids ==> x < k
  {
    if ids == {} {
      k := 0;
    } else {
      var x :| x in ids;
      var below := Above(ids - {x});
      k := if below <= x then x + 1 else below;
      forall y | y in ids ensures y < k {
        assert y == x || y in ids - {x};
      }
    }
  }

  lemma FreshKey(w: World) returns (key: Key)
    ensures key !in w.s.commands && key !in w.c.issued
  {
    var used := set k | k in w.c.issued;
    key := Above(w.s.commands.Keys + used);
    assert forall k :: k in w.c.issued ==> k in used;
  }

  /** The daemon can always serve a call. */
  lemma CallInput(s: State, call: Call) returns (input: Input)
    ensures Legal(s, DoApply(input)) && input.owner && !input.fault && Call(input.key, input.command) == call
  {
    var k := Above(s.t.tasks.Keys);
    var r := Above(s.t.runs.Keys);
    var x := Above(s.t.gates.actions.Keys);
    var h := Above(s.t.flow.handoffs.Keys);
    var rows := G.Listing(ActiveRuns(s.t));
    input := Input(true, 0, Cli, call.key, call.command, 0, Fake, Ids(0, k, r, x, h), rows, true, false);
  }

  /** Stop-all is always accepted. */
  lemma StopAccepted(s: State, input: Input)
    requires input.owner && !input.fault && input.command == StopAll && input.key !in s.commands
    ensures Respond(s, input).Returned? && Respond(s, input).receipt.accepted
  {
    hide CancelEach, DropAllApprovals, FailLoads;
  }

  /** What is under way when setup is acknowledged is left behind: not busy, nothing kept, one flight still to land. */
  predicate Adrift(w: World, f: nat) {
    && !w.c.busy && w.c.retry.None? && w.c.flights.Keys == {f} && f < w.c.next
    && (forall g :: g in w.sent ==> g < w.c.next)
  }

  /** The same with a command kept for retrying. */
  predicate Laden(w: World, f: nat) {
    Adrift(w.(c := w.c.(retry := None)), f) && w.c.retry.Some? && CommittedOnce(w)
  }

  /** Setup ends and clears busy. */
  lemma SetupLands(w: World, f: nat)
    requires OneFlight(w.c) && Numbered(w) && CommittedOnce(w) && f in w.c.flights
    ensures var v, setup := Act(w, Acknowledges), Finishes(w.c.next, Lost);
      Allows(v, setup) && (if w.c.retry.None? then Adrift(Act(v, setup), f) else Laden(Act(v, setup), f))
  {
    var v := Act(Act(w, Acknowledges), Finishes(w.c.next, Lost));
    assert Act(w, Acknowledges).c.flights - {w.c.next} == w.c.flights;
    assert v == w.(c := w.c.(busy := false, next := w.c.next + 1));
    assert w.c.flights.Keys == {f};
    KeptCommits(w, v);
  }

  lemma KeptCommits(w: World, v: World)
    requires CommittedOnce(w) && v == w.(c := v.c) && v.c.issued == w.c.issued && v.c.retry == w.c.retry
    ensures CommittedOnce(v)
  {
  }

  /** A command kept for retrying is sent again, served, and let go by its answer. */
  lemma KeptServed(w: World, f: nat, input: Input)
    requires Laden(w, f) && Call(input.key, input.command) == w.c.retry.value && input.owner && !input.fault
    ensures var w1, n := Act(w, Retries), Serves(w.c.next, input);
      Allows(w1, n)
      && var w2, reply := Act(w1, n), Finishes(w.c.next, Got(Respond(w.s, input)));
         Allows(w2, reply)
         && var w3, last := Act(w2, reply), Finishes(w.c.next, Lost);
            Adrift(w3, f) || (Allows(w3, last) && Adrift(Act(w3, last), f))
  {
    hide Apply;
    KeptReturns(w, input);
    hide Respond;
    var g := w.c.next;
    var w2 := Act(Act(w, Retries), Serves(g, input));
    assert w2.c.flights == w.c.flights[g := Calling(w.c.retry.value)] && w2.c.flights - {g} == w.c.flights;
    var w3 := Act(w2, Finishes(g, Got(Respond(w.s, input))));
    assert w3.c.flights - {g} == w.c.flights;
  }

  lemma KeptReturns(w: World, input: Input)
    requires CommittedOnce(w) && w.c.retry == Some(Call(input.key, input.command)) && input.owner && !input.fault
    ensures Respond(w.s, input).Returned?
  {
    hide Dispatch;
  }

  lemma KeptFair(w: World, w1: World, w2: World, w3: World, g: nat, input: Input)
    requires w1.s == w.s && input.owner && Legal(w.s, DoApply(input)) && Respond(w.s, input).Returned?
    ensures Fair(w, Retries) && Fair(w1, Serves(g, input)) && Fair(w3, Finishes(g, Lost))
    ensures Fair(w2, Finishes(g, Got(Respond(w.s, input))))
  {
    hide Legal, Respond;
  }

  lemma KeptAnswered(w: World, f: nat) returns (moves: seq<Move>)
    requires Laden(w, f)
    ensures AllowsAll(w, moves) && FairAll(w, moves) && Adrift(Play(w, moves), f)
  {
    var g := w.c.next;
    var input := CallInput(w.s, w.c.retry.value);
    KeptServed(w, f, input);
    KeptReturns(w, input);
    assert Act(w, Retries).s == w.s;
    hide Laden, Adrift, AllowsAll, Play, FairAll, Fair, Act, Allows, Respond, Legal;
    var reply := Finishes(g, Got(Respond(w.s, input)));
    var w1 := Act(w, Retries);
    var w2 := Act(w1, Serves(g, input));
    var w3 := Act(w2, reply);
    KeptFair(w, w1, w2, w3, g, input);
    PlayThree(w, Retries, Serves(g, input), reply);
    moves := [Retries, Serves(g, input), reply];
    var v := Play(w, moves);
    if !Adrift(v, f) {
      PlayNothing(Act(v, Finishes(g, Lost)));
      PlayFirst(v, Finishes(g, Lost), []);
      PlayAll(w, moves, [Finishes(g, Lost)] + []);
      moves := moves + ([Finishes(g, Lost)] + []);
    }
  }

  lemma SetupStrands(w: World, f: nat) returns (moves: seq<Move>)
    requires OneFlight(w.c) && Numbered(w) && CommittedOnce(w) && f in w.c.flights
    ensures AllowsAll(Act(w, Acknowledges), moves) && FairAll(Act(w, Acknowledges), moves)
    ensures Adrift(Play(Act(w, Acknowledges), moves), f)
  {
    var w1, setup := Act(w, Acknowledges), Finishes(w.c.next, Lost);
    SetupLands(w, f);
    var w2 := Act(w1, setup);
    hide Laden, Adrift, AllowsAll, Play, FairAll, Act, Allows;
    if w.c.retry.None? {
      PlayNothing(w2);
      moves := [];
    } else {
      moves := KeptAnswered(w2, f);
    }
    PlayFirst(w1, setup, moves);
    moves := [setup] + moves;
  }

  /** The flight left behind clears busy when it lands, in the middle of the next command. */
  lemma StrandedLands(w: World, f: nat, call: Call)
    requires !w.c.busy && w.c.retry.None? && w.c.flights.Keys == {f} && f < w.c.next
    requires call.key !in w.s.commands && call.key !in w.c.issued
    ensures var m, n := Sends(call), Finishes(f, Lost);
      && Allows(w, m) && Allows(Act(w, m), n)
      && var v := Act(Act(w, m), n);
         v.s == w.s && v.c.accepted == w.c.accepted && !v.c.busy && v.c.retry == Some(call)
         && v.c.next == w.c.next + 1 && v.c.flights == map[w.c.next := Calling(call)] && v.sent == w.sent[w.c.next := call]
  {
    var v := SendCommand(w, call);
    assert f in v.c.flights && v.c.flights - {f} == map[w.c.next := Calling(call)];
  }

  /** So the command is sent twice. */
  lemma StrandedDoubles(w: World, f: nat, call: Call) returns (moves: seq<Move>)
    requires !w.c.busy && w.c.retry.None? && w.c.flights.Keys == {f} && f < w.c.next
    requires call.key !in w.s.commands && call.key !in w.c.issued
    ensures AllowsAll(w, moves) && FairAll(w, moves)
    ensures var v := Play(w, moves);
      v.s == w.s && v.c.accepted == w.c.accepted && Doubled(v, w.c.next, w.c.next + 1, call)
  {
    StrandedLands(w, f, call);
    hide AllowsAll, Play, FairAll, SendCommand, Resume, Land;
    PlayThree(w, Sends(call), Finishes(f, Lost), Retries);
    moves := [Sends(call), Finishes(f, Lost), Retries];
  }

  predicate AcceptedApart(c: Client) {
    forall i, j :: 0 <= i < j < |c.accepted| ==> c.accepted[i].key != c.accepted[j].key
  }

  /** Whatever the client is busy with, be it a call, a refresh, a check or setup itself: acknowledging setup now has a
      continuation, with setup left alone from there on and the page signed in throughout, in which onAccepted runs twice
      for one command. */
  lemma BusySetupAcceptsTwice(w: World) returns (rest: seq<Move>)
    requires Sound(w) && w.c.busy
    ensures var v := Act(w, Acknowledges);
      AllowsAll(v, rest) && FairAll(v, rest) && !AcceptedApart(Play(v, rest).c)
  {
    hide OthersResolved, KeysFresh, CommittedOnce, Faithful, AcceptedOnce;
    var f :| f in w.c.flights;
    var first := SetupStrands(w, f);
    hide Sound, OneFlight, Numbered, Act, Allows, Play, AllowsAll, FairAll, Respond, Apply, Legal;
    var w1 := Play(Act(w, Acknowledges), first);
    var key := FreshKey(w1);
    var call := Call(key, StopAll);
    var second := StrandedDoubles(w1, f, call);
    var w2 := Play(w1, second);
    var input := CallInput(w2.s, call);
    StopAccepted(w2.s, input);
    var repeat := CallInput(Apply(w2.s, input), call);
    var third := DoubledAcceptsTwice(w2, w1.c.next, w1.c.next + 1, input, repeat);
    PlayAll(w1, second, third);
    PlayAll(Act(w, Acknowledges), first, second + third);
    rest := first + (second + third);
  }

  /** Whatever follows, as long as setup is left alone while the client is busy, no command is accepted twice. */
  ghost predicate StaysOnce(w: World) {
    forall rest | AllowsAll(w, rest) && NeverInterrupted(w, rest) :: AcceptedApart(Play(w, rest).c)
  }

  /** The exact condition: acknowledging setup keeps acceptance at most once if and only if the client is not busy. */
  lemma SetupIsSafeExactlyWhenIdle(w: World)
    requires Sound(w)
    ensures StaysOnce(Act(w, Acknowledges)) <==> !w.c.busy
  {
    hide Act, Sound, Play, AllowsAll, NeverInterrupted, FairAll, AcceptedApart;
    if w.c.busy {
      var rest := BusySetupAcceptsTwice(w);
      FairIsNeverInterrupted(Act(w, Acknowledges), rest);
    } else {
      ActSound(w, Acknowledges);
      SoundStaysOnce(Act(w, Acknowledges));
    }
  }

  lemma SoundStaysOnce(w: World)
    requires Sound(w)
    ensures StaysOnce(w)
  {
    hide Play, AllowsAll, NeverInterrupted;
    forall rest | AllowsAll(w, rest) && NeverInterrupted(w, rest) ensures AcceptedApart(Play(w, rest).c) {
      PlaySound(w, rest);
    }
  }
}
