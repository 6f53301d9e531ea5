/** The browser client never loses a command by itself: a call that fails keeps it for another try, the next try can always
    bring it home, and only signing out gives it up. */
module Retrying {
  import opened Types
  import opened Transactions
  import opened Replays
  import opened ClientCommands
  import opened ExactlyOnce

  /** The call got nowhere, but the page is still signed in. */
  predicate Fails(result: Result) {
    result == Lost || (result.Got? && result.reply.Thrown? && result.reply.refusal != Forbidden)
  }

  /** The session or its token was refused. */
  predicate SignsOut(result: Result) {
    result == SignedOut || result == Got(Thrown(Forbidden))
  }

  /** A command that is sent is kept, and goes out at once unless the client is busy. */
  lemma SendKeepsCommand(w: World, call: Call)
    requires Sound(w) && Allows(w, Sends(call)) && w.c.retry.None?
    ensures var v := Act(w, Sends(call));
      && v.c.retry == Some(call) && v.c.issued == w.c.issued + [call.key] && v.c.busy
      && v.sent == (if w.c.busy then w.sent else w.sent[w.c.next := call])
      && v.c.flights == if w.c.busy then w.c.flights else map[w.c.next := Calling(call)]
  {
    assert !w.c.busy ==> w.c.flights == map[];
  }

  /** A call that fails leaves the client idle with the command kept and nothing given up; and the next try sends it again,
      under a number of its own. */
  lemma FailureKeepsCommand(w: World, f: nat, result: Result)
    requires Sound(w) && Allows(w, Finishes(f, result)) && w.c.flights[f].Calling? && Fails(result)
    ensures var call, v := w.c.flights[f].call, Act(w, Finishes(f, result));
      && v.c.retry == Some(call) && v.c.dropped == w.c.dropped && !v.c.busy && v.c.flights == map[]
      && var u := Act(v, Retries);
         && w.c.next !in w.sent && u.sent == w.sent[w.c.next := call]
         && u.c.flights == map[w.c.next := Calling(call)] && u.c.busy
  {
    var v := Act(w, Finishes(f, result));
    assert v.c.flights == map[];
  }

  /** A call that was answered is let go, with its receipt kept; an accepted one refreshes first, and onAccepted has run. */
  lemma ReceiptLetsGo(w: World, f: nat, receipt: Receipt)
    requires Sound(w) && Allows(w, Finishes(f, Got(Returned(receipt)))) && w.c.flights[f].Calling?
    ensures var seen, v := Seen(w.c.flights[f].call.key, receipt), Act(w, Finishes(f, Got(Returned(receipt))));
      && v.c.retry.None? && v.c.receipts == w.c.receipts + [seen] && v.c.dropped == w.c.dropped
      && v.c.accepted == (if receipt.accepted then w.c.accepted + [seen] else w.c.accepted)
      && v.c.busy == receipt.accepted && v.c.flights == if receipt.accepted then map[f := Refreshing] else map[]
  {
    var v := Act(w, Finishes(f, Got(Returned(receipt))));
    assert v.c.flights == if receipt.accepted then map[f := Refreshing] else map[];
  }

  /** A kept command can always be brought home: sent again, served as the daemon serves calls and answered, it is committed,
      once however often it was tried, and its receipt is the last one seen. */
  lemma RetryBringsHome(w: World, input: Input)
    requires Sound(w) && !w.c.busy && w.c.retry == Some(Call(input.key, input.command)) && input.owner && !input.fault
    ensures var w1 := Act(w, Retries);
      && Allows(w1, Serves(w.c.next, input))
      && var w2 := Act(w1, Serves(w.c.next, input));
         && Respond(w.s, input).Returned? && Allows(w2, Finishes(w.c.next, Got(Respond(w.s, input))))
         && var v := Act(w2, Finishes(w.c.next, Got(Respond(w.s, input))));
            && v.c.retry.None? && v.c.receipts == w.c.receipts + [Seen(input.key, Respond(w.s, input).receipt)]
            && v.commits == (if input.key in w.commits then w.commits else w.commits + [input.key])
            && input.key in v.s.commands
  {
    hide Faithful, AcceptedOnce, OthersResolved, Numbered;
    KeptReturns(w, input);
    KeptIsKnown(w, input);
    ApplyRecords(w.s, input);
    hide Apply, Respond;
    assert Act(w, Retries).c.flights[w.c.next] == Calling(w.c.retry.value);
  }

  lemma KeptIsKnown(w: World, input: Input)
    requires KeysFresh(w) && CommittedOnce(w) && w.c.retry == Some(Call(input.key, input.command))
    ensures input.key in w.s.commands <==> input.key in w.commits
  {
  }

  /** A connection check runs only from an idle client, keeps it busy until it ends, and leaves no trace. */
  lemma CheckLeavesNoTrace(w: World, result: Result)
    requires Sound(w)
    ensures var v := Act(w, Checks);
      if w.c.busy then v == w
      else
        && v.c.busy && Act(v, Retries) == v && Act(v, Checks) == v
        && (Allows(v, Finishes(w.c.next, result)) ==>
              Act(v, Finishes(w.c.next, result)) == w.(c := w.c.(next := w.c.next + 1)))
  {
    if !w.c.busy {
      assert w.c.flights == map[];
      assert Act(w, Checks).c.flights - {w.c.next} == w.c.flights;
    }
  }

  /** The keys of the calls that ended signed out, in order. */
  ghost function SignedOff(w: World, moves: seq<Move>): seq<Key>
    requires AllowsAll(w, moves)
    decreases |moves|
  {
    if moves == [] then [] else
    var m := moves[0];
    (if m.Finishes? && w.c.flights[m.flight].Calling? && SignsOut(m.result) then [w.c.flights[m.flight].call.key] else [])
    + SignedOff(Act(w, m), moves[1..])
  }

  lemma DropsOne(w: World, m: Move)
    requires Allows(w, m)
    ensures Act(w, m).c.dropped == w.c.dropped +
      if m.Finishes? && w.c.flights[m.flight].Calling? && SignsOut(m.result) then [w.c.flights[m.flight].call.key] else []
  {
    hide Apply, Respond, Next;
  }

  /** Over every run: the commands given up are exactly those whose call ended signed out. */
  lemma {:induction false} OnlySigningOutGivesUp(w: World, moves: seq<Move>)
    requires AllowsAll(w, moves)
    ensures Play(w, moves).c.dropped == w.c.dropped + SignedOff(w, moves)
    decreases |moves|
  {
    hide Act, Allows;
    if moves != [] {
      DropsOne(w, moves[0]);
      OnlySigningOutGivesUp(Act(w, moves[0]), moves[1..]);
    }
  }
}
