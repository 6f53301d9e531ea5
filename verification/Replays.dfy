/** Idempotent commands: a call that does not commit is a stutter wherever it falls in a history, and the
    receipt a key was given is the receipt every later call with that key is given. */
module Replays {
  import opened Types
  import opened Rows
  import opened Transactions
  import opened Invariants

  /** A repeat of a committed key, a reused key, a call by someone else, a call whose writes fail. */
  predicate Idle(s: State, step: Step) {
    step.DoApply? && !Commits(s, step.input)
  }

  /** `padded` is the history `steps` with idle calls inserted anywhere. */
  predicate Pads(s: State, steps: seq<Step>, padded: seq<Step>)
    decreases |padded|
  {
    if padded == [] then steps == []
    else
      (steps != [] && padded[0] == steps[0] && Pads(Next(s, steps[0]), steps[1..], padded[1..]))
      || (Idle(s, padded[0]) && Pads(s, steps, padded[1..]))
  }

  /** The receipts of the calls that committed, in order. */
  function Receipts(s: State, steps: seq<Step>): seq<Receipt>
    decreases |steps|
  {
    if steps == [] then []
    else (if steps[0].DoApply? && Commits(s, steps[0].input) then [Dispatch(s, steps[0].input).receipt] else [])
         + Receipts(Next(s, steps[0]), steps[1..])
  }

  /** Wherever idle calls fall, the final state and every receipt issued are as without them. */
  lemma {:induction false} IdleCallsAreStutters(s: State, steps: seq<Step>, padded: seq<Step>)
    requires Pads(s, steps, padded)
    ensures Exec(s, padded) == Exec(s, steps) && Receipts(s, padded) == Receipts(s, steps)
    decreases |padded|
  {
    if padded != [] {
      if steps != [] && padded[0] == steps[0] && Pads(Next(s, steps[0]), steps[1..], padded[1..]) {
        IdleCallsAreStutters(Next(s, steps[0]), steps[1..], padded[1..]);
      } else {
        assert Next(s, padded[0]) == s;
        IdleCallsAreStutters(s, steps, padded[1..]);
      }
    }
  }

  /** Receipts and events are only ever added. */
  predicate OnlyAdds(s: State, u: State) {
    s.events <= u.events && forall key | key in s.commands :: key in u.commands && u.commands[key] == s.commands[key]
  }

  lemma SweepKeepsCommands(s: State, hs: seq<RunId>, rs: seq<RunId>, xs: seq<ApprovalId>, now: int)
    ensures var u := Sweep(s, hs, rs, xs, now).s; u.commands == s.commands && s.events <= u.events
  {
    LapseCommands(s, hs, now);
    var s1 := LapseHandoffs(s, hs, now).s;
    OverdueCommands(s1, rs, now);
    ExpireCommands(FailOverdue(s1, rs, now), xs, now);
  }

  lemma {:induction false} LapseCommands(s: State, rows: seq<RunId>, now: int)
    ensures var u := LapseHandoffs(s, rows, now).s; u.commands == s.commands && s.events <= u.events
  {
    hide RejectRows;
    if rows != [] {
      LapseCommands(s, rows[..|rows|-1], now);
    }
  }

  lemma {:induction false} OverdueCommands(s: State, rows: seq<RunId>, now: int)
    ensures var u := FailOverdue(s, rows, now); u.commands == s.commands && s.events <= u.events
  {
    hide FinishRows;
    if rows != [] {
      OverdueCommands(s, rows[..|rows|-1], now);
    }
  }

  lemma {:induction false} ExpireCommands(s: State, rows: seq<ApprovalId>, now: int)
    ensures var u := ExpireEach(s, rows, now).s; u.commands == s.commands && s.events <= u.events
  {
    hide ExpireRows;
    if rows != [] {
      ExpireCommands(s, rows[..|rows|-1], now);
    }
  }

  lemma {:induction false} InterruptCommands(s: State, rows: seq<RunId>, now: int)
    ensures var u := InterruptEach(s, rows, now); u.commands == s.commands && s.events <= u.events
  {
    if rows != [] {
      InterruptCommands(s, rows[..|rows|-1], now);
    }
  }

  lemma {:induction false} CancelCommands(s: State, rows: seq<RunId>, now: int)
    ensures var u := CancelEach(s, rows, now); u.commands == s.commands && s.events <= u.events
  {
    hide CancelRows, RejectRows;
    if rows != [] {
      CancelCommands(s, rows[..|rows|-1], now);
    }
  }

  lemma DispatchKeepsCommands(s: State, input: Input)
    ensures var u := Dispatch(s, input).s; u.commands == s.commands && s.events <= u.events
  {
    hide CancelRows, RejectRows, FinishRows, ExpireRows, SettleApproval, InsertTask, InsertHandoff, SubmitDenial,
      ProposeDenial,
      CancelEach, LoadDenial;
    CancelCommands(s.(t := s.t.(stopped := true)), input.rows, input.now);
  }

  lemma NextKeepsCommands(s: State, step: Step)
    ensures OnlyAdds(s, Next(s, step))
    ensures forall key :: key in Next(s, step).commands ==> key in s.commands || (step.DoApply? && key == step.input.key)
  {
    hide Dispatch, StartRows, FinishRows, RejectRows, AcceptRows, ClaimActions, CountAction, OpenApproval, Sweep,
      InterruptEach, FailLoads,
      MayDecide, Accepts, InsertArtifact, SetStatus, SetLoad;
    match step {
      case DoApply(input) => DispatchKeepsCommands(s, input);
      case DoSweep(hs, rs, xs, now) => SweepKeepsCommands(s, hs, rs, xs, now);
      case DoRestart(rows, now) => InterruptCommands(s, rows, now);
      case DoMarkRunning(_, _, _) =>
      case DoSaveLoad(_, _) =>
      case DoWaitApproval(_, _, _, _, _) =>
      case DoWaitInput(_, _) =>
      case DoComplete(_, _, _, _, _, _) =>
      case DoFail(_, _, _) =>
      case DoBump(_, _) =>
      case DoDecide(_, _, _, _, _) =>
      case DoClaimDraft(_) =>
      case DoPeerProgress(_, _) =>
    }
  }

  lemma {:induction false} ReceiptsStand(s: State, steps: seq<Step>)
    ensures OnlyAdds(s, Exec(s, steps))
    decreases |steps|
  {
    hide Next;
    if steps != [] {
      NextKeepsCommands(s, steps[0]);
      ReceiptsStand(Next(s, steps[0]), steps[1..]);
    }
  }

  /** A call that returned a receipt is answered by the same one, marked replayed and without effects, whatever
      happened in between; the same key with another command is a conflict. */
  lemma ReplayedForever(s: State, input: Input, steps: seq<Step>, again: Input)
    requires Respond(s, input).Returned? && again.owner && again.key == input.key
    ensures var u := Exec(Apply(s, input), steps);
      && Apply(u, again) == u
      && Respond(u, again) == if again.command == input.command then Returned(Respond(s, input).receipt.(replayed := true, effects := []))
                              else Thrown(Conflict)
  {
    hide Dispatch, Next;
    var u := Apply(s, input);
    assert input.key in u.commands;
    ReceiptsStand(u, steps);
  }

  /** A call throws in three cases only, and then leaves the store as it was: it is not the owner's, its key was used for
      another command, or it is new and its writes fail. */
  lemma ThrowsChangeNothing(s: State, input: Input)
    ensures Respond(s, input) == Thrown(Forbidden) <==> !input.owner
    ensures Respond(s, input) == Thrown(Conflict) <==>
      input.owner && input.key in s.commands && s.commands[input.key].command != input.command
    ensures Respond(s, input) == Thrown(Internal) <==> input.owner && input.key !in s.commands && input.fault
    ensures Respond(s, input).Thrown? ==> Apply(s, input) == s
    ensures Respond(s, input).Returned? ==> input.key in Apply(s, input).commands
    ensures Apply(s, input) != s <==> Commits(s, input)
  {
    hide Dispatch;
    DispatchKeepsCommands(s, input);
  }
}
