/** The browser client as it runs: methods cut at their awaits for commands, and the refresh loop with the stream's
    announcements arriving at every await. */
module WorkspaceStores {
  import opened Types
  import N = ClientCommands
  import ExactlyOnce
  import opened ClientRefresh

  /** The store, the answers on their way and the keys committed so far. */
  datatype Server = Server(s: State, answers: set<(nat, Reply)>, commits: seq<Key>)

  class WorkspaceStore {
    var busy: bool
    var retryRequest: Option<N.Call>
    var flights: map<nat, N.Flight>
    var next: nat
    var issued: seq<Key>
    var accepted: seq<N.Seen>
    var receipts: seq<N.Seen>
    var dropped: seq<Key>
    var sent: map<nat, N.Call>

    var pendingCursor: nat
    var snapshot: nat
    var refreshing: Option<StatusCall>
    var stream: Option<nat>
    /** The length of the server's log, the newest transition announced, and how the last refresh ended. */
    var log: nat
    var announced: nat
    var succeeded: bool

    // ---------- commands ----------

    /** This client next to a server. */
    ghost function View(server: Server): N.World
      reads this
    {
      N.World(server.s, N.Client(busy, retryRequest, flights, next, issued, accepted, receipts, dropped), sent,
              server.answers, server.commits)
    }

    method TakeOff(f: N.Flight)
      modifies this`busy, this`flights, this`next
      ensures busy && flights == old(flights)[old(next) := f] && next == old(next) + 1
    {
      busy, flights, next := true, flights[next := f], next + 1;
    }

    method DispatchCommand(ghost server: Server)
      modifies this`busy, this`flights, this`next, this`sent
      ensures View(server) == N.DispatchCommand(old(View(server)))
    {
      if retryRequest.None? || busy {
        return;
      }
      sent := sent[next := retryRequest.value];
      TakeOff(N.Calling(retryRequest.value));
    }

    method SendCommand(call: N.Call, ghost server: Server)
      requires N.Sound(View(server)) && N.Allows(View(server), N.Sends(call))
      modifies this`busy, this`flights, this`next, this`sent, this`retryRequest, this`issued
      ensures View(server) == N.Act(old(View(server)), N.Sends(call))
      ensures N.Sound(View(server))
    {
      hide N.Sound;
      ExactlyOnce.ActSound(View(server), N.Sends(call));
      if retryRequest.Some? {
        return;
      }
      retryRequest, issued := Some(call), issued + [call.key];
      DispatchCommand(server);
    }

    method RetryCommand(ghost server: Server)
      requires N.Sound(View(server))
      modifies this`busy, this`flights, this`next, this`sent
      ensures View(server) == N.Act(old(View(server)), N.Retries)
      ensures N.Sound(View(server))
    {
      hide N.Sound;
      ExactlyOnce.ActSound(View(server), N.Retries);
      DispatchCommand(server);
    }

    method CheckConnection(ghost server: Server)
      requires N.Sound(View(server))
      modifies this`busy, this`flights, this`next
      ensures View(server) == N.Act(old(View(server)), N.Checks)
      ensures N.Sound(View(server))
    {
      hide N.Sound;
      ExactlyOnce.ActSound(View(server), N.Checks);
      if !busy {
        TakeOff(N.Checking);
      }
    }

    /** Sound only when it starts from an idle client, which it does not check. */
    method AcknowledgeSetup(ghost server: Server)
      modifies this`busy, this`flights, this`next
      ensures View(server) == N.Act(old(View(server)), N.Acknowledges)
      ensures N.Sound(old(View(server))) && !old(busy) ==> N.Sound(View(server))
    {
      hide N.Sound;
      if N.Sound(View(server)) && !busy {
        ExactlyOnce.ActSound(View(server), N.Acknowledges);
      }
      TakeOff(N.Acknowledging);
    }

    /** What follows the await of flight f. */
    method Finish(f: nat, result: N.Result, ghost server: Server)
      requires N.Sound(View(server)) && N.Allows(View(server), N.Finishes(f, result))
      modifies this`busy, this`flights, this`retryRequest, this`accepted, this`receipts, this`dropped
      ensures View(server) == N.Act(old(View(server)), N.Finishes(f, result))
      ensures N.Sound(View(server))
    {
      hide N.Sound;
      ExactlyOnce.ActSound(View(server), N.Finishes(f, result));
      if flights[f].Calling? {
        var call := flights[f].call;
        if result.Got? && result.reply.Returned? {
          var receipt := result.reply.receipt;
          retryRequest, receipts := None, receipts + [N.Seen(call.key, receipt)];
          if receipt.accepted {
            accepted, flights := accepted + [N.Seen(call.key, receipt)], flights[f := N.Refreshing];
            return;
          }
        } else if result.SignedOut? || (result.Got? && result.reply.refusal == Forbidden) {
          retryRequest, dropped := None, dropped + [call.key];
        }
      }
      busy, flights := false, flights - {f};
    }

    // ---------- refreshing ----------

    function Cursors(): Cursors
      reads this
    {
      ClientRefresh.Cursors(pendingCursor, snapshot, refreshing, stream, announced, log, succeeded)
    }

    /** A transition event while a refresh is under way, which it joins. */
    method OnTransition(cursor: nat)
      requires refreshing.Some?
      modifies this`pendingCursor, this`announced, this`stream
      ensures Cursors() == Announce(old(Cursors()), cursor)
    {
      stream, announced := Some(cursor), Max(announced, cursor);
      if cursor <= pendingCursor {
        return;
      }
      pendingCursor := cursor;
    }

    /** Meanwhile the log grows, the stream announces any of it that it has not yet, and the stream may be dropped. */
    method Await()
      requires Sound(Cursors()) && refreshing.Some?
      modifies this`pendingCursor, this`announced, this`log, this`stream
      ensures Sound(Cursors()) && log >= old(log) && (old(stream).None? ==> stream.None?)
    {
      var rounds: nat := *;
      while rounds > 0
        invariant Sound(Cursors()) && refreshing == old(refreshing) && refreshing.Some? && log >= old(log)
        invariant old(stream).None? ==> stream.None?
      {
        ghost var before := Cursors();
        var event: nat := *;
        if event == 0 {
          ActSound(before, Grows);
          log := log + 1;
        } else if stream.Some? && event == 1 {
          ActSound(before, Drops);
          stream := None;
        } else if stream.Some? && stream.value < log {
          var cursor: nat :| stream.value < cursor <= log;
          ActSound(before, Announces(cursor));
          OnTransition(cursor);
        }
        rounds := rounds - 1;
      }
    }

    /** The status call: its answer is some length the log had since it was issued, or it fails. */
    method Status() returns (reported: Option<nat>)
      requires Sound(Cursors()) && refreshing.Some?
      modifies this`pendingCursor, this`announced, this`log, this`stream
      ensures Sound(Cursors()) && log >= old(log) && (old(stream).None? ==> stream.None?)
      ensures reported.Some? ==> refreshing.value.issued <= reported.value <= log
    {
      Await();
      var fails: bool := *;
      if fails {
        return None;
      }
      var cursor: nat :| refreshing.value.issued <= cursor <= log;
      return Some(cursor);
    }

    /** What follows an answer: another call, or the end of the refresh and, unless one is kept, a new stream. */
    method OnStatus(reported: nat) returns (regressions: nat, again: bool, kept: bool)
      requires refreshing.Some?
      modifies this`pendingCursor, this`snapshot, this`refreshing, this`succeeded, this`stream
      ensures Cursors() == Respond(old(Cursors()), reported) && again == refreshing.Some?
      ensures regressions == RegressionsAfter(old(Cursors()), reported) && kept == (old(stream).Some? && !again)
    {
      var reconnect := refreshing.value.reconnect;
      regressions, kept := refreshing.value.regressions, false;
      if reported < pendingCursor {
        regressions := regressions + 1;
        if regressions >= 3 {
          pendingCursor := reported;
        }
      } else {
        pendingCursor := reported;
      }
      snapshot, again := reported, reported < pendingCursor;
      if again {
        refreshing := Some(StatusCall(log, regressions, reconnect));
      } else {
        kept := stream.Some?;
        if reconnect || stream.None? {
          stream := Some(snapshot);
        }
        refreshing, succeeded := None, true;
      }
    }

    /** refresh: at most three status calls, whatever is announced meanwhile. When it succeeds the snapshot has caught up
        with the pending cursor, and is behind what was announced just when the third regression ended it. Announcements
        are lost just when the stream stayed open, as `kept` says, and either the third regression ended a refresh that
        was not to reconnect it, or the refresh failed with the stream ahead of the snapshot. */
    method Refresh(reconnect: bool) returns (ok: bool, calls: nat, regressions: nat, kept: bool)
      requires Sound(Cursors()) && refreshing.None?
      modifies this`pendingCursor, this`announced, this`log, this`snapshot, this`refreshing, this`succeeded, this`stream
      ensures Sound(Cursors()) && refreshing.None? && succeeded == ok && calls <= 3
      ensures ok ==> pendingCursor == snapshot && (snapshot < announced <==> regressions == 3)
      ensures kept ==> old(stream).Some? && stream.Some?
      ensures ok ==> stream.Some? && (Behind(Cursors()) <==> regressions == 3 && kept && !reconnect)
      ensures ok && (!kept || reconnect) ==> stream == Some(snapshot)
      ensures !ok ==> (Behind(Cursors()) <==> kept && snapshot < stream.value)
    {
      hide Sound;
      ActSound(Cursors(), Begins(reconnect));
      refreshing, calls, regressions, kept := Some(StatusCall(log, 0, reconnect)), 0, 0, false;
      var again := true;
      while again
        invariant Sound(Cursors()) && regressions <= calls <= 3
        invariant again && old(stream).None? ==> stream.None?
        invariant again ==> refreshing.Some? && refreshing.value.reconnect == reconnect
        invariant again ==> refreshing.value.regressions == regressions == calls < 3
        invariant !again ==> refreshing.None? && succeeded && pendingCursor == snapshot
        invariant !again ==> (snapshot < announced <==> regressions == 3)
        invariant !again ==> stream.Some? && (Behind(Cursors()) <==> regressions == 3 && kept && !reconnect)
        invariant !again && (!kept || reconnect) ==> stream == Some(snapshot)
        invariant kept ==> old(stream).Some? && stream.Some?
        decreases if again then 4 - calls else 0
      {
        calls := calls + 1;
        var reported := Status();
        if reported.None? {
          var signedOut: bool := *;
          ActSound(Cursors(), Fails(signedOut));
          refreshing, succeeded := None, false;
          if signedOut {
            stream := None;
          }
          return false, calls, regressions, stream.Some?;
        }
        ghost var before := Cursors();
        ActSound(before, Responds(reported.value));
        regressions, again, kept := OnStatus(reported.value);
        if !again {
          EndOfRefresh(before, reported.value);
        }
      }
      return true, calls, regressions, kept;
    }
  }
}
