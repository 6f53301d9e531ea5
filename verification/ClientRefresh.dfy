/** The browser client's refresh: status calls repeated while the stream announces transitions newer than the answer,
    at most three to a refresh; and the event stream it opens at its end when there is none, or when it was asked to. */
module ClientRefresh {
  import opened Types

  /** A status call under way: how long the log was when it was issued, the regressions before it, and whether its refresh
      was asked to reconnect the stream. */
  datatype StatusCall = StatusCall(issued: nat, regressions: nat, reconnect: bool)

  /** `stream` is None without an event stream, and otherwise the last transition it announced, or the cursor it was
      opened at; `announced` is the newest transition any stream announced, `log` the length of the server's log, and
      `succeeded` says whether the last refresh to end succeeded. */
  datatype Cursors = Cursors(
    pending: nat, snapshot: nat, call: Option<StatusCall>, stream: Option<nat>, announced: nat, log: nat,
    succeeded: bool)

  /** A refresh already under way is joined, whether or not it was asked to reconnect. */
  function Refresh(c: Cursors, reconnect: bool): Cursors {
    if c.call.Some? then c else c.(call := Some(StatusCall(c.log, 0, reconnect)))
  }

  function Max(a: nat, b: nat): nat {
    if a < b then b else a
  }

  /** A transition event of the current stream. */
  function Announce(c: Cursors, cursor: nat): Cursors {
    var d := c.(stream := Some(cursor), announced := Max(c.announced, cursor));
    if cursor <= c.pending then d else Refresh(d.(pending := cursor), false)
  }

  function RegressionsAfter(c: Cursors, reported: nat): nat
    requires c.call.Some?
  {
    if reported < c.pending then c.call.value.regressions + 1 else c.call.value.regressions
  }

  /** The third answer older than what was announced is taken for the truth. */
  function PendingAfter(c: Cursors, reported: nat): nat
    requires c.call.Some?
  {
    if reported < c.pending && RegressionsAfter(c, reported) < 3 then c.pending else reported
  }

  /** A refresh that succeeds opens a stream at its snapshot's cursor if there is none or it was asked to. */
  function StreamAfter(c: Cursors, reported: nat): Option<nat>
    requires c.call.Some?
  {
    if c.call.value.reconnect || c.stream.None? then Some(reported) else c.stream
  }

  function Respond(c: Cursors, reported: nat): Cursors
    requires c.call.Some?
  {
    var d := c.(pending := PendingAfter(c, reported), snapshot := reported);
    if reported < d.pending
    then d.(call := Some(StatusCall(c.log, RegressionsAfter(c, reported), c.call.value.reconnect)))
    else d.(call := None, stream := StreamAfter(c, reported), succeeded := true)
  }

  datatype Move =
    | Grows
    | Announces(cursor: nat)
    | Begins(reconnect: bool)
    | Responds(reported: nat)
    | Fails(signedOut: bool)
    | Drops

  function Act(c: Cursors, m: Move): Cursors
    requires Allows(c, m)
  {
    match m
    case Grows => c.(log := c.log + 1)
    case Announces(cursor) => Announce(c, cursor)
    case Begins(reconnect) => Refresh(c, reconnect)
    case Responds(reported) => Respond(c, reported)
    case Fails(signedOut) => c.(call := None, stream := if signedOut then None else c.stream, succeeded := false)
    case Drops => c.(stream := None)
  }

  /** An open stream announces what the log holds, in order; a status call is answered with a cursor between the log's
      lengths at the call and at the answer. A stream that errs, that asks for a resync or whose session ends is dropped,
      and the timer that this starts begins a refresh of its own. */
  predicate Allows(c: Cursors, m: Move) {
    match m
    case Grows => true
    case Announces(cursor) => c.stream.Some? && c.stream.value < cursor <= c.log
    case Begins(_) => true
    case Responds(reported) => c.call.Some? && c.call.value.issued <= reported <= c.log
    case Fails(_) => c.call.Some?
    case Drops => c.stream.Some?
  }

  // ---------- what holds between moves ----------

  predicate Sound(c: Cursors) {
    && c.pending <= c.log && c.announced <= c.log && c.snapshot <= c.log
    && (c.call.Some? ==>
          c.call.value.regressions < 3 && c.call.value.issued <= c.log
          && c.announced <= Max(c.call.value.issued, c.pending) && c.pending <= Max(c.call.value.issued, c.announced))
    && (c.call.Some? ==> c.snapshot <= c.call.value.issued)
    && (c.call.None? && c.succeeded ==> c.pending <= c.snapshot)
    && (c.stream.Some? ==>
          c.stream.value <= c.log && c.pending <= Max(c.snapshot, c.stream.value)
          && (c.call.Some? ==>
                c.stream.value <= Max(c.call.value.issued, c.pending)
                && c.pending <= Max(c.call.value.issued, c.stream.value)))
  }

  lemma ActSound(c: Cursors, m: Move)
    requires Sound(c) && Allows(c, m)
    ensures Sound(Act(c, m))
  {
  }

  ghost function Play(c: Cursors, moves: seq<Move>): Cursors
    requires AllowsAll(c, moves)
    decreases |moves|
  {
    if moves == [] then c else Play(Act(c, moves[0]), moves[1..])
  }

  ghost predicate AllowsAll(c: Cursors, moves: seq<Move>)
    decreases |moves|
  {
    moves == [] || (Allows(c, moves[0]) && AllowsAll(Act(c, moves[0]), moves[1..]))
  }

  const UNSTARTED := Cursors(0, 0, None, None, 0, 0, false)

  lemma {:induction false} PlaySound(c: Cursors, moves: seq<Move>)
    requires Sound(c) && AllowsAll(c, moves)
    ensures Sound(Play(c, moves))
    decreases |moves|
  {
    if moves != [] {
      ActSound(c, moves[0]);
      PlaySound(Act(c, moves[0]), moves[1..]);
    }
  }

  /** For every interleaving of announcements with answers: a refresh under way has seen at most two regressions, and
      when none is under way after a successful one the snapshot is not behind the pending cursor. */
  lemma SnapshotCatchesUp(moves: seq<Move>)
    requires AllowsAll(UNSTARTED, moves)
    ensures var c := Play(UNSTARTED, moves);
      (c.call.Some? ==> c.call.value.regressions <= 2) && (c.call.None? && c.succeeded ==> c.pending <= c.snapshot)
  {
    PlaySound(UNSTARTED, moves);
  }

  /** Every answer either ends the refresh or counts a regression, so a refresh makes at most three calls. */
  lemma AtMostThreeCalls(moves: seq<Move>, reported: nat)
    requires AllowsAll(UNSTARTED, moves) && Play(UNSTARTED, moves).call.Some?
    ensures var c := Play(UNSTARTED, moves);
      var d := Respond(c, reported);
      (d.call.Some? ==> d.call.value.regressions == c.call.value.regressions + 1 <= 2)
      && (c.call.value.regressions == 2 ==> d.call.None?)
  {
    PlaySound(UNSTARTED, moves);
  }

  /** A refresh under way is joined, whatever is asked of it; at rest a status call goes out at once. */
  lemma RefreshJoins(c: Cursors, reconnect: bool)
    ensures var d := Act(c, Begins(reconnect));
      if c.call.Some? then d == c
      else d.call == Some(StatusCall(c.log, 0, reconnect)) && d.(call := None) == c
  {
  }

  /** The cursor of the last answer that arrived. */
  function LastAnswer(before: nat, moves: seq<Move>): nat {
    if moves == [] then before
    else if moves[|moves| - 1].Responds? then moves[|moves| - 1].reported
    else LastAnswer(before, moves[..|moves| - 1])
  }

  /** What the client shows is the last answer that arrived, whatever was announced and however refreshes ended. */
  lemma {:induction false} LastAnswerIsShown(c: Cursors, moves: seq<Move>)
    requires AllowsAll(c, moves)
    ensures Play(c, moves).snapshot == LastAnswer(c.snapshot, moves)
    decreases |moves|
  {
    if moves != [] {
      LastAnswerIsShown(Act(c, moves[0]), moves[1..]);
      LastFromFirst(c.snapshot, moves);
    }
  }

  lemma {:induction false} LastFromFirst(before: nat, moves: seq<Move>)
    requires moves != []
    ensures LastAnswer(before, moves) == LastAnswer(if moves[0].Responds? then moves[0].reported else before, moves[1..])
  {
    if |moves| > 1 {
      LastFromFirst(before, moves[..|moves| - 1]);
      assert moves[..|moves| - 1][1..] == moves[1..][..|moves| - 2];
    }
  }

  /** At rest, and behind what the open stream announced: it will not announce that again. */
  predicate Behind(c: Cursors) {
    c.call.None? && c.stream.Some? && c.snapshot < c.stream.value
  }

  lemma EndOfRefresh(c: Cursors, reported: nat)
    requires Sound(c) && Allows(c, Responds(reported)) && Respond(c, reported).call.None?
    ensures var d := Respond(c, reported);
      && d.pending == d.snapshot
      && (d.snapshot < d.announced <==> RegressionsAfter(c, reported) == 3)
      && (Behind(d) <==> RegressionsAfter(c, reported) == 3 && c.stream.Some? && !c.call.value.reconnect)
  {
  }

  /** When a refresh succeeds, the snapshot has caught up with the pending cursor, and it is behind what was ever
      announced exactly on the third regression. Such a success loses the announcement exactly when besides the stream is
      open and the refresh was not asked to reconnect: any other opens a stream at its snapshot, which announces again
      what is missing. */
  lemma LostExactlyOnThirdRegression(moves: seq<Move>, reported: nat)
    requires AllowsAll(UNSTARTED, moves) && Allows(Play(UNSTARTED, moves), Responds(reported))
    requires Respond(Play(UNSTARTED, moves), reported).call.None?
    ensures var c := Play(UNSTARTED, moves);
      var d := Respond(c, reported);
      && d.pending == d.snapshot
      && (d.snapshot < d.announced <==> RegressionsAfter(c, reported) == 3)
      && (Behind(d) <==> RegressionsAfter(c, reported) == 3 && c.stream.Some? && !c.call.value.reconnect)
  {
    PlaySound(UNSTARTED, moves);
    EndOfRefresh(Play(UNSTARTED, moves), reported);
  }

  /** Exactly two moves lose an announcement: a refresh that fails, leaving open a stream that is ahead of the snapshot,
      and a third regressing answer that leaves the stream open. */
  predicate Loses(c: Cursors, m: Move) {
    match m
    case Fails(signedOut) => c.call.Some? && c.stream.Some? && !signedOut && c.snapshot < c.stream.value
    case Responds(reported) =>
      c.call.Some? && c.stream.Some? && !c.call.value.reconnect && RegressionsAfter(c, reported) == 3
    case _ => false
  }

  /** And exactly three make up for it: the next announcement, whatever it is, any refresh, and the end of the stream,
      after which another is opened at the snapshot. */
  predicate MakesUp(m: Move) {
    m.Announces? || m.Begins? || m.Drops?
  }

  lemma BehindNext(c: Cursors, m: Move)
    requires Sound(c) && Allows(c, m)
    ensures Behind(Act(c, m)) <==> if Behind(c) then !MakesUp(m) else Loses(c, m)
  {
  }

  /** After every run: which moves leave the client at rest behind its stream, and which bring it back. */
  lemma BehindExactly(moves: seq<Move>, m: Move)
    requires AllowsAll(UNSTARTED, moves) && Allows(Play(UNSTARTED, moves), m)
    ensures var c := Play(UNSTARTED, moves);
      Behind(Act(c, m)) <==> if Behind(c) then !MakesUp(m) else Loses(c, m)
  {
    PlaySound(UNSTARTED, moves);
    BehindNext(Play(UNSTARTED, moves), m);
  }

  /** Nothing but the stream speaks, until it has announced the whole log. */
  ghost predicate AnnouncesRest(c: Cursors, moves: seq<Move>)
    requires AllowsAll(c, moves)
  {
    (forall i | 0 <= i < |moves| :: moves[i].Announces?)
    && Play(c, moves).stream == Some(Play(c, moves).log)
  }

  lemma {:induction false} RestStartsRefresh(c: Cursors, moves: seq<Move>)
    requires AllowsAll(c, moves) && AnnouncesRest(c, moves) && c.pending < c.log && moves != []
    ensures Play(c, moves).call.Some?
    decreases |moves|
  {
    var d := Act(c, moves[0]);
    assert forall i | 0 <= i < |moves| - 1 :: moves[1..][i] == moves[i + 1];
    if moves[1..] != [] {
      if d.call.Some? {
        AnnouncesKeepCall(d, moves[1..]);
      } else {
        RestStartsRefresh(d, moves[1..]);
      }
    }
  }

  lemma {:induction false} AnnouncesKeepCall(c: Cursors, moves: seq<Move>)
    requires AllowsAll(c, moves) && c.call.Some? && forall i | 0 <= i < |moves| :: moves[i].Announces?
    ensures Play(c, moves).call.Some?
    decreases |moves|
  {
    if moves != [] {
      AnnouncesKeepCall(Act(c, moves[0]), moves[1..]);
    }
  }

  /** What being behind means: once the stream has announced the rest of the log and nothing else has happened, the
      client is at rest without all of the log just when it was behind with nothing left to announce. */
  lemma BehindStaysBehind(moves: seq<Move>, rest: seq<Move>)
    requires AllowsAll(UNSTARTED, moves)
    requires AllowsAll(Play(UNSTARTED, moves), rest) && AnnouncesRest(Play(UNSTARTED, moves), rest)
    ensures var c := Play(UNSTARTED, moves);
      var d := Play(c, rest);
      d.call.None? && d.snapshot < d.log <==> Behind(c) && c.stream.value == c.log
  {
    PlaySound(UNSTARTED, moves);
    var c := Play(UNSTARTED, moves);
    AnnouncesLeave(c, rest);
    if c.call.Some? {
      AnnouncesKeepCall(c, rest);
    } else if rest != [] && c.snapshot < c.log {
      assert Allows(c, rest[0]) && rest[0].Announces?;
      RestStartsRefresh(c, rest);
    }
  }

  /** Announcements leave the log and the snapshot alone. */
  lemma {:induction false} AnnouncesLeave(c: Cursors, moves: seq<Move>)
    requires AllowsAll(c, moves) && forall i | 0 <= i < |moves| :: moves[i].Announces?
    ensures Play(c, moves).log == c.log && Play(c, moves).snapshot == c.snapshot
    decreases |moves|
  {
    if moves != [] {
      AnnouncesLeave(Act(c, moves[0]), moves[1..]);
    }
  }

  lemma PlayFirst(c: Cursors, m: Move, rest: seq<Move>)
    requires Allows(c, m) && AllowsAll(Act(c, m), rest)
    ensures AllowsAll(c, [m] + rest) && Play(c, [m] + rest) == Play(Act(c, m), rest)
  {
    assert ([m] + rest)[1..] == rest;
  }

  /** One round of the race: the log grows and the growth is announced before the answer, read earlier, arrives. */
  lemma Race(c: Cursors, rest: seq<Move>) returns (moves: seq<Move>)
    requires Racing(c) && AllowsAll(Raced(c), rest)
    ensures AllowsAll(c, moves) && Play(c, moves) == Play(Raced(c), rest)
  {
    var n := c.log;
    var c1 := Act(c, Grows);
    var c2 := Act(c1, Announces(n + 1));
    PlayFirst(c2, Responds(n), rest);
    moves := [Responds(n)] + rest;
    PlayFirst(c1, Announces(n + 1), moves);
    moves := [Announces(n + 1)] + moves;
    PlayFirst(c, Grows, moves);
    moves := [Grows] + moves;
  }

  /** A refresh under way, next to an open stream that has announced the whole log. */
  predicate Racing(c: Cursors) {
    c.call.Some? && c.call.value.regressions < 3 && !c.call.value.reconnect && c.stream == Some(c.log)
    && c.call.value.issued == c.log && c.pending <= c.log && c.announced <= c.log
  }

  function Raced(c: Cursors): Cursors
    requires c.call.Some?
  {
    var n, k := c.log, c.call.value.regressions;
    if k == 2 then Cursors(n, n, None, Some(n + 1), n + 1, n + 1, true)
    else Cursors(n + 1, n, Some(StatusCall(n + 1, k + 1, false)), Some(n + 1), n + 1, n + 1, c.succeeded)
  }

  /** The first refresh opened the stream, and its first announcement began the second. */
  const WOKEN := Cursors(1, 0, Some(StatusCall(1, 0, false)), Some(1), 1, 1, true)

  lemma Wakes(rest: seq<Move>) returns (moves: seq<Move>)
    requires AllowsAll(WOKEN, rest)
    ensures AllowsAll(UNSTARTED, moves) && Play(UNSTARTED, moves) == Play(WOKEN, rest)
  {
    var c1 := Act(UNSTARTED, Begins(true));
    var c2 := Act(c1, Responds(0));
    var c3 := Act(c2, Grows);
    PlayFirst(c3, Announces(1), rest);
    moves := [Announces(1)] + rest;
    PlayFirst(c2, Grows, moves);
    moves := [Grows] + moves;
    PlayFirst(c1, Responds(0), moves);
    moves := [Responds(0)] + moves;
    PlayFirst(UNSTARTED, Begins(true), moves);
    moves := [Begins(true)] + moves;
  }

  /** Against an honest server the wake-up can be lost: in the second refresh three announcements each overtake an answer.
      They leave the client at rest, one transition behind, and the stream with nothing left to announce. */
  lemma WakeUpLost() returns (moves: seq<Move>)
    ensures AllowsAll(UNSTARTED, moves)
    ensures var c := Play(UNSTARTED, moves); Behind(c) && c.succeeded && c.stream.value == c.log
  {
    var end := Raced(Raced(Raced(WOKEN)));
    assert AllowsAll(end, []) && Play(end, []) == end;
    moves := Race(Raced(Raced(WOKEN)), []);
    moves := Race(Raced(WOKEN), moves);
    moves := Race(WOKEN, moves);
    moves := Wakes(moves);
  }

  /** Or the second refresh fails. */
  lemma WakeUpFailed() returns (moves: seq<Move>)
    ensures AllowsAll(UNSTARTED, moves)
    ensures var c := Play(UNSTARTED, moves); Behind(c) && !c.succeeded && c.stream.value == c.log
  {
    var end := Act(WOKEN, Fails(false));
    assert AllowsAll(end, []) && Play(end, []) == end;
    PlayFirst(WOKEN, Fails(false), []);
    moves := Wakes([Fails(false)] + []);
  }
}
