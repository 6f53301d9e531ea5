/** Every interleaving of subscribing, pumping, draining, closing and appending serves every subscriber the log in
    order, without a gap or a duplicate; and what one subscriber is sent does not depend on the others. */
module Delivery {
  import opened Types
  import opened Streams

  // ---------- the log only grows ----------

  lemma SliceOfMore(log: seq<Event>, more: seq<Event>, start: nat, end: nat)
    requires start <= end <= |log| <= |more| && more[..|log|] == log
    ensures Slice(more, start, end) == Slice(log, start, end)
  {
    assert forall i | 0 <= i < |log| :: more[..|log|][i] == more[i];
  }

  lemma ServedLater(log: seq<Event>, more: seq<Event>, s: Subscriber)
    requires Served(log, s) && |log| <= |more| && more[..|log|] == log
    ensures Served(more, s)
  {
    hide Frames;
    if s.active && s.closed {
      var cut :| CutShort(log, s, cut);
      SliceOfMore(log, more, s.start, cut);
      assert CutShort(more, s, cut);
    } else if s.active {
      SliceOfMore(log, more, s.start, s.accepted);
    }
  }

  // ---------- the hub ----------

  ghost predicate PumpHolds(h: Hub) {
    h.pump.Pumping? ==>
      h.pump.since <= |h.log| &&
      forall c | c in h.pump.captured && c in h.clients ::
        h.clients[c].active && (!h.clients[c].closed ==> h.pump.minimum <= h.clients[c].accepted && h.pump.minimum <= h.pump.since)
  }

  ghost predicate Listed(h: Hub) {
    (forall c | c in h.listed :: c in h.clients && !h.clients[c].closed) && (h.pump.Pumping? ==> h.pump.captured <= h.clients.Keys)
  }

  ghost predicate Sound(h: Hub) {
    (forall c | c in h.clients :: Served(h.log, h.clients[c])) && PumpHolds(h) && Listed(h)
  }

  lemma AppendSound(h: Hub, e: Event)
    requires Sound(h)
    ensures Sound(h.(log := h.log + [e]))
  {
    hide Served;
    forall c | c in h.clients ensures Served(h.log + [e], h.clients[c]) {
      ServedLater(h.log, h.log + [e], h.clients[c]);
    }
  }

  lemma OverflowServed(log: seq<Event>, s: Subscriber)
    requires Served(log, s) && s.active
    ensures Served(log, Overflow(s))
  {
    if !s.closed {
      OverflowCut(log, s, s.accepted);
    }
  }

  lemma CloseServed(log: seq<Event>, s: Subscriber)
    requires Served(log, s)
    ensures Served(log, CloseOne(s)) && Served(log, s.(closed := true))
  {
    if s.active && !s.closed {
      PrefixCut(log, s);
      var cut := s.start + |s.written|;
      assert CutShort(log, CloseOne(s), cut);
      assert CutShort(log, s.(closed := true), cut);
    }
  }

  lemma DrainedServed(log: seq<Event>, s: Subscriber)
    requires Served(log, s)
    ensures Served(log, Drained(s)) && Drained(s).active == s.active && Drained(s).closed == s.closed
    ensures Drained(s).accepted == s.accepted
  {
    if s.draining {
      if s.closed {
        var cut :| CutShort(log, s, cut);
        assert CutShort(log, Drained(s), cut);
      } else {
        FlushKeeps(s.(draining := false));
      }
    }
  }

  /** A window of the log as it was is a slice of the log as it is. */
  lemma WindowOfPrefix(log: seq<Event>, read: nat, cursor: nat)
    requires read <= |log|
    ensures var window := TransitionsAfter(log[..read], cursor);
      && (window.Retained? <==> cursor <= read <= cursor + EVENT_REPLAY_LIMIT)
      && (window.Retained? ==> window.transitions == Slice(log, cursor, read))
  {
    if cursor <= read <= cursor + EVENT_REPLAY_LIMIT {
      SliceOfMore(log[..read], log, cursor, read);
    }
  }

  lemma PumpedServed(log: seq<Event>, read: nat, minimum: nat, s: Subscriber)
    requires Served(log, s) && s.active && read <= |log| && (!s.closed ==> minimum <= s.accepted)
    ensures var u := Pumped(s, TransitionsAfter(log[..read], minimum)); Served(log, u) && u.active
  {
    hide Served;
    WindowOfPrefix(log, read, minimum);
    if TransitionsAfter(log[..read], minimum).Retained? {
      EnqueueAllKeeps(log, s, minimum, read);
    } else {
      OverflowServed(log, s);
    }
  }

  lemma ActivateSound(h: Hub, c: nat, read: nat)
    requires Sound(h) && Allows(h, Activates(c, read))
    ensures Sound(Activate(h, c, read))
  {
    hide EnqueueAll, TransitionsAfter;
    var s := h.clients[c];
    WindowOfPrefix(h.log, read, s.start);
    if TransitionsAfter(h.log[..read], s.start).Retained? && !s.closed {
      StartsEmpty(h.log, s);
      EnqueueAllKeeps(h.log, s.(active := true), s.start, read);
    }
  }

  lemma StartsEmpty(log: seq<Event>, s: Subscriber)
    requires Served(log, s) && !s.active && !s.closed && s.start <= |log|
    ensures Served(log, s.(active := true))
  {
    assert Frames([]) == [];
    assert Slice(log, s.start, s.start) == [];
    assert s.written + Frames(s.queue) == [];
  }

  lemma PumpStartSound(h: Hub, minimum: nat)
    requires Sound(h) && Allows(h, PumpStarts(minimum))
    ensures Sound(PumpStart(h, minimum))
  {
    var g := PumpStart(h, minimum);
    if OpenClients(h) != {} {
      forall c | c in OpenClients(h) ensures minimum <= h.clients[c].accepted <= |h.log| {
        assert Served(h.log, h.clients[c]);
      }
      var c :| c in OpenClients(h);
    }
  }

  lemma PumpFinishSound(h: Hub, read: nat)
    requires Sound(h) && Allows(h, PumpFinishes(read))
    ensures Sound(PumpFinish(h, read))
  {
    hide Served, EnqueueAll, TransitionsAfter, Pumped;
    var g := PumpFinish(h, read);
    forall c | c in g.clients ensures Served(g.log, g.clients[c]) {
      if c in h.pump.captured {
        PumpedServed(h.log, read, h.pump.minimum, h.clients[c]);
      }
    }
  }

  lemma ReplaceSound(h: Hub, c: nat, s: Subscriber, listed: set<nat>)
    requires Sound(h) && c in h.clients && Served(h.log, s) && listed <= h.listed
    requires (s.closed ==> c !in listed) && s.active == h.clients[c].active
      && (!s.closed ==> !h.clients[c].closed && s.accepted == h.clients[c].accepted)
    ensures Sound(h.(clients := h.clients[c := s], listed := listed))
  {
    hide Served;
  }

  lemma CloseHubSound(h: Hub)
    requires Sound(h)
    ensures Sound(Act(h, ClosesHub))
  {
    hide Served;
    forall c | c in h.clients ensures Served(h.log, CloseOne(h.clients[c])) && CloseOne(h.clients[c]).active == h.clients[c].active {
      CloseServed(h.log, h.clients[c]);
    }
  }

  lemma ActSound(h: Hub, m: Move)
    requires Sound(h) && Allows(h, m)
    ensures Sound(Act(h, m))
  {
    hide Served, EnqueueAll, PumpStart, PumpFinish, Activate, Flush;
    match m
    case Append(e) => AppendSound(h, e);
    case Registers(c, cursor, accepts) => RegisterSound(h, c, cursor, accepts);
    case Activates(c, read) => ActivateSound(h, c, read);
    case PumpStarts(minimum) => PumpStartSound(h, minimum);
    case PumpFinishes(read) => PumpFinishSound(h, read);
    case Drains(c) =>
      DrainedServed(h.log, h.clients[c]);
      ReplaceSound(h, c, Drained(h.clients[c]), h.listed);
    case Errs(c) =>
      CloseServed(h.log, h.clients[c]);
      ReplaceSound(h, c, h.clients[c].(closed := true), h.listed - {c});
    case Closes(c) =>
      CloseServed(h.log, h.clients[c]);
      ReplaceSound(h, c, CloseOne(h.clients[c]), h.listed - {c});
    case ClosesHub => CloseHubSound(h);
  }

  lemma RegisterSound(h: Hub, c: nat, cursor: nat, accepts: nat -> bool)
    requires Sound(h) && c !in h.clients
    ensures Sound(Register(h, c, cursor, accepts))
  {
  }

  ghost function Play(h: Hub, moves: seq<Move>): Hub
    requires AllowsAll(h, moves)
    decreases |moves|
  {
    if moves == [] then h else Play(Act(h, moves[0]), moves[1..])
  }

  ghost predicate AllowsAll(h: Hub, moves: seq<Move>)
    decreases |moves|
  {
    moves == [] || (Allows(h, moves[0]) && AllowsAll(Act(h, moves[0]), moves[1..]))
  }

  lemma {:induction false} PlaySound(h: Hub, moves: seq<Move>)
    requires Sound(h) && AllowsAll(h, moves)
    ensures Sound(Play(h, moves))
    decreases |moves|
  {
    hide Sound, Act, Allows;
    if moves != [] {
      ActSound(h, moves[0]);
      PlaySound(Act(h, moves[0]), moves[1..]);
    }
  }

  /** For every interleaving: what an open subscriber was sent and has queued is the log from its start to its cursor,
      at most 32 of it queued; a closed one was sent a prefix, and a request to resynchronise can only be last. */
  lemma NoGapNoDuplicate(moves: seq<Move>, c: nat)
    requires AllowsAll(QUIET, moves) && c in Play(QUIET, moves).clients && Play(QUIET, moves).clients[c].active
    ensures var h := Play(QUIET, moves); var s := h.clients[c];
      && (!s.closed ==> InOrder(h.log, s))
      && (s.closed ==> exists cut :: CutShort(h.log, s, cut))
  {
    hide Play, AllowsAll;
    PlaySound(QUIET, moves);
  }

  // ---------- one subscriber and the others ----------

  /** What the end of a pump does to one captured subscriber: evicted with all the others when the furthest behind of
      them fell out of retention, and otherwise fed from its own cursor as if it were alone. */
  lemma PumpServesEachAlone(h: Hub, read: nat, c: nat)
    requires Sound(h) && Allows(h, PumpFinishes(read)) && c in h.pump.captured && !h.clients[c].closed
    ensures var s, u := h.clients[c], PumpFinish(h, read).clients[c];
      if h.pump.minimum + EVENT_REPLAY_LIMIT < read then u == Overflow(s)
      else u == EnqueueAll(s, Slice(h.log, if s.accepted < read then s.accepted else read, read))
  {
    hide EnqueueAll, Served;
    WindowOfPrefix(h.log, read, h.pump.minimum);
    WindowStartIsIrrelevant(h.log, h.clients[c], h.pump.minimum, read);
  }

  /** The others are not touched. */
  lemma PumpTouchesNoOther(h: Hub, read: nat, c: nat)
    requires Allows(h, PumpFinishes(read)) && c in h.clients && c !in h.pump.captured
    ensures PumpFinish(h, read).clients[c] == h.clients[c]
  {
  }

  /** A closed stream is never written to again. */
  lemma ClosedIsFrozen(h: Hub, m: Move, c: nat)
    requires Sound(h) && Allows(h, m) && c in h.clients && h.clients[c].active && h.clients[c].closed
    ensures c in Act(h, m).clients && Act(h, m).clients[c].closed && Act(h, m).clients[c].written == h.clients[c].written
  {
    hide Served;
    if m.PumpFinishes? {
      ClosedTakesNothing(h.clients[c], TransitionsAfter(h.log[..m.read], h.pump.minimum));
    }
  }

  lemma {:induction false} ClosedEnqueues(s: Subscriber, ts: seq<Transition>)
    requires s.closed
    ensures EnqueueAll(s, ts) == s
    decreases |ts|
  {
    if ts != [] {
      ClosedEnqueues(s, ts[..|ts|-1]);
    }
  }

  lemma ClosedTakesNothing(s: Subscriber, window: Window)
    requires s.closed
    ensures Pumped(s, window) == s
  {
    if window.Retained? {
      ClosedEnqueues(s, window.transitions);
    }
  }

  // ---------- the exception is real ----------

  lemma {:induction false} PlayAll(h: Hub, first: seq<Move>, rest: seq<Move>)
    requires AllowsAll(h, first) && AllowsAll(Play(h, first), rest)
    ensures AllowsAll(h, first + rest) && Play(h, first + rest) == Play(Play(h, first), rest)
    decreases |first|
  {
    hide Act, Allows;
    if first == [] {
      assert first + rest == rest;
    } else {
      PlayAll(Act(h, first[0]), first[1..], rest);
      assert (first + rest)[1..] == first[1..] + rest;
    }
  }

  lemma {:induction false} PlayAppends(h: Hub, e: Event, n: nat)
    ensures var moves := seq(n, i => Append(e));
      AllowsAll(h, moves) && Play(h, moves) == h.(log := h.log + seq(n, i => e))
    decreases n
  {
    var moves, log := seq(n, i => Append(e)), seq(n, i => e);
    if n == 0 {
      assert h.log + log == h.log;
    } else {
      PlayAppends(h.(log := h.log + [e]), e, n - 1);
      assert moves[1..] == seq(n - 1, i => Append(e));
      assert h.log + [e] + seq(n - 1, i => e) == h.log + log;
    }
  }

  lemma PlayFirst(h: Hub, m: Move, rest: seq<Move>)
    requires Allows(h, m) && AllowsAll(Act(h, m), rest)
    ensures AllowsAll(h, [m] + rest) && Play(h, [m] + rest) == Play(Act(h, m), rest)
  {
    hide Act, Allows;
    assert ([m] + rest)[1..] == rest;
  }

  function Fresh(cursor: nat, active: bool, take: nat -> bool): Subscriber {
    Subscriber(cursor, [], [], cursor, active, false, false, take)
  }

  /** A replay read when it was up to date with its cursor brings nothing. */
  lemma ActivatesEmpty(h: Hub, c: nat, read: nat, take: nat -> bool)
    requires !h.closed && c in h.clients && h.clients[c] == Fresh(read, false, take) && read <= |h.log|
    requires h.listed == h.clients.Keys && forall d :: d in h.clients ==> !h.clients[d].closed
    ensures Activate(h, c, read) == h.(clients := h.clients[c := Fresh(read, true, take)])
  {
    WindowOfPrefix(h.log, read, read);
    assert Slice(h.log, read, read) == [];
  }

  lemma EvictsBoth(h: Hub, take: nat -> bool)
    requires |h.log| == EVENT_REPLAY_LIMIT + 1 && h.listed == {0, 1} && h.pump == Resting && !h.closed
    requires h.clients == map[1 := Fresh(0, true, take), 0 := Fresh(|h.log|, true, take)]
    ensures Allows(h, PumpStarts(0))
    ensures var g := Act(h, PumpStarts(0));
      Allows(g, PumpFinishes(|g.log|)) && PumpFinish(g, |g.log|).clients[0].closed && g == h.(pump := Pumping({0, 1}, 0, |h.log|))
  {
    assert OpenClients(h) == {0, 1};
    assert IsMinimum(h, {0, 1}, 0) by {
      assert h.clients[1].accepted == 0;
    }
    WindowOfPrefix(h.log, |h.log|, 0);
  }

  /** Each subscriber is activated with the replay just read. When 129 transitions are logged before the pump next runs,
      the one that subscribed after them, holds the whole log and was never made to wait is evicted with the other. */
  lemma UpToDateIsEvicted(e: Event) returns (moves: seq<Move>)
    ensures AllowsAll(QUIET, moves)
    ensures var h := Play(QUIET, moves);
      && Allows(h, PumpFinishes(|h.log|)) && 0 in h.clients && h.clients[0].accepted == |h.log|
      && !h.clients[0].draining && !h.clients[0].closed && h.clients[0].queue == []
      && PumpFinish(h, |h.log|).clients[0].closed
  {
    hide Activate, PumpFinish, PumpStart, Play, AllowsAll;
    var n := EVENT_REPLAY_LIMIT + 1;
    var take := (k: nat) => true;
    var first := Subscribes(QUIET, 1, take);
    var h0 := Hub([], map[1 := Fresh(0, true, take)], {1}, Resting, false);
    assert QUIET.clients[1 := Fresh(0, true, take)] == h0.clients && QUIET.listed + {1} == h0.listed;
    var appends := seq(n, i => Append(e));
    PlayAppends(h0, e, n);
    PlayAll(QUIET, first, appends);
    var h1 := h0.(log := h0.log + seq(n, i => e));
    var second := Subscribes(h1, 0, take);
    PlayAll(QUIET, first + appends, second);
    var h2 := Subscribed(h1, 0, take);
    EvictsBoth(h2, take);
    PlayNothing(Act(h2, PumpStarts(0)));
    PlayFirst(h2, PumpStarts(0), []);
    PlayAll(QUIET, first + appends + second, [PumpStarts(0)] + []);
    moves := first + appends + second + ([PumpStarts(0)] + []);
  }

  function Subscribed(h: Hub, c: nat, take: nat -> bool): Hub {
    h.(clients := h.clients[c := Fresh(|h.log|, true, take)], listed := h.listed + {c})
  }

  /** Subscribing at the end of the log: registered and, with the replay just read, activated. */
  lemma Subscribes(h: Hub, c: nat, take: nat -> bool) returns (moves: seq<Move>)
    requires !h.closed && c !in h.clients && h.listed == h.clients.Keys && forall d :: d in h.clients ==> !h.clients[d].closed
    ensures AllowsAll(h, moves) && Play(h, moves) == Subscribed(h, c, take)
  {
    hide Activate, Play, AllowsAll;
    var g := Register(h, c, |h.log|, take);
    ActivatesEmpty(g, c, |h.log|, take);
    assert g.clients[c := Fresh(|h.log|, true, take)] == h.clients[c := Fresh(|h.log|, true, take)];
    PlayNothing(Activate(g, c, |h.log|));
    PlayFirst(g, Activates(c, |h.log|), []);
    PlayFirst(h, Registers(c, |h.log|, take), [Activates(c, |h.log|)] + []);
    moves := [Registers(c, |h.log|, take)] + ([Activates(c, |h.log|)] + []);
  }

  lemma PlayNothing(h: Hub)
    ensures AllowsAll(h, []) && Play(h, []) == h
  {
  }
}
