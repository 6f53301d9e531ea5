/** Subscribers catch up: what is queued is written when the response drains, what is logged is written when the hub pumps,
    and a stream that is cut off says so. */
module CatchingUp {
  import opened Types
  import opened Streams
  import opened Delivery

  // ---------- draining ----------

  /** The first n queued frames were written, each but the last without being asked to wait. */
  ghost predicate Wrote(s: Subscriber, u: Subscriber, n: nat) {
    && n <= |s.queue| && u.queue == s.queue[n..] && u.written == s.written + Frames(s.queue[..n])
    && (forall i | |s.written| <= i < |s.written| + n - 1 :: s.accepts(i))
    && (if n == 0 then !u.draining else u.draining == !s.accepts(|s.written| + n - 1))
    && (!u.draining ==> n == |s.queue|)
    && u == s.(queue := u.queue, written := u.written, draining := u.draining)
  }

  lemma {:induction false} FlushWrites(s: Subscriber) returns (n: nat)
    requires !s.closed && !s.draining
    ensures Wrote(s, Flush(s), n) && (s.queue != [] ==> n > 0)
    decreases |s.queue|
  {
    hide Wrote;
    if s.queue == [] {
      n := 0;
      WroteNone(s);
    } else {
      var v := s.(queue := s.queue[1..], written := s.written + [Data(s.queue[0])], draining := !s.accepts(|s.written|));
      assert Flush(s) == Flush(v);
      if v.draining {
        n := 1;
        WroteOne(s, v);
      } else {
        var m := FlushWrites(v);
        n := m + 1;
        WroteMore(s, v, Flush(v), m);
      }
    }
  }

  lemma WroteNone(s: Subscriber)
    requires s.queue == [] && !s.draining
    ensures Wrote(s, s, 0)
  {
    assert s.queue[..0] == [] && s.written + Frames([]) == s.written;
  }

  lemma WroteOne(s: Subscriber, v: Subscriber)
    requires s.queue != [] && !s.accepts(|s.written|)
    requires v == s.(queue := s.queue[1..], written := s.written + [Data(s.queue[0])], draining := true)
    ensures Wrote(s, v, 1)
  {
    assert Frames(s.queue[..1]) == [Data(s.queue[0])];
  }

  lemma WroteMore(s: Subscriber, v: Subscriber, u: Subscriber, m: nat)
    requires s.queue != [] && !s.draining && s.accepts(|s.written|) && Wrote(v, u, m)
    requires v == s.(queue := s.queue[1..], written := s.written + [Data(s.queue[0])], draining := false)
    ensures Wrote(s, u, m + 1)
  {
    assert s.queue[1..][m..] == s.queue[m + 1..];
    assert [Data(s.queue[0])] + Frames(s.queue[1..][..m]) == Frames(s.queue[..m + 1]);
    forall i | |s.written| <= i < |s.written| + m ensures s.accepts(i) {
      assert i > |s.written| ==> v.accepts(i);
    }
  }

  /** A drain resumes an open stream: of a queue that is not empty it writes frames up to and including the first that asks to
      wait again, and all of them if none does. */
  lemma DrainResumes(s: Subscriber) returns (n: nat)
    requires !s.closed && s.draining
    ensures Wrote(s.(draining := false), Drained(s), n) && (s.queue != [] ==> n > 0)
  {
    n := FlushWrites(s.(draining := false));
  }

  /** A response that takes everything from then on is sent all that was queued. */
  lemma DrainEmpties(s: Subscriber)
    requires !s.closed && s.draining && forall i :: i >= |s.written| ==> s.accepts(i)
    ensures Drained(s) == s.(draining := false, queue := [], written := s.written + Frames(s.queue))
  {
    var n := DrainResumes(s);
    assert s.queue[..|s.queue|] == s.queue;
    assert n > 0 ==> s.accepts(|s.written| + n - 1);
  }

  // ---------- being fed ----------

  /** A stream with nothing queued, whose response takes everything from now on. */
  ghost predicate Willing(s: Subscriber) {
    !s.closed && s.queue == [] && !s.draining && forall i :: i >= |s.written| ==> s.accepts(i)
  }

  lemma WillingTakes(s: Subscriber, t: Transition)
    requires Willing(s) && t.cursor > s.accepted
    ensures Enqueue(s, t) == s.(accepted := t.cursor, written := s.written + [Data(t)])
  {
    var v := s.(accepted := t.cursor, queue := [t]);
    assert s.queue + [t] == [t];
    assert Flush(v) == v.(queue := [], written := v.written + [Data(t)]) by {
      assert v.queue[1..] == [];
    }
  }

  /** It is sent all it is fed, at once. */
  lemma {:induction false} WillingIsServed(log: seq<Event>, s: Subscriber, end: nat)
    requires Willing(s) && s.accepted <= end <= |log|
    ensures var ts := Slice(log, s.accepted, end);
      EnqueueAll(s, ts) == s.(accepted := end, written := s.written + Frames(ts))
    decreases end
  {
    if s.accepted < end {
      SliceGrows(log, s.accepted, end - 1);
      WillingIsServed(log, s, end - 1);
      var ts := Slice(log, s.accepted, end - 1);
      var v := s.(accepted := end - 1, written := s.written + Frames(ts));
      WillingTakes(v, Transition(end, log[end - 1]));
      FramesGrow(ts, Transition(end, log[end - 1]));
      var last := Data(Transition(end, log[end - 1]));
      assert s.written + (Frames(ts) + [last]) == v.written + [last];
    } else {
      assert s.written + Frames([]) == s.written;
    }
  }

  /** A stream cut off for falling behind is asked to resynchronise, as its last frame. */
  lemma CutOffIsTold(s: Subscriber, t: Transition)
    requires !s.closed && Enqueue(s, t).closed
    ensures Enqueue(s, t).written == s.written + [ResyncRequired] && Enqueue(s, t).queue == []
  {
    if |s.queue| < EVENT_SUBSCRIBER_QUEUE_LIMIT && t.cursor > s.accepted && !s.draining {
      var n := FlushWrites(s.(accepted := t.cursor, queue := s.queue + [t]));
    }
  }

  /** And so is one whose cursor fell out of retention when the hub pumped. */
  lemma ExpiredIsTold(h: Hub, read: nat, c: nat)
    requires Sound(h) && Allows(h, PumpFinishes(read)) && c in h.pump.captured && !h.clients[c].closed
    requires h.pump.minimum + EVENT_REPLAY_LIMIT < read
    ensures var g := PumpFinish(h, read);
      c !in g.listed && g.clients[c].closed && g.clients[c].written == h.clients[c].written + [ResyncRequired]
  {
    hide EnqueueAll, Served;
    PumpServesEachAlone(h, read, c);
  }

  // ---------- the hub ----------

  /** Subscribing: what is still retained after the cursor is sent at once to a response that takes everything, and the
      subscriber stays listed; if the cursor is too old or ahead, nothing is sent and it is not listed. */
  lemma SubscriberIsServed(h: Hub, c: nat, cursor: nat, read: nat, take: nat -> bool)
    requires !h.closed && c !in h.clients && read <= |h.log| && forall i :: take(i)
    requires forall d | d in h.listed :: d in h.clients && !h.clients[d].closed
    ensures var g := Activate(Register(h, c, cursor, take), c, read);
      if cursor <= read <= cursor + EVENT_REPLAY_LIMIT then
        && g.listed == h.listed + {c} && c in g.clients && g.clients[c].active && !g.clients[c].closed
        && g.clients[c].accepted == read && g.clients[c].written == Frames(Slice(h.log, cursor, read))
      else g.listed == h.listed - {c} && c in g.clients && g.clients[c].written == []
  {
    hide EnqueueAll, TransitionsAfter;
    var s := Subscriber(cursor, [], [], cursor, true, false, false, take);
    WindowOfPrefix(h.log, read, cursor);
    if cursor <= read <= cursor + EVENT_REPLAY_LIMIT {
      WillingIsServed(h.log, s, read);
      assert [] + Frames(Slice(h.log, cursor, read)) == Frames(Slice(h.log, cursor, read));
    }
  }

  /** Everyone is caught up by one pump: an open subscriber whose response has drained and takes everything is sent the whole
      log, as long as the furthest behind of the open ones is still within retention. */
  lemma PumpCatchesUp(h: Hub, c: nat, minimum: nat)
    requires Sound(h) && !h.closed && h.pump == Resting && c in OpenClients(h) && IsMinimum(h, OpenClients(h), minimum)
    requires |h.log| <= minimum + EVENT_REPLAY_LIMIT && Willing(h.clients[c])
    ensures Allows(h, PumpStarts(minimum)) && Allows(Act(h, PumpStarts(minimum)), PumpFinishes(|h.log|))
    ensures var g := Act(Act(h, PumpStarts(minimum)), PumpFinishes(|h.log|));
      && c in g.clients && g.pump == Resting && c in OpenClients(g) && Willing(g.clients[c])
      && g.clients[c].accepted == |h.log| && g.clients[c].written == Frames(Slice(h.log, h.clients[c].start, |h.log|))
  {
    hide EnqueueAll, Flush;
    var s, n := h.clients[c], |h.log|;
    var p := Act(h, PumpStarts(minimum));
    PumpStartSound(h, minimum);
    assert Served(h.log, s);
    PumpServesEachAlone(p, n, c);
    WillingIsServed(h.log, s, n);
    FrameSplit(h.log, s, n);
  }

  lemma FrameSplit(log: seq<Event>, s: Subscriber, end: nat)
    requires InOrder(log, s) && s.queue == [] && s.accepted <= end <= |log|
    ensures s.written + Frames(Slice(log, s.accepted, end)) == Frames(Slice(log, s.start, end))
  {
    assert s.written + Frames([]) == s.written;
    assert Slice(log, s.start, s.accepted) + Slice(log, s.accepted, end) == Slice(log, s.start, end);
  }

  /** A stalled subscriber catches up too: once its response drains and takes everything, one pump sends it the whole log. */
  lemma DrainThenPump(h: Hub, c: nat, minimum: nat)
    requires Sound(h) && !h.closed && h.pump == Resting && c in OpenClients(h) && IsMinimum(h, OpenClients(h), minimum)
    requires |h.log| <= minimum + EVENT_REPLAY_LIMIT && h.clients[c].draining
    requires forall i :: i >= |h.clients[c].written| ==> h.clients[c].accepts(i)
    ensures var d := Act(h, Drains(c));
      && Allows(d, PumpStarts(minimum)) && Allows(Act(d, PumpStarts(minimum)), PumpFinishes(|h.log|))
      && var g := Act(Act(d, PumpStarts(minimum)), PumpFinishes(|h.log|));
         && c in g.clients && !g.clients[c].closed && !g.clients[c].draining && g.clients[c].queue == []
         && g.clients[c].written == Frames(Slice(h.log, h.clients[c].start, |h.log|))
  {
    hide Served, EnqueueAll, Flush;
    var d := Act(h, Drains(c));
    DrainEmpties(h.clients[c]);
    ActSound(h, Drains(c));
    assert d.clients[c].accepts == h.clients[c].accepts && |d.clients[c].written| >= |h.clients[c].written|;
    assert OpenClients(d) == OpenClients(h);
    SameMinimum(h, d, minimum);
    PumpCatchesUp(d, c, minimum);
  }

  lemma SameMinimum(h: Hub, d: Hub, minimum: nat)
    requires IsMinimum(h, OpenClients(h), minimum) && OpenClients(d) == OpenClients(h) && d.clients.Keys == h.clients.Keys
    requires forall b | b in h.clients :: d.clients[b].accepted == h.clients[b].accepted
    ensures IsMinimum(d, OpenClients(d), minimum)
  {
    var b :| b in OpenClients(h) && b in h.clients && h.clients[b].accepted == minimum;
    assert d.clients[b].accepted == minimum;
  }

  /** A response that fails, or whose client leaves, is delisted and sent nothing more. */
  lemma LeavingIsFinal(h: Hub, c: nat)
    requires c in h.clients
    ensures forall m | m == Errs(c) || m == Closes(c) ::
      var g := Act(h, m);
      g.listed == h.listed - {c} && c in g.clients && g.clients[c].closed && g.clients[c].written == h.clients[c].written
  {
  }

  /** A closed hub holds nobody: all it held are closed without another frame, and later subscribers are not taken in. */
  lemma ClosedHubIsEmpty(h: Hub, c: nat, cursor: nat, take: nat -> bool)
    requires Sound(h)
    ensures var g := Act(h, ClosesHub);
      && g.closed && g.listed == {} && Register(g, c, cursor, take) == g
      && forall d | d in h.listed :: d in g.clients && g.clients[d].closed && g.clients[d].written == h.clients[d].written
  {
    hide Served;
  }
}
