/** The transition stream: one cursor, one bounded queue and one back-pressure flag per subscriber, fed by a replay when
    it subscribes and by a shared pump afterwards. */
module Streams {
  import opened Types

  datatype Transition = Transition(cursor: nat, event: Event)

  datatype Frame = Data(transition: Transition) | ResyncRequired

  /** `accepts` says of the n-th frame whether the response takes it without asking to wait for a drain. */
  datatype Subscriber = Subscriber(
    start: nat, written: seq<Frame>, queue: seq<Transition>, accepted: nat,
    active: bool, draining: bool, closed: bool, accepts: nat -> bool)

  datatype Window = Retained(transitions: seq<Transition>) | CursorExpired | CursorAhead

  /** The transitions with start < cursor <= end. */
  function Slice(log: seq<Event>, start: nat, end: nat): seq<Transition>
    requires start <= end <= |log|
  {
    seq(end - start, i requires 0 <= i < end - start => Transition(start + i + 1, log[start + i]))
  }

  function TransitionsAfter(log: seq<Event>, cursor: nat): Window {
    if cursor + EVENT_REPLAY_LIMIT < |log| then CursorExpired
    else if cursor > |log| then CursorAhead
    else Retained(Slice(log, cursor, |log|))
  }

  function Flush(s: Subscriber): Subscriber
    decreases |s.queue|
  {
    if s.closed || s.draining || s.queue == [] then s
    else Flush(s.(queue := s.queue[1..], written := s.written + [Data(s.queue[0])], draining := !s.accepts(|s.written|)))
  }

  function Overflow(s: Subscriber): Subscriber {
    if s.closed then s else s.(closed := true, queue := [], written := s.written + [ResyncRequired])
  }

  function Enqueue(s: Subscriber, t: Transition): Subscriber {
    if s.closed || t.cursor <= s.accepted then s
    else if |s.queue| >= EVENT_SUBSCRIBER_QUEUE_LIMIT then Overflow(s.(accepted := t.cursor))
    else Flush(s.(accepted := t.cursor, queue := s.queue + [t]))
  }

  function EnqueueAll(s: Subscriber, ts: seq<Transition>): Subscriber
    decreases |ts|
  {
    if ts == [] then s else Enqueue(EnqueueAll(s, ts[..|ts|-1]), ts[|ts|-1])
  }

  function Drained(s: Subscriber): Subscriber {
    if s.draining then Flush(s.(draining := false)) else s
  }

  function CloseOne(s: Subscriber): Subscriber {
    if s.closed then s else s.(closed := true, queue := [])
  }

  datatype Pump = Resting | Pumping(captured: set<nat>, minimum: nat, since: nat)

  /** `clients` keeps every subscriber ever created, `listed` those the hub still holds. */
  datatype Hub = Hub(log: seq<Event>, clients: map<nat, Subscriber>, listed: set<nat>, pump: Pump, closed: bool)

  function OpenClients(h: Hub): set<nat> {
    set c | c in h.listed && c in h.clients && h.clients[c].active && !h.clients[c].closed
  }

  predicate IsMinimum(h: Hub, captured: set<nat>, minimum: nat) {
    (exists c :: c in captured && c in h.clients && h.clients[c].accepted == minimum)
    && forall c :: c in captured && c in h.clients ==> minimum <= h.clients[c].accepted
  }

  function Register(h: Hub, c: nat, cursor: nat, accepts: nat -> bool): Hub {
    if h.closed then h else
    h.(clients := h.clients[c := Subscriber(cursor, [], [], cursor, false, false, false, accepts)], listed := h.listed + {c})
  }

  /** The second half of subscribe, with the replay read when the log was `read` long. */
  function Activate(h: Hub, c: nat, read: nat): Hub
    requires c in h.clients && read <= |h.log|
  {
    var window, s := TransitionsAfter(h.log[..read], h.clients[c].start), h.clients[c];
    if !window.Retained? || s.closed || h.closed then h.(listed := h.listed - {c})
    else Relist(h.(clients := h.clients[c := EnqueueAll(s.(active := true), window.transitions)]))
  }

  /** Overflow and close take a subscriber off the hub's set. */
  function Relist(h: Hub): Hub {
    h.(listed := set c | c in h.listed && c in h.clients && !h.clients[c].closed)
  }

  function PumpStart(h: Hub, minimum: nat): Hub {
    if h.pump.Pumping? || h.closed || OpenClients(h) == {} then h else h.(pump := Pumping(OpenClients(h), minimum, |h.log|))
  }

  function Pumped(s: Subscriber, window: Window): Subscriber {
    if window.Retained? then EnqueueAll(s, window.transitions) else Overflow(s)
  }

  /** The second half of the pump, with the window read when the log was `read` long. */
  function PumpFinish(h: Hub, read: nat): Hub
    requires h.pump.Pumping? && read <= |h.log|
  {
    var window := TransitionsAfter(h.log[..read], h.pump.minimum);
    Relist(h.(clients := map c | c in h.clients :: if c in h.pump.captured then Pumped(h.clients[c], window) else h.clients[c],
              pump := Resting))
  }

  datatype Move =
    | Append(event: Event)
    | Registers(client: nat, cursor: nat, accepts: nat -> bool)
    | Activates(client: nat, read: nat)
    | PumpStarts(minimum: nat)
    | PumpFinishes(read: nat)
    | Drains(client: nat)
    | Errs(client: nat)
    | Closes(client: nat)
    | ClosesHub

  function Act(h: Hub, m: Move): Hub
    requires Allows(h, m)
  {
    match m
    case Append(e) => h.(log := h.log + [e])
    case Registers(c, cursor, accepts) => Register(h, c, cursor, accepts)
    case Activates(c, read) => Activate(h, c, read)
    case PumpStarts(minimum) => PumpStart(h, minimum)
    case PumpFinishes(read) => PumpFinish(h, read)
    case Drains(c) => h.(clients := h.clients[c := Drained(h.clients[c])])
    case Errs(c) => h.(clients := h.clients[c := h.clients[c].(closed := true)], listed := h.listed - {c})
    case Closes(c) => h.(clients := h.clients[c := CloseOne(h.clients[c])], listed := h.listed - {c})
    case ClosesHub =>
      Relist(h.(closed := true, clients := map c | c in h.clients :: if c in h.listed then CloseOne(h.clients[c]) else h.clients[c]))
  }

  /** Clients are new, halves come in order, and a window is read after its pump started. */
  predicate Allows(h: Hub, m: Move) {
    match m
    case Append(e) => true
    case Registers(c, cursor, accepts) => c !in h.clients
    case Activates(c, read) => c in h.clients && !h.clients[c].active && read <= |h.log|
    case PumpStarts(minimum) => OpenClients(h) != {} ==> IsMinimum(h, OpenClients(h), minimum)
    case PumpFinishes(read) => h.pump.Pumping? && h.pump.since <= read <= |h.log|
    case Drains(c) => c in h.clients
    case Errs(c) => c in h.clients
    case Closes(c) => c in h.clients
    case ClosesHub => true
  }

  const QUIET := Hub([], map[], {}, Resting, false)

  // ---------- one subscriber ----------

  function Frames(ts: seq<Transition>): (fs: seq<Frame>)
    ensures |fs| == |ts|
  {
    seq(|ts|, i requires 0 <= i < |ts| => Data(ts[i]))
  }

  /** Written then queued is exactly what the log holds after the start and up to the cursor. */
  predicate InOrder(log: seq<Event>, s: Subscriber) {
    s.start <= s.accepted <= |log| && |s.queue| <= EVENT_SUBSCRIBER_QUEUE_LIMIT
    && s.written + Frames(s.queue) == Frames(Slice(log, s.start, s.accepted))
    && (!s.draining ==> s.queue == [])
  }

  /** A closed stream: a prefix of the log from its start, with a request to resynchronise last or not at all. */
  predicate CutShort(log: seq<Event>, s: Subscriber, cut: nat) {
    s.start <= cut <= |log|
    && (s.written == Frames(Slice(log, s.start, cut)) || s.written == Frames(Slice(log, s.start, cut)) + [ResyncRequired])
  }

  ghost predicate Served(log: seq<Event>, s: Subscriber) {
    if !s.active then s.written == [] && s.queue == [] && s.accepted == s.start && !s.draining
    else if s.closed then exists cut :: CutShort(log, s, cut)
    else InOrder(log, s)
  }

  lemma {:induction false} FlushKeeps(s: Subscriber)
    requires !s.closed
    ensures var u := Flush(s);
      u == s.(queue := u.queue, written := u.written, draining := u.draining) && |u.queue| <= |s.queue|
      && u.written + Frames(u.queue) == s.written + Frames(s.queue) && (!u.draining ==> u.queue == [])
    decreases |s.queue|
  {
    if !s.draining && s.queue != [] {
      var v := s.(queue := s.queue[1..], written := s.written + [Data(s.queue[0])], draining := !s.accepts(|s.written|));
      FlushKeeps(v);
      assert v.written + Frames(v.queue) == s.written + Frames(s.queue);
    }
  }

  lemma SliceGrows(log: seq<Event>, start: nat, end: nat)
    requires start <= end < |log|
    ensures Slice(log, start, end + 1) == Slice(log, start, end) + [Transition(end + 1, log[end])]
  {
  }

  lemma FramesGrow(ts: seq<Transition>, t: Transition)
    ensures Frames(ts + [t]) == Frames(ts) + [Data(t)]
  {
  }

  lemma OverflowCut(log: seq<Event>, s: Subscriber, accepted: nat)
    requires InOrder(log, s) && s.active && !s.closed
    ensures Served(log, Overflow(s.(accepted := accepted)))
  {
    var cut := s.start + |s.written|;
    PrefixCut(log, s);
    assert CutShort(log, Overflow(s.(accepted := accepted)), cut);
  }

  /** What was written so far is a prefix of the log from the start. */
  lemma PrefixCut(log: seq<Event>, s: Subscriber)
    requires InOrder(log, s)
    ensures var cut := s.start + |s.written|;
      cut <= s.accepted && s.written == Frames(Slice(log, s.start, cut))
  {
    var cut := s.start + |s.written|;
    assert |s.written + Frames(s.queue)| == s.accepted - s.start;
    assert s.written == (s.written + Frames(s.queue))[..|s.written|];
  }

  lemma EnqueueKeeps(log: seq<Event>, s: Subscriber, t: Transition)
    requires Served(log, s) && s.active && (!s.closed ==> t.cursor <= s.accepted + 1)
    requires 1 <= t.cursor <= |log| && t.event == log[t.cursor - 1]
    ensures var u := Enqueue(s, t);
      Served(log, u) && u.active && u.start == s.start && (!u.closed ==> !s.closed && u.accepted >= s.accepted && u.accepted >= t.cursor)
  {
    if !s.closed && t.cursor > s.accepted {
      if |s.queue| >= EVENT_SUBSCRIBER_QUEUE_LIMIT {
        OverflowCut(log, s, t.cursor);
      } else {
        SliceGrows(log, s.start, s.accepted);
        FramesGrow(s.queue, t);
        FramesGrow(Slice(log, s.start, s.accepted), t);
        FlushKeeps(s.(accepted := t.cursor, queue := s.queue + [t]));
      }
    }
  }

  /** Feeding a contiguous window that begins no later than the cursor leaves no gap. */
  lemma {:induction false} EnqueueAllKeeps(log: seq<Event>, s: Subscriber, begin: nat, end: nat)
    requires Served(log, s) && s.active && begin <= end <= |log| && (!s.closed ==> begin <= s.accepted)
    ensures var u := EnqueueAll(s, Slice(log, begin, end));
      Served(log, u) && u.active && u.start == s.start
      && (!u.closed ==> !s.closed && u.accepted >= s.accepted && u.accepted >= end)
    decreases end
  {
    hide Served, Enqueue;
    if begin < end {
      SliceGrows(log, begin, end - 1);
      EnqueueAllKeeps(log, s, begin, end - 1);
      EnqueueKeeps(log, EnqueueAll(s, Slice(log, begin, end - 1)), Transition(end, log[end - 1]));
    }
  }

  /** What a subscriber is given does not depend on where the shared window begins. */
  lemma {:induction false} WindowStartIsIrrelevant(log: seq<Event>, s: Subscriber, begin: nat, end: nat)
    requires begin <= s.accepted && begin <= end <= |log|
    ensures EnqueueAll(s, Slice(log, begin, end)) == EnqueueAll(s, Slice(log, if s.accepted < end then s.accepted else end, end))
    decreases end
  {
    hide Flush;
    if begin < end {
      SliceGrows(log, begin, end - 1);
      WindowStartIsIrrelevant(log, s, begin, end - 1);
      if s.accepted < end {
        SliceGrows(log, s.accepted, end - 1);
      } else {
        assert Slice(log, end - 1, end - 1) == [] == Slice(log, end, end);
      }
    }
  }

  /** A response that never asks to wait is never cut off by its queue. */
  lemma {:induction false} FastIsNeverCutOff(s: Subscriber, ts: seq<Transition>)
    requires !s.closed && !s.draining && s.queue == [] && forall n :: s.accepts(n)
    ensures var u := EnqueueAll(s, ts); !u.closed && !u.draining && u.queue == [] && u.accepts == s.accepts
    decreases |ts|
  {
    if ts != [] {
      var v := EnqueueAll(s, ts[..|ts|-1]);
      FastIsNeverCutOff(s, ts[..|ts|-1]);
      var t := ts[|ts|-1];
      var w := v.(accepted := t.cursor, queue := [t]);
      assert v.queue + [t] == [t];
      assert Flush(w) == w.(queue := [], written := w.written + [Data(t)], draining := false) by {
        assert w.queue[1..] == [];
      }
    }
  }

  /** A stalled response keeps everything until its queue would exceed its bound, and only then is cut off. */
  lemma {:induction false} StalledIsCutOffExactly(log: seq<Event>, s: Subscriber, end: nat)
    requires !s.closed && s.draining && s.accepted <= end <= |log| && |s.queue| <= EVENT_SUBSCRIBER_QUEUE_LIMIT
    ensures var u := EnqueueAll(s, Slice(log, s.accepted, end));
      && (u.closed <==> |s.queue| + (end - s.accepted) > EVENT_SUBSCRIBER_QUEUE_LIMIT)
      && (!u.closed ==> u == s.(accepted := end, queue := s.queue + Slice(log, s.accepted, end)))
    decreases end
  {
    if s.accepted < end {
      SliceGrows(log, s.accepted, end - 1);
      StalledIsCutOffExactly(log, s, end - 1);
      var v := EnqueueAll(s, Slice(log, s.accepted, end - 1));
      assert s.queue + Slice(log, s.accepted, end) == (s.queue + Slice(log, s.accepted, end - 1)) + [Transition(end, log[end - 1])];
    } else {
      assert s.queue + [] == s.queue;
    }
  }
}
