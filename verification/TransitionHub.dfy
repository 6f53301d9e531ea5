/** The stream hub as it runs: the halves of subscribe and pump on either side of an await, with loops over the
    transitions of a window and over the captured subscribers. */
module TransitionHubs {
  import opened Types
  import S = Streams
  import opened Delivery
  import opened WorkStores

  class TransitionHub {
    var clients: map<nat, S.Subscriber>
    var subscribers: set<nat>
    var pumping: bool
    var closed: bool
    ghost var pump: S.Pump

    ghost function View(log: seq<Event>): S.Hub
      reads this
    {
      S.Hub(log, clients, subscribers, pump, closed)
    }

    ghost predicate Valid(log: seq<Event>)
      reads this
    {
      Sound(View(log)) && (pumping <==> pump.Pumping?)
    }

    constructor ()
      ensures Valid([]) && View([]) == S.QUIET
    {
      clients, subscribers, pumping, closed, pump := map[], {}, false, false, S.Resting;
    }

    // ---------- one subscriber ----------

    /** Writes queued transitions until the response asks to wait. */
    method Flush(c: nat)
      requires c in clients
      modifies this`clients
      ensures clients == old(clients)[c := S.Flush(old(clients[c]))]
    {
      if clients[c].closed || clients[c].draining {
        return;
      }
      while clients[c].queue != []
        invariant c in clients && !clients[c].closed && !clients[c].draining
        invariant clients == old(clients)[c := clients[c]]
        invariant S.Flush(clients[c]) == S.Flush(old(clients[c]))
        decreases |clients[c].queue|
      {
        var s := clients[c];
        var took := s.accepts(|s.written|);
        clients := clients[c := s.(queue := s.queue[1..], written := s.written + [S.Data(s.queue[0])], draining := !took)];
        if !took {
          return;
        }
      }
    }

    method Overflow(c: nat)
      requires c in clients
      modifies this`clients, this`subscribers
      ensures clients == old(clients)[c := S.Overflow(old(clients[c]))]
      ensures subscribers == if old(clients[c]).closed then old(subscribers) else old(subscribers) - {c}
    {
      var s := clients[c];
      if s.closed {
        return;
      }
      subscribers := subscribers - {c};
      clients := clients[c := s.(closed := true, queue := [], written := s.written + [S.ResyncRequired])];
    }

    method Enqueue(c: nat, t: S.Transition)
      requires c in clients && (clients[c].closed ==> c !in subscribers)
      modifies this`clients, this`subscribers
      ensures clients == old(clients)[c := S.Enqueue(old(clients[c]), t)]
      ensures subscribers == if clients[c].closed then old(subscribers) - {c} else old(subscribers)
      ensures old(clients[c]).closed ==> clients[c].closed
    {
      var s := clients[c];
      if s.closed || t.cursor <= s.accepted {
        return;
      }
      clients := clients[c := s.(accepted := t.cursor)];
      if |s.queue| >= EVENT_SUBSCRIBER_QUEUE_LIMIT {
        Overflow(c);
        return;
      }
      clients := clients[c := clients[c].(queue := s.queue + [t])];
      S.FlushKeeps(clients[c]);
      Flush(c);
    }

    method Drain(c: nat, ghost log: seq<Event>)
      requires Valid(log) && c in clients && clients[c].draining
      modifies this`clients
      ensures View(log) == S.Act(old(View(log)), S.Drains(c))
      ensures Valid(log)
    {
      ActSound(View(log), S.Drains(c));
      clients := clients[c := clients[c].(draining := false)];
      Flush(c);
    }

    method CloseSubscriber(c: nat, ghost log: seq<Event>)
      requires Valid(log) && c in clients
      modifies this`clients, this`subscribers
      ensures View(log) == S.Act(old(View(log)), S.Closes(c))
      ensures Valid(log)
    {
      hide S.Served;
      CloseServed(log, clients[c]);
      if clients[c].closed {
        return;
      }
      ReplaceSound(View(log), c, S.CloseOne(clients[c]), subscribers - {c});
      subscribers := subscribers - {c};
      clients := clients[c := clients[c].(closed := true, queue := [])];
    }

    // ---------- subscribing ----------

    method BeginSubscribe(c: nat, cursor: nat, accepts: nat -> bool, ghost log: seq<Event>) returns (ok: bool)
      requires Valid(log) && c !in clients
      modifies this`clients, this`subscribers
      ensures ok == !closed && View(log) == S.Act(old(View(log)), S.Registers(c, cursor, accepts))
      ensures Valid(log)
    {
      RegisterSound(View(log), c, cursor, accepts);
      if closed {
        return false;
      }
      clients := clients[c := S.Subscriber(cursor, [], [], cursor, false, false, false, accepts)];
      subscribers := subscribers + {c};
      return true;
    }

    /** `window` was read from the log when it was `read` long. */
    method FinishSubscribe(c: nat, window: S.Window, ghost log: seq<Event>, ghost read: nat) returns (ok: bool)
      requires Valid(log) && S.Allows(View(log), S.Activates(c, read))
      requires window == S.TransitionsAfter(log[..read], clients[c].start)
      modifies this`clients, this`subscribers
      ensures View(log) == S.Act(old(View(log)), S.Activates(c, read))
      ensures Valid(log)
    {
      hide S.Served, PumpHolds, S.TransitionsAfter, S.Enqueue;
      ActSound(View(log), S.Activates(c, read));
      if !window.Retained? || clients[c].closed || closed {
        subscribers := subscribers - {c};
        return false;
      }
      clients := clients[c := clients[c].(active := true)];
      label Active:
      var i, ts := 0, window.transitions;
      while i < |ts|
        invariant 0 <= i <= |ts| && c in clients
        invariant clients == old@Active(clients)[c := S.EnqueueAll(old@Active(clients[c]), ts[..i])]
        invariant subscribers == if clients[c].closed then old(subscribers) - {c} else old(subscribers)
      {
        assert ts[..i+1][..i] == ts[..i];
        Enqueue(c, ts[i]);
        i := i + 1;
      }
      assert ts[..i] == ts;
      return true;
    }

    // ---------- the pump ----------

    /** Captures the open subscribers and the cursor of the furthest behind. */
    method BeginPump(ghost log: seq<Event>) returns (captured: seq<nat>, minimum: nat)
      requires Valid(log)
      modifies this`pumping, this`pump
      ensures S.Allows(old(View(log)), S.PumpStarts(minimum))
      ensures View(log) == S.Act(old(View(log)), S.PumpStarts(minimum))
      ensures captured != [] ==>
        pumping && pump.Pumping? && Enumerates(captured, pump.captured) && pump.minimum == minimum
      ensures Valid(log)
    {
      hide S.Served;
      var open := set c | c in subscribers && c in clients && clients[c].active && !clients[c].closed;
      assert open == S.OpenClients(View(log));
      captured, minimum := [], 0;
      if open == {} {
        return;
      }
      captured := Select(open);
      NonEmpty(captured, open);
      minimum := LeastCursor(captured);
      MinimumOf(log, captured, minimum);
      PumpStartSound(View(log), minimum);
      if pumping || closed {
        captured := [];
        return;
      }
      pumping, pump := true, S.Pumping(open, minimum, |log|);
    }

    lemma NonEmpty(captured: seq<nat>, open: set<nat>)
      requires Enumerates(captured, open) && open != {} && open <= clients.Keys
      ensures captured != [] && forall j :: 0 <= j < |captured| ==> captured[j] in clients
    {
      var c :| c in open;
      assert c in captured;
      assert forall j :: 0 <= j < |captured| ==> captured[j] in captured;
    }

    /** Math.min over the captured cursors. */
    method LeastCursor(captured: seq<nat>) returns (minimum: nat)
      requires captured != [] && forall j :: 0 <= j < |captured| ==> captured[j] in clients
      ensures exists j :: 0 <= j < |captured| && clients[captured[j]].accepted == minimum
      ensures forall j :: 0 <= j < |captured| ==> minimum <= clients[captured[j]].accepted
    {
      minimum := clients[captured[0]].accepted;
      var i := 1;
      while i < |captured|
        invariant 1 <= i <= |captured|
        invariant exists j :: 0 <= j < |captured| && clients[captured[j]].accepted == minimum
        invariant forall j :: 0 <= j < i ==> minimum <= clients[captured[j]].accepted
      {
        if clients[captured[i]].accepted < minimum {
          minimum := clients[captured[i]].accepted;
        }
        i := i + 1;
      }
    }

    lemma MinimumOf(log: seq<Event>, captured: seq<nat>, minimum: nat)
      requires Enumerates(captured, S.OpenClients(View(log)))
        && forall j :: 0 <= j < |captured| ==> captured[j] in clients
      requires exists j :: 0 <= j < |captured| && clients[captured[j]].accepted == minimum
      requires forall j :: 0 <= j < |captured| ==> minimum <= clients[captured[j]].accepted
      ensures S.IsMinimum(View(log), S.OpenClients(View(log)), minimum)
    {
      var j :| 0 <= j < |captured| && clients[captured[j]].accepted == minimum;
      assert captured[j] in captured;
    }

    /** Every listed subscriber is one the hub knows and has not closed. */
    predicate OnlyOpenListed()
      reads this
    {
      forall c :: c in subscribers ==> c in clients && !clients[c].closed
    }

    function StillOpen(listed: set<nat>): set<nat>
      reads this
    {
      set c | c in listed && c in clients && !clients[c].closed
    }

    /** One transition, offered to each captured subscriber in turn. */
    method OfferToAll(captured: seq<nat>, t: S.Transition)
      requires OnlyOpenListed() && forall j :: 0 <= j < |captured| ==> captured[j] in clients
      requires forall i, j :: 0 <= i < j < |captured| ==> captured[i] != captured[j]
      modifies this`clients, this`subscribers
      ensures clients == Offered(old(clients), captured, t)
      ensures subscribers == StillOpen(old(subscribers)) && OnlyOpenListed()
      ensures forall c :: c in old(clients) && old(clients[c]).closed ==> clients[c].closed
    {
      hide S.Enqueue, Offered;
      var j := 0;
      OfferedNone(clients, captured, t);
      while j < |captured|
        invariant 0 <= j <= |captured| && OnlyOpenListed() && clients.Keys == old(clients).Keys
        invariant clients == Offered(old(clients), captured[..j], t)
        invariant forall c :: c in old(clients) && old(clients[c]).closed ==> clients[c].closed
        invariant subscribers == StillOpen(old(subscribers))
      {
        assert captured[j] !in captured[..j];
        OfferedOneMore(old(clients), captured, j, t);
        Offer(captured[j], t);
        j := j + 1;
      }
      assert captured[..j] == captured;
    }

    /** The pump offers only what is newer than the cursor. */
    method Offer(c: nat, t: S.Transition)
      requires OnlyOpenListed() && c in clients
      modifies this`clients, this`subscribers
      ensures clients == old(clients)[c := S.Enqueue(old(clients[c]), t)]
      ensures subscribers == StillOpen(old(subscribers)) && OnlyOpenListed()
      ensures old(clients[c]).closed ==> clients[c].closed
    {
      hide S.Enqueue;
      if t.cursor > clients[c].accepted {
        Enqueue(c, t);
      } else {
        SkipsOld(clients[c], t);
      }
    }

    lemma SkipsOld(s: S.Subscriber, t: S.Transition)
      requires t.cursor <= s.accepted
      ensures S.Enqueue(s, t) == s
    {
    }

    /** The transitions of a window in order, each offered to all before the next. */
    method FeedAll(captured: seq<nat>, ts: seq<S.Transition>)
      requires OnlyOpenListed() && forall j :: 0 <= j < |captured| ==> captured[j] in clients
      requires forall i, j :: 0 <= i < j < |captured| ==> captured[i] != captured[j]
      modifies this`clients, this`subscribers
      ensures clients == Fed(old(clients), captured, ts)
      ensures subscribers == StillOpen(old(subscribers)) && OnlyOpenListed()
    {
      hide S.EnqueueAll, S.Enqueue;
      var i := 0;
      FedNothing(clients, captured);
      while i < |ts|
        invariant 0 <= i <= |ts| && OnlyOpenListed() && clients.Keys == old(clients).Keys
        invariant clients == Fed(old(clients), captured, ts[..i])
        invariant subscribers == StillOpen(old(subscribers))
      {
        assert ts[..i+1][..i] == ts[..i];
        OfferToAll(captured, ts[i]);
        FedOneMore(old(clients), captured, ts[..i+1]);
        i := i + 1;
      }
      assert ts[..i] == ts;
    }

    /** `window` was read after the pump began, when the log was `read` long. */
    method FinishPump(captured: seq<nat>, window: S.Window, ghost log: seq<Event>, ghost read: nat)
      requires Valid(log) && S.Allows(View(log), S.PumpFinishes(read)) && Enumerates(captured, pump.captured)
      requires window == S.TransitionsAfter(log[..read], pump.minimum)
      modifies this`clients, this`subscribers, this`pumping, this`pump
      ensures View(log) == S.Act(old(View(log)), S.PumpFinishes(read))
      ensures Valid(log) && !pumping
    {
      hide S.Served, S.Enqueue, S.TransitionsAfter, PumpHolds;
      PumpFinishSound(View(log), read);
      assert forall j :: 0 <= j < |captured| ==> captured[j] in captured;
      assert forall c :: c in captured <==> c in pump.captured;
      if window.Retained? {
        FeedAll(captured, window.transitions);
      } else {
        OverflowAll(captured);
      }
      pumping, pump := false, S.Resting;
      ghost var done := S.PumpFinish(old(View(log)), read);
      assert clients == done.clients;
      assert subscribers == done.listed;
    }

    method OverflowAll(captured: seq<nat>)
      requires OnlyOpenListed() && forall j :: 0 <= j < |captured| ==> captured[j] in clients
      requires forall i, j :: 0 <= i < j < |captured| ==> captured[i] != captured[j]
      modifies this`clients, this`subscribers
      ensures clients == map c | c in old(clients) :: if c in captured then S.Overflow(old(clients[c])) else old(clients[c])
      ensures subscribers == StillOpen(old(subscribers)) && OnlyOpenListed()
    {
      var j := 0;
      while j < |captured|
        invariant 0 <= j <= |captured| && OnlyOpenListed()
        invariant clients == map c | c in old(clients) :: if c in captured[..j] then S.Overflow(old(clients[c])) else old(clients[c])
        invariant subscribers == StillOpen(old(subscribers))
      {
        assert captured[j] !in captured[..j] && captured[..j+1] == captured[..j] + [captured[j]];
        Overflow(captured[j]);
        j := j + 1;
      }
      assert captured[..j] == captured;
    }

    method CloseAll()
      requires OnlyOpenListed()
      modifies this`clients, this`subscribers
      ensures subscribers == {}
      ensures clients == map c | c in old(clients) :: if c in old(subscribers) then S.CloseOne(old(clients[c])) else old(clients[c])
    {
      var rest := subscribers;
      while rest != {}
        invariant rest <= old(subscribers) && subscribers == rest && clients.Keys == old(clients).Keys
        invariant clients == map c | c in old(clients) ::
          if c in old(subscribers) - rest then S.CloseOne(old(clients[c])) else old(clients[c])
        decreases |rest|
      {
        var c :| c in rest;
        var s := clients[c];
        clients := clients[c := s.(closed := true, queue := [])];
        rest, subscribers := rest - {c}, subscribers - {c};
      }
    }

    /** Closes the hub and every subscriber it holds. */
    method Close(ghost log: seq<Event>)
      requires Valid(log)
      modifies this`clients, this`subscribers, this`closed
      ensures View(log) == if old(closed) then old(View(log)) else S.Act(old(View(log)), S.ClosesHub)
      ensures Valid(log)
    {
      hide S.Served;
      if closed {
        return;
      }
      CloseHubSound(View(log));
      closed := true;
      CloseAll();
      ghost var done := S.Act(old(View(log)), S.ClosesHub);
      assert clients == done.clients;
      assert subscribers == done.listed;
    }
  }

  function Offered(clients: map<nat, S.Subscriber>, captured: seq<nat>, t: S.Transition): map<nat, S.Subscriber> {
    map c | c in clients :: if c in captured then S.Enqueue(clients[c], t) else clients[c]
  }

  function Fed(clients: map<nat, S.Subscriber>, captured: seq<nat>, ts: seq<S.Transition>): map<nat, S.Subscriber> {
    map c | c in clients :: if c in captured then S.EnqueueAll(clients[c], ts) else clients[c]
  }

  lemma OfferedNone(clients: map<nat, S.Subscriber>, captured: seq<nat>, t: S.Transition)
    ensures Offered(clients, captured[..0], t) == clients
  {
  }

  lemma OfferedOneMore(clients: map<nat, S.Subscriber>, captured: seq<nat>, j: nat, t: S.Transition)
    requires j < |captured| && captured[j] in clients && captured[j] !in captured[..j]
    ensures var c, done := captured[j], Offered(clients, captured[..j], t);
      c in done && done[c] == clients[c] && Offered(clients, captured[..j+1], t) == done[c := S.Enqueue(clients[c], t)]
  {
    hide S.Enqueue;
    assert captured[..j+1] == captured[..j] + [captured[j]];
  }

  lemma FedNothing(clients: map<nat, S.Subscriber>, captured: seq<nat>)
    ensures Fed(clients, captured, []) == clients
  {
  }

  lemma FedOneMore(clients: map<nat, S.Subscriber>, captured: seq<nat>, ts: seq<S.Transition>)
    requires ts != []
    ensures Fed(clients, captured, ts) == Offered(Fed(clients, captured, ts[..|ts|-1]), captured, ts[|ts|-1])
  {
  }
}
