/** The browser client's commands over a network that loses, delays, reorders and repeats requests and answers:
    one call kept for retrying, one key per command, and the store's idempotency at the other end. */
module ClientCommands {
  import opened Types
  import opened Rows
  import opened Transactions
  import opened Replays

  datatype Call = Call(key: Key, command: Command)

  /** A method of the client suspended at an await. */
  datatype Flight = Calling(call: Call) | Refreshing | Checking | Acknowledging

  datatype Seen = Seen(key: Key, receipt: Receipt)

  /** `issued` are the keys of commands sent, `accepted` the runs of onAccepted, `receipts` all receipts seen and
      `dropped` the keys given up on signing out. */
  datatype Client = Client(
    busy: bool, retry: Option<Call>, flights: map<nat, Flight>, next: nat,
    issued: seq<Key>, accepted: seq<Seen>, receipts: seq<Seen>, dropped: seq<Key>)

  /** Requests stay deliverable for ever under the number of the flight that sent them, and so do answers. */
  datatype World = World(s: State, c: Client, sent: map<nat, Call>, answers: set<(nat, Reply)>, commits: seq<Key>)

  datatype Result = Lost | SignedOut | Got(reply: Reply)

  function TakeOff(w: World, f: Flight): World {
    w.(c := w.c.(busy := true, flights := w.c.flights[w.c.next := f], next := w.c.next + 1))
  }

  function DispatchCommand(w: World): World {
    if w.c.retry.None? || w.c.busy then w
    else TakeOff(w, Calling(w.c.retry.value)).(sent := w.sent[w.c.next := w.c.retry.value])
  }

  function SendCommand(w: World, call: Call): World {
    if w.c.retry.Some? then w
    else DispatchCommand(w.(c := w.c.(retry := Some(call), issued := w.c.issued + [call.key])))
  }

  function CheckConnection(w: World): World {
    if w.c.busy then w else TakeOff(w, Checking)
  }

  /** Does not look at busy before setting it. */
  function AcknowledgeSetup(w: World): World {
    TakeOff(w, Acknowledging)
  }

  function Land(w: World, f: nat): World {
    w.(c := w.c.(busy := false, flights := w.c.flights - {f}))
  }

  function GiveUp(c: Client, call: Call): Client {
    c.(retry := None, dropped := c.dropped + [call.key])
  }

  /** The rest of dispatchCommand, once the call failed or returned. */
  function Resume(w: World, f: nat, call: Call, result: Result): World {
    match result
    case Lost => Land(w, f)
    case SignedOut => Land(w.(c := GiveUp(w.c, call)), f)
    case Got(Thrown(Forbidden)) => Land(w.(c := GiveUp(w.c, call)), f)
    case Got(Thrown(_)) => Land(w, f)
    case Got(Returned(receipt)) =>
      var got := w.c.(retry := None, receipts := w.c.receipts + [Seen(call.key, receipt)]);
      if !receipt.accepted then Land(w.(c := got), f)
      else w.(c := got.(accepted := got.accepted + [Seen(call.key, receipt)], flights := got.flights[f := Refreshing]))
  }

  datatype Move =
    | Sends(call: Call)
    | Retries
    | Checks
    | Acknowledges
    | Finishes(flight: nat, result: Result)
    | Serves(flight: nat, input: Input)
    | Others(step: Step)

  function Act(w: World, m: Move): World
    requires Allows(w, m)
  {
    match m
    case Sends(call) => SendCommand(w, call)
    case Retries => DispatchCommand(w)
    case Checks => CheckConnection(w)
    case Acknowledges => AcknowledgeSetup(w)
    case Finishes(f, result) =>
      if w.c.flights[f].Calling? then Resume(w, f, w.c.flights[f].call, result) else Land(w, f)
    case Serves(f, input) =>
      w.(s := Apply(w.s, input), answers := w.answers + {(f, Respond(w.s, input))},
         commits := if Commits(w.s, input) then w.commits + [input.key] else w.commits)
    case Others(step) => w.(s := Next(w.s, step))
  }

  /** Keys are drawn fresh, answers are the server's, and no one else uses this client's keys. */
  predicate Allows(w: World, m: Move) {
    match m
    case Sends(call) => call.key !in w.s.commands && call.key !in w.c.issued
    case Retries => true
    case Checks => true
    case Acknowledges => true
    case Finishes(f, result) => f in w.c.flights && (result.Got? ==> (f, result.reply) in w.answers)
    case Serves(f, input) => f in w.sent && Call(input.key, input.command) == w.sent[f]
    case Others(step) => step.DoApply? ==> step.input.key !in w.c.issued
  }

  /** Setup is acknowledged only while nothing else is under way. */
  predicate SetupAlone(w: World, m: Move) {
    m.Acknowledges? ==> !w.c.busy
  }

  // ---------- what holds between moves ----------

  /** At most one method is under way, and busy says so. */
  predicate OneFlight(c: Client) {
    (forall f, g :: f in c.flights && g in c.flights ==> f == g)
    && (c.busy <==> c.flights != map[])
    && (forall f | f in c.flights && c.flights[f].Calling? :: c.retry == Some(c.flights[f].call))
  }

  predicate Numbered(w: World) {
    (forall f :: f in w.c.flights ==> f < w.c.next) && (forall f :: f in w.sent ==> f < w.c.next)
    && (forall f | f in w.c.flights && w.c.flights[f].Calling? :: f in w.sent && w.sent[f] == w.c.flights[f].call)
  }

  /** A key is issued once, and stays with the command it was issued for. */
  predicate KeysFresh(w: World) {
    (forall i, j :: 0 <= i < j < |w.c.issued| ==> w.c.issued[i] != w.c.issued[j])
    && (forall f :: f in w.sent ==> w.sent[f].key in w.c.issued)
    && (forall f, g | f in w.sent && g in w.sent && w.sent[f].key == w.sent[g].key :: w.sent[f] == w.sent[g])
    && (w.c.retry.Some? ==> w.c.retry.value.key in w.c.issued)
    && (forall f | f in w.sent && w.c.retry.Some? && w.sent[f].key == w.c.retry.value.key :: w.sent[f] == w.c.retry.value)
  }

  /** The store knows an issued key just when a call with it was committed, which happens once. */
  predicate CommittedOnce(w: World) {
    (forall k | k in w.c.issued :: k in w.s.commands <==> k in w.commits)
    && (forall i, j :: 0 <= i < j < |w.commits| ==> w.commits[i] != w.commits[j])
    && (forall k :: k in w.commits ==> k in w.c.issued)
    && (forall f | f in w.sent && w.sent[f].key in w.s.commands :: w.s.commands[w.sent[f].key].command == w.sent[f].command)
    && (w.c.retry.Some? && w.c.retry.value.key in w.s.commands ==>
      w.s.commands[w.c.retry.value.key].command == w.c.retry.value.command)
  }

  predicate SameReceipt(a: Receipt, b: Receipt) {
    a == b || a == ReplayOf(b)
  }

  /** Answers and receipts seen are the committed receipt of their key, or its replay. */
  predicate Faithful(w: World) {
    (forall a | a in w.answers && a.1.Returned? :: a.0 in w.sent && Recorded(w.s, w.sent[a.0].key, a.1.receipt))
    && (forall i | 0 <= i < |w.c.receipts| ::
      w.c.receipts[i].key in w.c.issued && Recorded(w.s, w.c.receipts[i].key, w.c.receipts[i].receipt))
  }

  predicate Recorded(s: State, key: Key, receipt: Receipt) {
    key in s.commands && SameReceipt(receipt, s.commands[key].receipt)
  }

  /** onAccepted was called once per accepted key, for a receipt that was seen, and not for the command still pending. */
  predicate AcceptedOnce(c: Client) {
    (forall i, j :: 0 <= i < j < |c.accepted| ==> c.accepted[i].key != c.accepted[j].key)
    && (forall i | 0 <= i < |c.accepted| :: c.accepted[i] in c.receipts && c.accepted[i].receipt.accepted)
    && (forall i | 0 <= i < |c.accepted| && c.retry.Some? :: c.accepted[i].key != c.retry.value.key)
  }

  /** Every command but the one kept for retrying was answered, or given up on signing out. */
  predicate OthersResolved(c: Client) {
    forall k | k in c.issued :: (c.retry.Some? && c.retry.value.key == k) || k in c.dropped || Answered(c, k)
  }

  predicate Answered(c: Client, k: Key) {
    exists i :: 0 <= i < |c.receipts| && c.receipts[i].key == k
  }

  predicate Sound(w: World) {
    OthersResolved(w.c) && OneFlight(w.c) && Numbered(w) && KeysFresh(w) && CommittedOnce(w) && Faithful(w) && AcceptedOnce(w.c)
  }
}
