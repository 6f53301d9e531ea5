/** Stop-all: canceling every active run one after the other, then closing the gates and the latch. */
module Stopping {
  import opened Types
  import opened Rows
  import opened Transactions
  import opened Invariants
  import opened Preservation
  import opened Insertions
  import opened Reachability

  lemma CancelFrame(t: Tables, r: RunId, now: int)
    requires r in t.runs
    ensures var u := CancelRows(t, r, now);
      u.runs.Keys == t.runs.Keys && u.runs[r].status == Canceled && u.runs[r].load == t.runs[r].load
      && u.gates.approvals == t.gates.approvals && u.stopped == t.stopped
      && forall q :: q in t.runs && q != r ==> u.runs[q] == t.runs[q]
  {
  }

  /** After the loop the listed runs are canceled and no other run has changed. */
  lemma {:induction false} CancelEachFrame(s: State, rows: seq<RunId>, now: int)
    requires forall r :: r in rows ==> r in s.t.runs
    ensures var u := CancelEach(s, rows, now).t;
      u.runs.Keys == s.t.runs.Keys && u.gates.approvals == s.t.gates.approvals && u.stopped == s.t.stopped
      && (forall r :: r in rows ==> u.runs[r].status == Canceled)
      && (forall q :: q in s.t.runs && q !in rows ==> u.runs[q] == s.t.runs[q])
  {
    hide CancelRows;
    if rows != [] {
      var n := |rows| - 1;
      CancelEachFrame(s, rows[..n], now);
      CancelFrame(CancelEach(s, rows[..n], now).t, rows[n], now);
      assert rows == rows[..n] + [rows[n]];
    }
  }

  lemma {:induction false} CancelEachKeeps(s: State, rows: seq<RunId>, now: int)
    requires Inv(s.t) && (forall r :: r in rows ==> Cancelable(s.t, r))
    requires forall i, j :: 0 <= i < j < |rows| ==> rows[i] != rows[j]
    requires forall r :: !PendingNames(s.t.gates.approvals, r)
    ensures Inv(CancelEach(s, rows, now).t)
  {
    hide Inv, CancelRows, PendingNames;
    if rows != [] {
      var n := |rows| - 1;
      CancelEachKeeps(s, rows[..n], now);
      CancelEachFrame(s, rows[..n], now);
      assert rows[n] in rows && rows[n] !in rows[..n];
      CancelOneKeeps(CancelEach(s, rows[..n], now).t, rows[n], now);
    }
  }

  lemma {:induction false} CancelEachRegates(s: State, approvals: Approvals, stopped: bool, rows: seq<RunId>, now: int)
    ensures CancelEach(s.(t := Regate(s.t, approvals, stopped)), rows, now).t
         == Regate(CancelEach(s, rows, now).t, approvals, stopped)
  {
    hide CancelRows, Regate;
    if rows == [] {
    } else {
      var n := |rows| - 1;
      CancelEachRegates(s, approvals, stopped, rows[..n], now);
      CancelRegates(CancelEach(s, rows[..n], now).t, approvals, stopped, rows[n], now);
    }
  }

  lemma LoadsFailed(t: Tables)
    ensures var u := FailLoads(t);
      u.gates == t.gates && u.runs.Keys == t.runs.Keys && u.stopped == t.stopped
      && forall r :: r in t.runs ==> u.runs[r].status == t.runs[r].status && u.runs[r].load != Loading
  {
  }

  function StopRows(s: State, rows: seq<RunId>, now: int): Tables {
    FailLoads(DropAllApprovals(CancelEach(s.(t := s.t.(stopped := true)), rows, now).t))
  }

  /** The same tables, reached with the approvals dropped first and the latch closed last. */
  lemma StopReordered(s: State, rows: seq<RunId>, now: int)
    requires forall r :: r in rows ==> r in s.t.runs
    ensures StopRows(s, rows, now)
         == FailLoads(CancelEach(s.(t := DropAllApprovals(s.t)), rows, now).t).(stopped := true)
  {
    hide CancelEach;
    var d := DropAllApprovals(s.t);
    CancelEachRegates(s, d.gates.approvals, s.t.stopped, rows, now);
    CancelEachRegates(s, s.t.gates.approvals, true, rows, now);
    CancelEachFrame(s, rows, now);
    assert d == Regate(s.t, d.gates.approvals, s.t.stopped);
    assert s.t.(stopped := true) == Regate(s.t, s.t.gates.approvals, true);
  }

  lemma {:induction false} StopKeeps(s: State, rows: seq<RunId>, now: int)
    requires Inv(s.t) && Enumerates(rows, ActiveRuns(s.t))
    ensures Inv(StopRows(s, rows, now))
    ensures forall r :: r in StopRows(s, rows, now).runs ==> !Occupies(StopRows(s, rows, now).runs[r])
  {
    hide Inv, CancelEach, FailLoads, StopRows, PendingNames, DropAllApprovals;
    DropAllApprovalsKeeps(s.t);
    DropAllFrame(s.t);
    var v := s.(t := DropAllApprovals(s.t));
    CancelEachKeeps(v, rows, now);
    CancelEachFrame(v, rows, now);
    var u := CancelEach(v, rows, now).t;
    assert forall r :: r in u.runs && r !in rows ==> r !in ActiveRuns(s.t);
    FailLoadsKeeps(u);
    LoadsFailed(u);
    LatchKeeps(FailLoads(u));
    StopReordered(s, rows, now);
  }

  lemma DropAllFrame(t: Tables)
    ensures var u := DropAllApprovals(t);
      u.runs == t.runs && u.gates.approvals.Keys == t.gates.approvals.Keys && u.stopped == t.stopped
      && forall a :: a in u.gates.approvals ==> u.gates.approvals[a].state != Pending
  {
  }
}
