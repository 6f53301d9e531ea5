/** The timeout sweep and the restart: loops over rows that the transaction itself changes. */
module Sweeping {
  import opened Types
  import opened Rows
  import opened Transactions
  import opened Invariants
  import opened Preservation
  import opened Insertions
  import opened Reachability

  // ---------- the invariant, loop by loop ----------

  lemma {:induction false} LapseKeeps(s: State, rows: seq<RunId>, now: int)
    requires Inv(s.t)
    ensures Inv(LapseHandoffs(s, rows, now).s.t)
  {
    hide Inv, RejectRows;
    if rows != [] {
      LapseKeeps(s, rows[..|rows|-1], now);
      RejectKeeps(LapseHandoffs(s, rows[..|rows|-1], now).s.t, rows[|rows|-1], Lapsed, Failed, now);
    }
  }

  lemma RejectRowFrame(t: Tables, r: RunId, to: HandoffState, status: RunStatus, now: int)
    requires Finished(status) && to != Proposed && (Rejectable(t, r) ==> r in t.runs)
    ensures var u := RejectRows(t, r, to, status, now);
      u.runs.Keys == t.runs.Keys && u.flow.handoffs.Keys == t.flow.handoffs.Keys
      && (forall q :: q in t.runs && q != r ==> u.runs[q] == t.runs[q])
      && (forall q :: q in t.flow.handoffs && q != r ==> u.flow.handoffs[q] == t.flow.handoffs[q])
      && (Rejectable(t, r) ==> u.runs[r].status == status && u.flow.handoffs[r].state == to)
      && !Rejectable(u, r)
  {
  }

  predicate HandoffsHaveRuns(t: Tables) {
    forall r :: r in t.flow.handoffs ==> r in t.runs
  }

  /** After the first loop no listed handoff is due, and runs outside the effects are untouched. */
  lemma {:induction false} LapseFrame(s: State, rows: seq<RunId>, now: int)
    requires HandoffsHaveRuns(s.t)
    ensures var w := LapseHandoffs(s, rows, now);
      w.s.t.runs.Keys == s.t.runs.Keys && w.s.t.flow.handoffs.Keys == s.t.flow.handoffs.Keys
      && (forall r :: r in rows ==> !HandoffDue(w.s.t, r, now))
      && (forall q :: q in s.t.runs && q !in w.effects ==> w.s.t.runs[q] == s.t.runs[q])
      && (forall q :: q in s.t.flow.handoffs && !HandoffDue(s.t, q, now)
            ==> w.s.t.flow.handoffs[q] == s.t.flow.handoffs[q])
      && (forall q :: q in w.effects ==> HandoffDue(s.t, q, now))
      && w.s.t.gates.approvals == s.t.gates.approvals && w.s.t.stopped == s.t.stopped
  {
    hide RejectRows;
    if rows == [] {
    } else {
      var n := |rows| - 1;
      LapseFrame(s, rows[..n], now);
      var w := LapseHandoffs(s, rows[..n], now);
      RejectRowFrame(w.s.t, rows[n], Lapsed, Failed, now);
      RejectFrame(w.s.t, rows[n], Lapsed, Failed, now);
      assert rows == rows[..n] + [rows[n]];
    }
  }

  lemma FinishRowFrame(t: Tables, r: RunId, status: RunStatus, now: int)
    requires Finished(status) && r in t.runs
    ensures var u := FinishRows(t, r, status, now, None);
      u.runs.Keys == t.runs.Keys && u.runs[r].status == status && u.runs[r].completed == Some(now)
      && (forall q :: q in t.runs && q != r ==> u.runs[q] == t.runs[q])
  {
  }

  lemma {:induction false} OverdueFrame(s: State, rows: seq<RunId>, now: int)
    requires forall r :: r in rows ==> r in s.t.runs
    ensures var u := FailOverdue(s, rows, now).t;
      u.runs.Keys == s.t.runs.Keys && u.gates == s.t.gates && u.flow == s.t.flow && u.stopped == s.t.stopped
      && (forall r :: r in rows ==> u.runs[r].status == Failed)
      && (forall q :: q in s.t.runs && q !in rows ==> u.runs[q] == s.t.runs[q])
  {
    hide FinishRows;
    if rows == [] {
    } else {
      var n := |rows| - 1;
      OverdueFrame(s, rows[..n], now);
      var u := FailOverdue(s, rows[..n], now).t;
      FinishRowFrame(u, rows[n], Failed, now);
      FinishFrame(u, rows[n], Failed, now, None);
      assert rows == rows[..n] + [rows[n]];
    }
  }

  lemma {:induction false} OverdueKeeps(s: State, rows: seq<RunId>, now: int)
    requires Inv(s.t) && forall r :: r in rows ==> r in s.t.runs && !Rejectable(s.t, r)
    ensures Inv(FailOverdue(s, rows, now).t)
  {
    hide Inv, FinishRows;
    if rows != [] {
      var n := |rows| - 1;
      OverdueKeeps(s, rows[..n], now);
      OverdueFrame(s, rows[..n], now);
      assert rows[n] in rows;
      FinishKeeps(FailOverdue(s, rows[..n], now).t, rows[n], Failed, now, None);
    }
  }

  /** Expiring approvals fails the run each one names, and no other. */
  lemma ExpireFrame(t: Tables, a: ApprovalId, now: int)
    requires a in t.gates.approvals && t.gates.approvals[a].run in t.runs
    ensures var u := ExpireRows(t, a, now);
      u.runs.Keys == t.runs.Keys && u.gates.approvals.Keys == t.gates.approvals.Keys
      && u.gates.approvals[a].state == Expired && u.flow == t.flow && u.stopped == t.stopped
      && u.runs[t.gates.approvals[a].run].status == Failed
      && u.runs[t.gates.approvals[a].run].completed == Some(now)
      && (forall q :: q in t.runs && q != t.gates.approvals[a].run ==> u.runs[q] == t.runs[q])
      && (forall b :: b in t.gates.approvals ==> u.gates.approvals[b].run == t.gates.approvals[b].run)
      && (forall b :: b in t.gates.approvals && b != a ==> u.gates.approvals[b] == t.gates.approvals[b])
  {
    hide FinishRows;
    SettleFrame(t, a, Expired, t.gates.approvals[a].resolver);
    var u := SettleApproval(t, a, Expired, t.gates.approvals[a].resolver);
    FinishRowFrame(u, t.gates.approvals[a].run, Failed, now);
    FinishFrame(u, t.gates.approvals[a].run, Failed, now, None);
  }

  predicate ApprovalsHaveRuns(t: Tables) {
    forall a :: a in t.gates.approvals ==> t.gates.approvals[a].run in t.runs
  }

  lemma {:induction false} ExpireEachFrame(s: State, rows: seq<ApprovalId>, now: int)
    requires ApprovalsHaveRuns(s.t) && forall a :: a in rows ==> a in s.t.gates.approvals
    ensures var w := ExpireEach(s, rows, now);
      w.s.t.runs.Keys == s.t.runs.Keys && w.s.t.gates.approvals.Keys == s.t.gates.approvals.Keys
      && w.s.t.flow == s.t.flow && w.s.t.stopped == s.t.stopped
      && (forall b :: b in s.t.gates.approvals ==> w.s.t.gates.approvals[b].run == s.t.gates.approvals[b].run)
      && (forall a :: a in rows ==> w.s.t.gates.approvals[a].state == Expired && s.t.gates.approvals[a].run in w.effects)
      && (forall b :: b in s.t.gates.approvals && b !in rows
            ==> w.s.t.gates.approvals[b] == s.t.gates.approvals[b])
      && (forall q :: q in s.t.runs && q !in w.effects ==> w.s.t.runs[q] == s.t.runs[q])
      && (forall q :: q in s.t.runs && q in w.effects ==>
            w.s.t.runs[q].status == Failed && w.s.t.runs[q].completed == Some(now))
  {
    hide ExpireRows;
    if rows == [] {
    } else {
      var n := |rows| - 1;
      assert rows == rows[..n] + [rows[n]];
      ExpireEachFrame(s, rows[..n], now);
      ExpireFrame(ExpireEach(s, rows[..n], now).s.t, rows[n], now);
    }
  }

  lemma {:induction false} ExpireEachKeeps(s: State, rows: seq<ApprovalId>, now: int)
    requires Inv(s.t)
    ensures Inv(ExpireEach(s, rows, now).s.t)
  {
    hide Inv, ExpireRows;
    if rows != [] {
      ExpireEachKeeps(s, rows[..|rows|-1], now);
      var t := ExpireEach(s, rows[..|rows|-1], now).s.t;
      if rows[|rows|-1] in t.gates.approvals {
        ExpireKeeps(t, rows[|rows|-1], now);
      }
    }
  }

  lemma RowsLinked(t: Tables)
    requires Inv(t)
    ensures HandoffsHaveRuns(t) && ApprovalsHaveRuns(t)
    ensures forall r :: r in t.flow.handoffs && t.flow.handoffs[r].state == Proposed ==>
      !Finished(t.runs[r].status) && t.flow.handoffs[r].expires <= t.runs[r].deadline
  {
    hide RunsLinked, ActionsLinked, Owned, Drafted, Authored, Projected, Admitted, Gated, Delivered, Budgeted, Barred;
    forall r | r in t.flow.handoffs ensures r in t.runs {
      RecipientRow(t.runs, t.flow.handoffs, r);
    }
  }

  /** An overdue recipient's handoff was due first, so the deadline loop never meets a proposed handoff. */
  lemma OverdueIsDecided(s: State, hs: seq<RunId>, now: int)
    requires Inv(s.t) && Enumerates(hs, s.t.flow.handoffs.Keys)
    ensures var u := LapseHandoffs(s, hs, now).s.t; forall r :: r in Overdue(u, now) ==> r in u.runs && !Rejectable(u, r)
  {
    hide Inv, LapseHandoffs, Enumerates;
    var w := LapseHandoffs(s, hs, now);
    LapseKeeps(s, hs, now);
    RowsLinked(s.t);
    LapseFrame(s, hs, now);
    RowsLinked(w.s.t);
    forall r | r in Overdue(w.s.t, now) ensures !Rejectable(w.s.t, r) {
      assert r in s.t.flow.handoffs.Keys ==> r in hs by { Listed(hs, s.t.flow.handoffs.Keys); }
      assert r in hs ==> !HandoffDue(w.s.t, r, now);
    }
  }

  lemma Listed<T>(rows: seq<T>, ids: set<T>)
    requires Enumerates(rows, ids)
    ensures forall x :: x in rows <==> x in ids
  {
  }

  lemma SweepKeeps(s: State, hs: seq<RunId>, rs: seq<RunId>, xs: seq<ApprovalId>, now: int)
    requires Inv(s.t) && SweepRows(s, hs, rs, xs, now)
    ensures Inv(Sweep(s, hs, rs, xs, now).s.t)
  {
    hide Inv, LapseHandoffs, FailOverdue, ExpireEach, Enumerates;
    var s1 := LapseHandoffs(s, hs, now).s;
    LapseKeeps(s, hs, now);
    OverdueIsDecided(s, hs, now);
    Listed(rs, Overdue(s1.t, now));
    OverdueKeeps(s1, rs, now);
    ExpireEachKeeps(FailOverdue(s1, rs, now), xs, now);
  }

  // ---------- restart ----------

  lemma {:induction false} InterruptKeeps(s: State, rows: seq<RunId>, now: int)
    requires Inv(s.t) && (forall r :: r in rows ==> r in s.t.runs && Active(s.t.runs[r].status))
    requires forall i, j :: 0 <= i < j < |rows| ==> rows[i] != rows[j]
    ensures var u := InterruptEach(s, rows, now).t;
      Inv(u) && u.runs.Keys == s.t.runs.Keys && u.tasks == s.t.tasks && u.gates == s.t.gates && u.flow == s.t.flow
      && u.stopped == s.t.stopped
      && (forall r :: r in rows ==> u.runs[r] == s.t.runs[r].(status := Interrupted))
      && (forall q :: q in s.t.runs && q !in rows ==> u.runs[q] == s.t.runs[q])
  {
    hide Inv;
    if rows == [] {
    } else {
      var n := |rows| - 1;
      InterruptKeeps(s, rows[..n], now);
      assert rows[n] in rows && rows[n] !in rows[..n] && rows == rows[..n] + [rows[n]];
      SetStatusKeeps(InterruptEach(s, rows[..n], now).t, rows[n], Interrupted);
    }
  }

  lemma RestartKeeps(s: State, rows: seq<RunId>, now: int)
    requires Inv(s.t) && Enumerates(rows, ActiveRuns(s.t))
    ensures Inv(Restart(s, rows, now).t)
  {
    hide Inv, InterruptEach, FailLoads;
    InterruptKeeps(s, rows, now);
    FailLoadsKeeps(InterruptEach(s, rows, now).t);
  }
}
