/** Every action the store grants is counted, once, on its run and on its task; so no run is ever granted more than its
    cap allows. */
module Counting {
  import opened Types
  import opened Rows
  import opened Transactions
  import opened Invariants
  import opened Sweeping
  import opened Reachable
  import opened Lifecycle
  import opened Budgets
  import opened Traces
  import opened Guarantees

  /** The tables with the counts of a run and of its task set back to what they were. */
  function Uncounted(t: Tables, r: RunId, before: Tables): Tables
    requires r in t.runs && r in before.runs && t.runs[r].task in t.tasks && t.runs[r].task in before.tasks
  {
    var k := t.runs[r].task;
    t.(runs := t.runs[r := t.runs[r].(spent := before.runs[r].spent)],
       tasks := t.tasks[k := t.tasks[k].(spent := before.tasks[k].spent)])
  }

  /** A granted action is one more on the run and one more on its task, and nothing else; a refused one is nothing. */
  lemma GrantIsCounted(s: State, r: RunId, task: TaskId)
    requires Inv(s.t) && OwnTask(s.t, r, task)
    ensures var granted := BumpAction(s, r, task);
      if !granted.yes then granted.s == s
      else
        var u := granted.s.t;
        && r in s.t.runs && task in s.t.tasks && r in u.runs && task in u.tasks && u.runs[r].task == task
        && u.runs[r].spent == s.t.runs[r].spent + 1 && u.tasks[task].spent == s.t.tasks[task].spent + 1
        && granted.s.(t := Uncounted(u, r, s.t)) == s
  {
    hide Inv;
    if r in s.t.runs {
      BudgetIsFixed(s.t, r);
      CountedBack(s.t, r, task);
    }
    hide CountAction, Uncounted;
  }

  lemma CountedBack(t: Tables, r: RunId, task: TaskId)
    requires r in t.runs && t.runs[r].task == task && task in t.tasks
    ensures var u := CountAction(t, r, task);
      && r in u.runs && u.runs[r].task == task && task in u.tasks && Uncounted(u, r, t) == t
      && u.runs[r].spent == t.runs[r].spent + 1 && u.tasks[task].spent == t.tasks[task].spent + 1
  {
    var u := CountAction(t, r, task);
    assert u.runs[r := t.runs[r]] == t.runs;
    assert u.tasks[task := t.tasks[task]] == t.tasks;
  }

  /** How many actions of the run were granted. */
  function Granted(s: State, steps: seq<Step>, r: RunId): nat
    decreases |steps|
  {
    if steps == [] then 0 else
    var step := steps[0];
    (if step.DoBump? && step.run == r && BumpAction(s, r, step.task).yes then 1 else 0)
    + Granted(Next(s, step), steps[1..], r)
  }

  lemma NextCounts(s: State, step: Step, r: RunId)
    requires Inv(s.t) && Legal(s, step)
    ensures SpentBy(Next(s, step).t, r) == SpentBy(s.t, r) + Granted(s, [step], r)
  {
    hide Inv, Onward, Granted;
    NextOnward(s, step);
    GrantedOne(s, step, r);
    match step {
      case DoBump(q, task) =>
        GrantIsCounted(s, q, task);
        if q != r {
          OthersUncounted(s, q, task, r);
        }
      case _ =>
    }
  }

  lemma GrantedOne(s: State, step: Step, r: RunId)
    ensures Granted(s, [step], r) == if step.DoBump? && step.run == r && BumpAction(s, r, step.task).yes then 1 else 0
  {
    hide Next, BumpAction;
    assert [step][1..] == [];
  }

  lemma OthersUncounted(s: State, r: RunId, task: TaskId, q: RunId)
    requires q != r
    ensures SpentBy(BumpAction(s, r, task).s.t, q) == SpentBy(s.t, q)
  {
  }

  lemma {:induction false} SpentIsGranted(s: State, steps: seq<Step>, r: RunId)
    requires Inv(s.t) && LegalRun(s, steps)
    ensures SpentBy(Exec(s, steps).t, r) == SpentBy(s.t, r) + Granted(s, steps, r)
    decreases |steps|
  {
    hide Inv, Next, Legal, SpentBy, BumpAction;
    if steps != [] {
      NextCounts(s, steps[0], r);
      GrantedOne(s, steps[0], r);
      NextKeeps(s, steps[0]);
      SpentIsGranted(Next(s, steps[0]), steps[1..], r);
    }
  }

  /** In every run of the store a run's count is the number of actions it was granted, which is at most twenty. */
  lemma GrantsAreCounted(steps: seq<Step>, r: RunId)
    requires LegalRun(EMPTY, steps)
    ensures SpentBy(Exec(EMPTY, steps).t, r) == Granted(EMPTY, steps, r) <= MAX_ACTIONS_PER_RUN
  {
    hide Inv, Exec, LegalRun, Granted, Conserved;
    EmptyInv();
    SpentIsGranted(EMPTY, steps, r);
    ReachableStates(steps);
    WithinCap(Exec(EMPTY, steps).t, r);
  }

  lemma WithinCap(t: Tables, r: RunId)
    requires Inv(t)
    ensures SpentBy(t, r) <= MAX_ACTIONS_PER_RUN
  {
    hide Links, Projected, Admitted, Gated, Bounded, Delivered, Barred;
  }
}
