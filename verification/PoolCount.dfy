/** How many tasks the thread pool has. */
module PoolCount {
  import opened PoolModel
  import opened PoolProofs
  import opened PoolTheorems
  import opened Sequences
  import opened Wrappers

  function BusyTasks(s: Pool): set<nat> {
    set k: nat | k < |s.tasks| && Busy(s, k)
  }

  function IdleTasks(s: Pool): set<nat> {
    set k: nat | k in s.idle
  }

  function Below(n: nat): (r: set<nat>)
    ensures forall k: nat :: k in r <==> k < n
  {
    if n == 0 then {} else Below(n - 1) + {n - 1}
  }

  lemma {:induction false} BelowSize(n: nat)
    ensures |Below(n)| == n
  {
    if n > 0 {
      BelowSize(n - 1);
    }
  }

  lemma {:induction false} DistinctSize(q: seq<nat>)
    requires NoDup(q)
    ensures |set k: nat | k in q| == |q|
  {
    if q == [] {
      assert (set k: nat | k in q) == {};
    } else {
      assert q == [q[0]] + q[1..];
      assert (set k: nat | k in q) == (set k: nat | k in q[1..]) + {q[0]};
      DistinctSize(q[1..]);
    }
  }

  lemma BusySize(s: Pool)
    ensures |BusyTasks(s)| <= |s.tasks|
    ensures (forall k: nat :: k < |s.tasks| ==> Busy(s, k)) ==> |BusyTasks(s)| == |s.tasks|
  {
    BelowSize(|s.tasks|);
    SubsetSize(BusyTasks(s), Below(|s.tasks|));
    if forall k: nat :: k < |s.tasks| ==> Busy(s, k) {
      assert BusyTasks(s) == Below(|s.tasks|);
    }
  }

  /** The task at the front of the queue was given work and is still in the queue. */
  predicate Overlaps(s: Pool) {
    HolderCall(s).Popping? && !HolderCall(s).isNew
  }

  /** Every task is idle, once in the queue, or busy with a piece of work of its own; only between
      `assign` and the `pop` that follows it the task at the front is both. */
  lemma IdleOrBusy(n: nat, steps: seq<Step>, s: Pool, k: nat)
    requires Runs(Start(n), steps, s) && k < |s.tasks|
    ensures NoDup(s.idle)
    ensures Busy(s, k) || k in s.idle
    ensures Busy(s, k) && k in s.idle <==> Overlaps(s) && HolderCall(s).k == k
    ensures |s.idle| + |BusyTasks(s)| == |s.tasks| + if Overlaps(s) then 1 else 0
  {
    StartInv(n);
    RunKeeps(Start(n), steps, s);
    Sizes(s);
  }

  lemma Sizes(s: Pool)
    requires Inv(s)
    ensures |s.idle| + |BusyTasks(s)| == |s.tasks| + if Overlaps(s) then 1 else 0
  {
    var idle, busy, all := IdleTasks(s), BusyTasks(s), Below(|s.tasks|);
    BelowSize(|s.tasks|);
    DistinctSize(s.idle);
    assert idle + busy == all;
    if Overlaps(s) {
      assert idle * busy == {HolderCall(s).k};
    } else {
      assert idle * busy == {};
    }
    assert |idle + busy| == |idle| + |busy| - |idle * busy|;
  }

  function Max(a: nat, b: nat): nat {
    if a < b then b else a
  }

  /** The highest number of tasks busy at once in a run. */
  ghost function Highest(s: Pool, steps: seq<Step>): nat
    decreases |steps|
  {
    if steps == [] || !Enabled(s, steps[0]) then |BusyTasks(s)|
    else Max(|BusyTasks(s)|, Highest(After(s, steps[0]), steps[1..]))
  }

  /** A step makes no task, or one, and then all tasks are busy. */
  lemma TasksGrow(s: Pool, step: Step)
    requires Inv(s) && Enabled(s, step)
    ensures var r := After(s, step);
      |r.tasks| == |s.tasks| || (|r.tasks| == |s.tasks| + 1 && |BusyTasks(r)| == |r.tasks|)
  {
    GrowsOnlyIf(s, step);
    hide Inv, After, Enabled, Busy;
    if |After(s, step).tasks| != |s.tasks| {
      GrownAllBusy(s, step.w);
      BusySize(After(s, step));
    }
  }

  lemma GrowsOnlyIf(s: Pool, step: Step)
    requires Enabled(s, step)
    ensures var r := After(s, step);
      || |r.tasks| == |s.tasks|
      || (step.Go? && Calling(s, step.w) && CallOf(s, step.w).HasPool? && s.idle == []
          && |r.tasks| == |s.tasks| + 1 && r == AfterCall(s, step.w))
  {
  }

  lemma GrownAllBusy(s: Pool, w: Who)
    requires Inv(s) && Calling(s, w) && CallOf(s, w).HasPool? && s.idle == []
    ensures forall k: nat :: k < |s.tasks| + 1 ==> Busy(AfterCall(s, w), k)
  {
    var r := AfterCall(s, w);
    HolderIs(s, w);
    assert HolderCall(r) == CallOf(r, w);
    forall k: nat | k < |s.tasks| + 1 ensures Busy(r, k) {
      assert k < |s.tasks| ==> k !in s.idle;
    }
  }

  lemma {:induction false} HighestRun(s: Pool, steps: seq<Step>, r: Pool)
    requires Inv(s) && Runs(s, steps, r)
    ensures Max(|s.tasks|, Highest(s, steps)) == |r.tasks|
    decreases |steps|
  {
    BusySize(s);
    if steps != [] {
      StepKeeps(s, steps[0]);
      TasksGrow(s, steps[0]);
      hide Inv, After, Enabled;
      HighestRun(After(s, steps[0]), steps[1..], r);
      HighestAtLeast(After(s, steps[0]), steps[1..]);
    }
  }

  lemma HighestAtLeast(s: Pool, steps: seq<Step>)
    ensures Highest(s, steps) >= |BusyTasks(s)|
  {
  }

  /** The pool has made exactly as many tasks as were ever busy at the same time. */
  lemma TasksAreHighest(n: nat, steps: seq<Step>, s: Pool)
    requires Runs(Start(n), steps, s)
    ensures |s.tasks| == Highest(Start(n), steps)
  {
    StartInv(n);
    HighestRun(Start(n), steps, s);
  }
}
