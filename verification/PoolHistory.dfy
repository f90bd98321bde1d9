/** In which order the thread pool uses its tasks, and what is over when a future becomes ready. */
module PoolHistory {
  import opened PoolModel
  import opened PoolProofs
  import opened PoolFutures
  import opened PoolTheorems
  import opened PoolCount
  import opened Sequences
  import opened Wrappers

  /** The task whose worker puts itself back into the pool. */
  function ReturnedBy(s: Pool, step: Step): seq<nat> {
    match step
    case Go(Worker(k)) => if k < |s.tasks| && s.tasks[k].pc.Pushing? then [k] else []
    case _ => []
  }

  /** The task that was at rest and is given work. */
  function GivenBy(s: Pool, step: Step): seq<nat> {
    match step
    case Go(w) => if CallOf(s, w).HasTask? && !CallOf(s, w).isNew then [CallOf(s, w).k] else []
    case _ => []
  }

  ghost function Returned(s: Pool, steps: seq<Step>): seq<nat>
    decreases |steps|
  {
    if steps == [] || !Enabled(s, steps[0]) then []
    else ReturnedBy(s, steps[0]) + Returned(After(s, steps[0]), steps[1..])
  }

  ghost function Given(s: Pool, steps: seq<Step>): seq<nat>
    decreases |steps|
  {
    if steps == [] || !Enabled(s, steps[0]) then []
    else GivenBy(s, steps[0]) + Given(After(s, steps[0]), steps[1..])
  }

  /** The queue of idle tasks, without one that was given work and is about to leave. */
  function Resting(s: Pool): seq<nat> {
    if Overlaps(s) && s.idle != [] then s.idle[1..] else s.idle
  }

  /** A caller that holds no chosen task leaves the queue alone. */
  lemma LockPoolResting(s: Pool, w: Who)
    requires Inv(s) && Calling(s, w) && CanCall(s, w) && CallOf(s, w).WantPool?
    ensures Resting(AfterCall(s, w)) == Resting(s) == s.idle
  {
    hide Inv;
  }

  lemma ChooseResting(s: Pool, w: Who)
    requires Inv(s) && Calling(s, w) && CanCall(s, w) && (CallOf(s, w).HasPool? || CallOf(s, w).WantTask?)
    ensures Resting(AfterCall(s, w)) == Resting(s)
  {
    HolderIs(s, w);
    assert HolderCall(AfterCall(s, w)) == CallOf(AfterCall(s, w), w);
    hide Inv;
  }

  lemma AssignResting(s: Pool, w: Who)
    requires Inv(s) && Calling(s, w) && CanCall(s, w) && CallOf(s, w).HasTask?
    ensures Resting(s) == GivenBy(s, Go(w)) + Resting(AfterCall(s, w))
  {
    HolderIs(s, w);
    ChosenAtRest(s, w);
    var c := CallOf(s, w);
    assert Chosen(s, c.k, c.isNew);
    hide Inv;
    assert HolderCall(AfterCall(s, w)) == CallOf(AfterCall(s, w), w);
    assert !c.isNew ==> s.idle == [c.k] + s.idle[1..];
  }

  lemma PopResting(s: Pool, w: Who)
    requires Inv(s) && Calling(s, w) && CanCall(s, w) && CallOf(s, w).Popping?
    ensures Resting(AfterCall(s, w)) == Resting(s)
  {
    HolderIs(s, w);
    hide Inv;
  }

  lemma CallResting(s: Pool, w: Who)
    requires Inv(s) && Calling(s, w) && CanCall(s, w)
    ensures Resting(s) == GivenBy(s, Go(w)) + Resting(AfterCall(s, w))
    ensures ReturnedBy(s, Go(w)) == []
  {
    hide Inv, AfterCall, Resting, CanCall;
    match CallOf(s, w)
    case WantPool(_) => LockPoolResting(s, w);
    case HasTask(_, _, _) => AssignResting(s, w);
    case Popping(_, _, _) => PopResting(s, w);
    case _ => CanChoose(s, w); ChooseResting(s, w);
  }

  lemma CanChoose(s: Pool, w: Who)
    requires Calling(s, w) && CanCall(s, w)
    ensures CallOf(s, w) != Out && CallOf(s, w) != Aborted
  {
  }

  lemma WorkResting(s: Pool, k: nat)
    requires Inv(s) && k < |s.tasks| && CanWork(s, k)
    ensures Resting(s) + ReturnedBy(s, Go(Worker(k))) == Resting(AfterWork(s, k))
    ensures !Calling(s, Worker(k)) ==> GivenBy(s, Go(Worker(k))) == []
  {
    if s.tasks[k].pc.Pushing? {
      HolderIs(s, Worker(k));
    } else {
      WorkBusy(s, k);
    }
    hide Inv;
  }

  lemma StepResting(s: Pool, step: Step)
    requires Inv(s) && Enabled(s, step)
    ensures Resting(s) + ReturnedBy(s, step) == GivenBy(s, step) + Resting(After(s, step))
  {
    match step
    case Go(w) =>
      if Calling(s, w) {
        CallResting(s, w);
      } else {
        WorkResting(s, w.k);
      }
      hide Inv, Resting, AfterCall, AfterWork;
    case _ => SameHolder(s, step);
  }

  /** A call, an end and a wake-up without a reason do not concern the thread that holds the pool. */
  lemma SameHolder(s: Pool, step: Step)
    requires Inv(s) && Enabled(s, step) && !step.Go?
    ensures Resting(After(s, step)) == Resting(s)
  {
    var r := After(s, step);
    SamePool(s, step);
    if s.owner.Some? {
      HolderHolds(s);
      SameCall(s, step, s.owner.value);
    }
    hide Inv, After, Enabled, CallOf;
  }

  lemma SamePool(s: Pool, step: Step)
    requires Enabled(s, step) && !step.Go?
    ensures After(s, step).owner == s.owner && After(s, step).idle == s.idle
  {
  }

  lemma HolderHolds(s: Pool)
    requires Inv(s) && s.owner.Some?
    ensures Exists(s, s.owner.value) && HoldsPool(s, s.owner.value)
  {
  }

  lemma SameCall(s: Pool, step: Step, w: Who)
    requires Enabled(s, step) && !step.Go? && Exists(s, w) && HoldsPool(s, w)
    ensures CallOf(After(s, step), w) == CallOf(s, w)
  {
  }

  lemma Assoc(a: seq<nat>, b: seq<nat>, c: seq<nat>)
    ensures (a + b) + c == a + (b + c)
  {
  }

  lemma {:induction false} RunResting(s: Pool, steps: seq<Step>, r: Pool)
    requires Inv(s) && Runs(s, steps, r)
    ensures Resting(s) + Returned(s, steps) == Given(s, steps) + Resting(r)
    decreases |steps|
  {
    if steps != [] {
      hide Inv, After, Enabled, Resting, ReturnedBy, GivenBy;
      StepKeeps(s, steps[0]);
      StepResting(s, steps[0]);
      var m, rest := After(s, steps[0]), steps[1..];
      RunResting(m, rest, r);
      Assoc(Resting(s), ReturnedBy(s, steps[0]), Returned(m, rest));
      Assoc(GivenBy(s, steps[0]), Resting(m), Returned(m, rest));
      Assoc(GivenBy(s, steps[0]), Given(m, rest), Resting(r));
    }
  }

  /** In every run tasks get new work in the order in which they came back to the pool. */
  lemma ReusedInOrder(n: nat, steps: seq<Step>, s: Pool)
    requires Runs(Start(n), steps, s)
    ensures Returned(Start(n), steps) == Given(Start(n), steps) + Resting(s)
  {
    StartInv(n);
    RunResting(Start(n), steps, s);
    hide Inv, Runs, Returned, Given;
  }

  /** When the future of the last work of a task is ready, the task is back in the pool. */
  lemma AnsweredIsIdle(n: nat, steps: seq<Step>, s: Pool, k: nat)
    requires Runs(Start(n), steps, s) && k < |s.tasks|
    requires s.tasks[k].promise.Some? && s.tasks[k].promise.value in s.kept
    ensures k in s.idle && !Busy(s, k)
  {
    StartInv(n);
    RunKeeps(Start(n), steps, s);
    assert PromiseOk(s, s.tasks[k]);
  }

  /** The worker of a task is about to set promise `p`. */
  ghost predicate SetNext(s: Pool, p: nat) {
    exists k: nat :: k < |s.tasks| && s.tasks[k].promise == Some(p) && s.tasks[k].pc.Setting?
  }

  /** The destructor asserts that all tasks are in the queue.  With nobody in `async` that holds
      exactly if each future is ready or about to be made so by a task that is back already. */
  lemma DestroyedAllIdle(n: nat, steps: seq<Step>, s: Pool)
    requires Runs(Start(n), steps, s)
    requires forall w :: Exists(s, w) ==> CallOf(s, w) == Out
    ensures |s.idle| == |s.tasks| <==> forall p: nat :: p < |s.made| && p !in s.kept ==> SetNext(s, p)
  {
    StartInv(n);
    RunKeeps(Start(n), steps, s);
    Sizes(s);
    if forall p: nat :: p < |s.made| && p !in s.kept ==> SetNext(s, p) {
      AnsweredNoneBusy(s);
    } else {
      var p: nat :| p < |s.made| && p !in s.kept && !SetNext(s, p);
      UnansweredBusy(s, p);
    }
  }

  lemma AnsweredOrSetting(s: Pool, k: nat)
    requires Inv(s) && k < |s.tasks|
    requires forall p: nat :: p < |s.made| && p !in s.kept ==> SetNext(s, p)
    ensures s.tasks[k].promise.Some? && s.tasks[k].promise.value !in s.kept ==> s.tasks[k].pc.Setting?
  {
    assert PromiseOk(s, s.tasks[k]);
    if s.tasks[k].promise.Some? && s.tasks[k].promise.value !in s.kept {
      assert SetNext(s, s.tasks[k].promise.value);
    }
  }

  lemma AnsweredNoneBusy(s: Pool)
    requires Inv(s) && HolderCall(s) == Out
    requires forall p: nat :: p < |s.made| && p !in s.kept ==> SetNext(s, p)
    ensures BusyTasks(s) == {}
  {
    forall k: nat | k < |s.tasks| ensures !Busy(s, k) {
      assert PromiseOk(s, s.tasks[k]);
      AnsweredOrSetting(s, k);
    }
  }

  lemma UnansweredBusy(s: Pool, p: nat)
    requires Inv(s) && p < |s.made| && p !in s.kept && !SetNext(s, p)
    ensures BusyTasks(s) != {}
  {
    assert AtTask(s, p);
    var k: nat :| k < |s.tasks| && s.tasks[k].promise == Some(p);
    assert PromiseOk(s, s.tasks[k]);
    assert Busy(s, k);
    assert k in BusyTasks(s);
  }
}
