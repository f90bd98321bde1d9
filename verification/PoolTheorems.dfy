/** What every run of the thread pool keeps: the assertion, the futures, the lock order, and the
    count of tasks. */
module PoolTheorems {
  import opened PoolModel
  import opened PoolProofs
  import opened PoolFutures
  import opened Sequences
  import opened Wrappers

  ghost predicate Inv(s: Pool) {
    Locks(s) && Queue(s) && NoneAborted(s) && Futures(s) && NoneLost(s)
  }

  /** The work is with a caller or was assigned to a task. */
  ghost predicate NoneLost(s: Pool) {
    forall j: nat :: j < s.issued ==> j in s.made || Brought(s, j)
  }

  ghost predicate Brought(s: Pool, j: nat) {
    exists w :: Exists(s, w) && Brings(CallOf(s, w)) && CallOf(s, w).job == j
  }

  lemma {:induction false} StartInv(n: nat)
    ensures Inv(Start(n))
  {
  }

  lemma NoneLostStep(s: Pool, step: Step)
    requires NoneLost(s) && Enabled(s, step)
    requires step.Go? && Calling(s, step.w) ==> Passes(s, step.w) && !AssignsToRunning(s, step.w)
    ensures NoneLost(After(s, step))
  {
    var r := After(s, step);
    forall j: nat | j < r.issued && j !in r.made ensures Brought(r, j) {
      if j == s.issued {
        assert CallOf(r, step.w).job == j;
      } else {
        assert Brought(s, j);
        var w :| Exists(s, w) && Brings(CallOf(s, w)) && CallOf(s, w).job == j;
        StillBrought(s, step, w);
      }
    }
  }

  predicate AssignsToRunning(s: Pool, w: Who) {
    CallOf(s, w).HasTask? && CallOf(s, w).k < |s.tasks| && s.tasks[CallOf(s, w).k].pc.Running?
  }

  lemma StillBrought(s: Pool, step: Step, w: Who)
    requires Enabled(s, step) && Exists(s, w) && Brings(CallOf(s, w))
    requires step.Go? && Calling(s, step.w) ==> Passes(s, step.w) && !AssignsToRunning(s, step.w)
    ensures var r := After(s, step);
      CallOf(s, w).job in r.made || (Exists(r, w) && Brings(CallOf(r, w)) && CallOf(r, w).job == CallOf(s, w).job)
  {
    if step.Go? && Calling(s, step.w) {
      if w == step.w {
        CallBrings(s, w);
      } else {
        CallOthers(s, step.w, w);
      }
    }
  }

  lemma CallBrings(s: Pool, w: Who)
    requires Calling(s, w) && CanCall(s, w) && Passes(s, w) && Brings(CallOf(s, w)) && !AssignsToRunning(s, w)
    ensures var r := AfterCall(s, w);
      CallOf(s, w).job in r.made || (Exists(r, w) && Brings(CallOf(r, w)) && CallOf(r, w).job == CallOf(s, w).job)
  {
  }

  lemma GoKeeps(s: Pool, w: Who)
    requires Inv(s) && CanGo(s, w) && Calling(s, w)
    ensures Inv(AfterCall(s, w))
  {
    hide Locks, Queue, NoneAborted, Futures, NoneLost, AfterCall;
    if CallOf(s, w).HasTask? {
      ChosenAtRest(s, w);
      AssignQueue(s, w);
      AssignFutures(s, w);
    } else {
      CallFutures(s, w);
      match CallOf(s, w)
      case WantPool(_) => LockPoolQueue(s, w);
      case HasPool(_) => ChooseQueue(s, w);
      case WantTask(_, _, _) => LockTaskQueue(s, w);
      case Popping(_, _, _) => PopQueue(s, w);
    }
    CallLocks(s, w);
    CallNoAbort(s, w);
    NoneLostStep(s, Go(w));
  }

  lemma WorkKeeps(s: Pool, k: nat)
    requires Inv(s) && CanGo(s, Worker(k)) && !Calling(s, Worker(k))
    ensures Inv(AfterWork(s, k))
  {
    assert WorkOk(s);
    hide Locks, Queue, NoneAborted, Futures, NoneLost, AfterWork, WorkOk;
    WorkLocks(s, k);
    OtherNoAbort(s, Go(Worker(k)));
    NoneLostStep(s, Go(Worker(k)));
    if s.tasks[k].pc.Pushing? {
      PushQueue(s, k);
    } else {
      WorkQueue(s, k);
    }
    if s.tasks[k].pc.Setting? {
      SetFutures(s, k);
    } else {
      WorkFutures(s, k);
    }
  }

  lemma StepKeeps(s: Pool, step: Step)
    requires Inv(s) && Enabled(s, step)
    ensures Inv(After(s, step))
  {
    hide Locks, Queue, NoneAborted, Futures, NoneLost, AfterCall, AfterWork;
    match step
    case Ask(w) => AskLocks(s, w); AskQueue(s, w); OtherNoAbort(s, step); AskFutures(s, w); NoneLostStep(s, step);
    case End(k) => EndLocks(s, k); EndQueue(s, k); OtherNoAbort(s, step); EndFutures(s, k); NoneLostStep(s, step);
    case Spurious(k) =>
      SpuriousLocks(s, k); SpuriousQueue(s, k); OtherNoAbort(s, step); SpuriousFutures(s, k); NoneLostStep(s, step);
    case Go(w) =>
      if Calling(s, w) {
        GoKeeps(s, w);
      } else {
        WorkKeeps(s, w.k);
      }
  }

  lemma {:induction false} RunKeeps(s: Pool, steps: seq<Step>, r: Pool)
    requires Inv(s) && Runs(s, steps, r)
    ensures Inv(r)
    decreases |steps|
  {
    hide Inv, Enabled, After;
    if steps != [] {
      StepKeeps(s, steps[0]);
      RunKeeps(After(s, steps[0]), steps[1..], r);
    }
  }

  // futures

  /** The assertion in `assign` holds: the task that is handed work has none, and its promise was
      never made or is set. */
  lemma AssignFindsIdle(n: nat, steps: seq<Step>, s: Pool, w: Who)
    requires Runs(Start(n), steps, s) && Exists(s, w)
    ensures CallOf(s, w) != Aborted
    ensures CallOf(s, w).HasTask? ==>
              && CallOf(s, w).k < |s.tasks|
              && var t := s.tasks[CallOf(s, w).k];
                 t.work == None && (t.promise.Some? ==> t.promise.value in s.kept)
  {
    StartInv(n);
    RunKeeps(Start(n), steps, s);
    if CallOf(s, w).HasTask? {
      HolderIs(s, w);
      assert CallOf(s, w).k < |s.tasks| by {
        if !CallOf(s, w).isNew {
          assert s.idle[0] in s.idle;
        }
      }
      ChosenAtRest(s, w);
      assert PromiseOk(s, s.tasks[CallOf(s, w).k]);
    }
  }

  /** A future belongs to one piece of work, becomes ready once, and only after that work is done.
      A promise that is not set is with the one task that has its work. */
  lemma FuturesMatch(n: nat, steps: seq<Step>, s: Pool, p: nat)
    requires Runs(Start(n), steps, s) && p < |s.made|
    ensures NoDup(s.made) && NoDup(s.kept)
    ensures p in s.kept ==> s.made[p] in s.done
    ensures p !in s.kept <==>
              exists k: nat :: k < |s.tasks| && s.tasks[k].promise == Some(p) && InHand(s.tasks[k]) == Some(s.made[p])
  {
    StartInv(n);
    RunKeeps(Start(n), steps, s);
    if p !in s.kept {
      assert AtTask(s, p);
      var k: nat :| k < |s.tasks| && s.tasks[k].promise == Some(p);
      assert PromiseOk(s, s.tasks[k]);
      assert InHand(s.tasks[k]) == Some(s.made[p]);
    } else {
      forall k: nat | k < |s.tasks| && s.tasks[k].promise == Some(p) ensures InHand(s.tasks[k]) == None {
        assert PromiseOk(s, s.tasks[k]);
      }
    }
  }

  /** Every piece of work brought to the pool is with the caller that brought it, or in the hands
      of a task, or done and answered, and no two tasks have the same. */
  lemma WorkAccounted(n: nat, steps: seq<Step>, s: Pool, j: nat)
    requires Runs(Start(n), steps, s) && j < s.issued
    ensures
      || Brought(s, j) || HasWork(s, j)
      || (j in s.done && exists p: nat :: p < |s.made| && s.made[p] == j && p in s.kept)
    ensures Brought(s, j) ==> !HasWork(s, j) && j !in s.done
    ensures forall k: nat, l: nat :: k < l < |s.tasks| && InHand(s.tasks[k]).Some? ==>
              InHand(s.tasks[k]) != InHand(s.tasks[l])
  {
    StartInv(n);
    RunKeeps(Start(n), steps, s);
    if j in s.made {
      var p: nat :| p < |s.made| && s.made[p] == j;
      if p !in s.kept {
        FuturesMatch(n, steps, s, p);
        assert HasWork(s, j);
      }
    }
    if Brought(s, j) {
      forall k: nat | k < |s.tasks| ensures InHand(s.tasks[k]) != Some(j) {
        assert PromiseOk(s, s.tasks[k]);
      }
    }
    forall k: nat, l: nat | k < l < |s.tasks| && InHand(s.tasks[k]).Some?
      ensures InHand(s.tasks[k]) != InHand(s.tasks[l])
    {
      OtherJob(s, k, l);
    }
  }

  ghost predicate HasWork(s: Pool, j: nat) {
    exists k: nat :: k < |s.tasks| && InHand(s.tasks[k]) == Some(j)
  }

  // the lock order

  /** A worker that holds its task and waits for the pool is in the queue of idle tasks only at
      the front, after it was given its work and before the caller takes it off the queue. */
  lemma QueuedWorkerWaits(n: nat, steps: seq<Step>, s: Pool, k: nat)
    requires Runs(Start(n), steps, s) && k < |s.tasks| && s.tasks[k].pc.Returning?
    ensures k in s.idle <==> Leaving(s, k)
    ensures k in s.idle ==> s.idle[0] == k && s.owner.Some? && CanGo(s, s.owner.value)
  {
    StartInv(n);
    RunKeeps(Start(n), steps, s);
    if k in s.idle {
      assert Leaving(s, k);
    }
  }

  /** Nobody has anything to do but what user code decides. */
  ghost predicate Quiet(s: Pool) {
    forall w :: !CanGo(s, w)
  }

  /** A caller is out of `async`; a worker sleeps without work or runs it. */
  predicate AtRest(s: Pool, w: Who) {
    && CallOf(s, w) == Out
    && (w.Worker? && w.k < |s.tasks| ==>
          s.tasks[w.k].pc.Running? || (s.tasks[w.k].pc == Waiting(false) && s.tasks[w.k].work == None))
  }

  /** Whoever holds a task can go on, unless it is its worker and waits for the pool. */
  lemma TaskOwnerGoes(s: Pool, k: nat)
    requires Inv(s) && k < |s.tasks| && s.tasks[k].owner.Some?
    ensures CanGo(s, s.tasks[k].owner.value) || s.tasks[k].pc.Returning?
  {
    var v := s.tasks[k].owner.value;
    assert TaskLock(s, k);
    assert PromiseOk(s, s.tasks[k]);
    if CallOf(s, v).HasTask? {
      HolderIs(s, v);
    }
  }

  lemma PoolOwnerGoes(s: Pool) returns (w: Who)
    requires Inv(s) && s.owner.Some?
    ensures CanGo(s, w)
  {
    w := s.owner.value;
    assert HoldsPool(s, w);
    if CallOf(s, w).WantTask? {
      var k := CallOf(s, w).k;
      HolderIs(s, w);
      if !CallOf(s, w).isNew {
        assert s.idle[0] in s.idle;
      }
      if s.tasks[k].owner.Some? {
        TaskOwnerGoes(s, k);
        w := s.tasks[k].owner.value;
      }
    } else if CallOf(s, w).HasTask? {
      HolderIs(s, w);
      if !CallOf(s, w).isNew {
        assert s.idle[0] in s.idle;
      }
    } else if CallOf(s, w).Popping? {
      HolderIs(s, w);
    }
  }

  lemma SomeoneGoes(s: Pool, w: Who) returns (x: Who)
    requires Inv(s) && Exists(s, w) && !AtRest(s, w)
    ensures CanGo(s, x)
  {
    x := w;
    if s.owner.Some? {
      x := PoolOwnerGoes(s);
    } else if Calling(s, w) {
      assert HoldsPool(s, w) ==> s.owner == Some(w);
      assert CallOf(s, w) != Aborted;
    } else {
      var k := w.k;
      assert PromiseOk(s, s.tasks[k]);
      if s.tasks[k].owner.Some? && !CanGo(s, w) {
        TaskOwnerGoes(s, k);
        x := s.tasks[k].owner.value;
      }
    }
  }

  /** There is no deadlock: nothing is left to do exactly when every caller is out of `async` and
      every worker runs its work or sleeps without any. */
  lemma QuietExactly(n: nat, steps: seq<Step>, s: Pool)
    requires Runs(Start(n), steps, s)
    ensures Quiet(s) <==> forall w :: Exists(s, w) ==> AtRest(s, w)
  {
    StartInv(n);
    RunKeeps(Start(n), steps, s);
    if Quiet(s) {
      forall w | Exists(s, w) ensures AtRest(s, w) {
        if !AtRest(s, w) {
          var x := SomeoneGoes(s, w);
        }
      }
    }
  }
}
