/** What every interleaving of the thread pool keeps. */
module PoolProofs {
  import opened PoolModel
  import opened Sequences
  import opened Wrappers

  predicate HoldsPool(s: Pool, w: Who) {
    || CallOf(s, w).HasPool? || CallOf(s, w).WantTask? || CallOf(s, w).HasTask? || CallOf(s, w).Popping?
    || (w.Worker? && w.k < |s.tasks| && s.tasks[w.k].pc.Pushing?)
  }

  predicate HoldsTask(s: Pool, w: Who, k: nat) {
    || (CallOf(s, w).HasTask? && CallOf(s, w).k == k)
    || (w == Worker(k) && k < |s.tasks| && InOwnTask(s.tasks[k].pc))
  }

  predicate InOwnTask(pc: Pc) {
    pc.Holding? || pc.Returning? || pc.Pushing? || pc.Setting?
  }

  ghost predicate PoolLock(s: Pool) {
    && (forall w :: Exists(s, w) && HoldsPool(s, w) ==> s.owner == Some(w))
    && (s.owner.Some? ==> Exists(s, s.owner.value) && HoldsPool(s, s.owner.value))
  }

  ghost predicate TaskLocks(s: Pool) {
    forall k: nat :: k < |s.tasks| ==> TaskLock(s, k)
  }

  ghost predicate TaskLock(s: Pool, k: nat)
    requires k < |s.tasks|
  {
    && (forall w :: Exists(s, w) && HoldsTask(s, w, k) ==> s.tasks[k].owner == Some(w))
    && (s.tasks[k].owner.Some? ==> Exists(s, s.tasks[k].owner.value) && HoldsTask(s, s.tasks[k].owner.value, k))
  }

  /** The call of the thread that holds the pool fits the queue of idle tasks. */
  predicate HolderOk(s: Pool) {
    match HolderCall(s)
    case WantTask(_, k, isNew) => Chosen(s, k, isNew)
    case HasTask(_, k, isNew) => Chosen(s, k, isNew)
    case Popping(_, k, isNew) => Busy(s, k) && if isNew then k !in s.idle else s.idle != [] && s.idle[0] == k
    case _ => true
  }

  predicate Chosen(s: Pool, k: nat, isNew: bool) {
    k < |s.tasks| &&
    if isNew then k !in s.idle && s.tasks[k] == NEW.(owner := s.tasks[k].owner, pc := s.tasks[k].pc)
                  && (s.tasks[k].pc.Starting? || s.tasks[k].pc.Holding? || s.tasks[k].pc.Waiting?)
    else s.idle != [] && s.idle[0] == k
  }

  /** The front of the queue was given work and is about to leave. */
  predicate Leaving(s: Pool, k: nat) {
    HolderCall(s).Popping? && HolderCall(s).k == k && !HolderCall(s).isNew
  }

  ghost predicate IdleOk(s: Pool) {
    && NoDup(s.idle)
    && (forall k: nat :: k in s.idle <==> k < |s.tasks| && (!Busy(s, k) || Leaving(s, k)))
  }

  /** A worker sleeps only without work, and takes work only when its own is over. */
  ghost predicate WorkOk(s: Pool) {
    forall k: nat :: k < |s.tasks| ==>
      match s.tasks[k].pc
      case Starting | Holding => true
      case Waiting(woken) => woken || s.tasks[k].work == None
      case _ => s.tasks[k].work == None
  }

  ghost predicate NoneAborted(s: Pool) {
    forall w :: Exists(s, w) ==> CallOf(s, w) != Aborted
  }

  ghost predicate Locks(s: Pool) {
    PoolLock(s) && TaskLocks(s)
  }

  ghost predicate Queue(s: Pool) {
    HolderOk(s) && IdleOk(s) && WorkOk(s)
  }

  // locks

  lemma AskLocks(s: Pool, w: Who)
    requires Locks(s) && InUserCode(s, w)
    ensures Locks(After(s, Ask(w)))
  {
    var r := After(s, Ask(w));
    forall k: nat | k < |r.tasks| ensures TaskLock(r, k) { assert TaskLock(s, k); }
  }

  lemma EndLocks(s: Pool, k: nat)
    requires Locks(s) && Enabled(s, End(k))
    ensures Locks(After(s, End(k)))
  {
    var r := After(s, End(k));
    forall x: nat | x < |r.tasks| ensures TaskLock(r, x) { assert TaskLock(s, x); }
  }

  lemma SpuriousLocks(s: Pool, k: nat)
    requires Locks(s) && Enabled(s, Spurious(k))
    ensures Locks(After(s, Spurious(k)))
  {
    var r := After(s, Spurious(k));
    forall x: nat | x < |r.tasks| ensures TaskLock(r, x) { assert TaskLock(s, x); }
  }

  lemma WorkLocks(s: Pool, k: nat)
    requires Locks(s) && k < |s.tasks| && CanWork(s, k)
    ensures Locks(AfterWork(s, k))
  {
    WorkPoolLock(s, k);
    WorkTaskLocks(s, k);
  }

  lemma WorkPoolLock(s: Pool, k: nat)
    requires Locks(s) && k < |s.tasks| && CanWork(s, k)
    ensures PoolLock(AfterWork(s, k))
  {
    var r := AfterWork(s, k);
    assert HoldsPool(s, Worker(k)) ==> s.owner == Some(Worker(k));
    forall v | Exists(r, v) && HoldsPool(r, v) ensures r.owner == Some(v) {
      assert Exists(s, v) && HoldsPool(s, v) ==> s.owner == Some(v);
      assert v != Worker(k) ==> CallOf(r, v) == CallOf(s, v);
    }
    if s.owner.Some? {
      var v := s.owner.value;
      assert v != Worker(k) ==> CallOf(r, v) == CallOf(s, v);
    }
  }

  lemma WorkTaskLocks(s: Pool, k: nat)
    requires Locks(s) && k < |s.tasks| && CanWork(s, k)
    ensures TaskLocks(AfterWork(s, k))
  {
    var r, me := AfterWork(s, k), Worker(k);
    assert TaskLock(s, k);
    assert HoldsTask(s, me, k) ==> s.tasks[k].owner == Some(me);
    forall x: nat | x < |r.tasks| ensures TaskLock(r, x) {
      assert TaskLock(s, x);
      forall v | Exists(r, v) && HoldsTask(r, v, x) ensures r.tasks[x].owner == Some(v) {
        assert Exists(s, v) && HoldsTask(s, v, x) ==> s.tasks[x].owner == Some(v);
        assert v != me ==> CallOf(r, v) == CallOf(s, v);
      }
    }
  }

  /** The assertion in `assign` holds. */
  predicate Passes(s: Pool, w: Who) {
    CallOf(s, w).HasTask? && CallOf(s, w).k < |s.tasks| ==> s.tasks[CallOf(s, w).k].work == None
  }

  lemma CallLocks(s: Pool, w: Who)
    requires Locks(s) && Calling(s, w) && CanCall(s, w) && Passes(s, w)
    ensures Locks(AfterCall(s, w))
  {
    CallPoolLock(s, w);
    CallTaskLocks(s, w);
  }

  lemma CallPoolLock(s: Pool, w: Who)
    requires Locks(s) && Calling(s, w) && CanCall(s, w) && Passes(s, w)
    ensures PoolLock(AfterCall(s, w))
  {
    var r := AfterCall(s, w);
    assert HoldsPool(s, w) ==> s.owner == Some(w);
    forall v | Exists(r, v) && HoldsPool(r, v) ensures r.owner == Some(v) {
      assert Exists(s, v) && HoldsPool(s, v) ==> s.owner == Some(v);
    }
  }

  /** A step in `async` leaves alone where all other threads are. */
  lemma CallOthers(s: Pool, w: Who, v: Who)
    requires Calling(s, w) && CanCall(s, w) && Exists(s, v) && v != w
    ensures Exists(AfterCall(s, w), v) && CallOf(AfterCall(s, w), v) == CallOf(s, v)
    ensures v.Worker? ==> InOwnTask(AfterCall(s, w).tasks[v.k].pc) == InOwnTask(s.tasks[v.k].pc)
  {
  }

  lemma CallSelf(s: Pool, w: Who)
    requires Calling(s, w) && CanCall(s, w) && Passes(s, w)
    ensures var r, c := AfterCall(s, w), CallOf(s, w);
      && Exists(r, w) && (c.WantTask? ==> CallOf(r, w) == HasTask(c.job, c.k, c.isNew))
      && (!c.WantTask? ==> !CallOf(r, w).HasTask?)
      && (w.Worker? ==> !InOwnTask(r.tasks[w.k].pc) && !InOwnTask(s.tasks[w.k].pc))
  {
  }

  /** What a step in `async` changes about who holds the mutex of task `x`. */
  lemma CallHolds(s: Pool, w: Who, v: Who, x: nat)
    requires Calling(s, w) && CanCall(s, w) && Passes(s, w) && Exists(s, v) && x < |s.tasks|
    ensures Exists(AfterCall(s, w), v)
    ensures v != w ==> HoldsTask(AfterCall(s, w), v, x) == HoldsTask(s, v, x)
    ensures var c := CallOf(s, w);
      HoldsTask(AfterCall(s, w), w, x) == if c.WantTask? && c.k == x then true else HoldsTask(s, w, x) && !c.HasTask?
  {
    CallSelf(s, w);
    if v != w {
      CallOthers(s, w, v);
    }
    hide CallOf, AfterCall, CanCall, Passes, InOwnTask;
  }

  lemma CallOwner(s: Pool, w: Who, x: nat)
    requires Calling(s, w) && CanCall(s, w) && Passes(s, w) && x < |s.tasks|
    ensures var r, c := AfterCall(s, w), CallOf(s, w);
      && |r.tasks| >= |s.tasks|
      && r.tasks[x].owner ==
           if c.WantTask? && c.k == x then Some(w) else if c.HasTask? && c.k == x then None else s.tasks[x].owner
  {
  }

  /** A caller makes one task at most, and nobody knows it. */
  lemma CallMakes(s: Pool, w: Who, v: Who)
    requires Calling(s, w) && CanCall(s, w) && Exists(AfterCall(s, w), v) && !Exists(s, v)
    ensures forall x: nat :: !HoldsTask(AfterCall(s, w), v, x)
  {
  }

  lemma CallTaskLocks(s: Pool, w: Who)
    requires Locks(s) && Calling(s, w) && CanCall(s, w) && Passes(s, w)
    ensures TaskLocks(AfterCall(s, w))
  {
    var r := AfterCall(s, w);
    forall x: nat | x < |r.tasks| ensures TaskLock(r, x) {
      if x < |s.tasks| {
        CallTaskLock(s, w, x);
      } else {
        NewTaskLock(s, w, x);
      }
    }
  }

  lemma CallTaskLock(s: Pool, w: Who, x: nat)
    requires Locks(s) && Calling(s, w) && CanCall(s, w) && Passes(s, w) && x < |s.tasks|
    ensures |AfterCall(s, w).tasks| >= |s.tasks| && TaskLock(AfterCall(s, w), x)
  {
    var r, c := AfterCall(s, w), CallOf(s, w);
    CallOwner(s, w, x);
    assert TaskLock(s, x);
    assert c.HasTask? && c.k == x ==> HoldsTask(s, w, x);
    assert c.WantTask? && c.k == x ==> s.tasks[x].owner == None;
    hide AfterCall, CanCall, Calling, Passes, Locks, CallOf, HoldsTask, Exists;
    CallHolds(s, w, w, x);
    forall v | Exists(r, v) && HoldsTask(r, v, x) ensures r.tasks[x].owner == Some(v) {
      if Exists(s, v) {
        CallHolds(s, w, v, x);
      } else {
        CallMakes(s, w, v);
      }
    }
    if s.tasks[x].owner.Some? {
      CallHolds(s, w, s.tasks[x].owner.value, x);
    }
  }

  lemma NewTaskLock(s: Pool, w: Who, x: nat)
    requires Locks(s) && Calling(s, w) && CanCall(s, w) && |s.tasks| <= x < |AfterCall(s, w).tasks|
    ensures TaskLock(AfterCall(s, w), x)
  {
    var r := AfterCall(s, w);
    assert CallOf(s, w).HasPool? && s.idle == [];
    assert HoldsPool(s, w);
    forall v | Exists(r, v) ensures !HoldsTask(r, v, x) {
      assert v != w ==> CallOf(r, v) == CallOf(s, v);
      assert Exists(s, v) && CallOf(s, v).HasTask? ==> HoldsPool(s, v);
    }
  }

  // the assertion in `assign`

  lemma CallNoAbort(s: Pool, w: Who)
    requires NoneAborted(s) && Calling(s, w) && CanCall(s, w) && Passes(s, w)
    ensures NoneAborted(AfterCall(s, w))
  {
    var r := AfterCall(s, w);
    forall v | Exists(r, v) ensures CallOf(r, v) != Aborted {
      assert Exists(s, v) ==> CallOf(s, v) != Aborted;
    }
  }

  lemma OtherNoAbort(s: Pool, step: Step)
    requires NoneAborted(s) && Enabled(s, step) && (step.Go? ==> !Calling(s, step.w))
    ensures NoneAborted(After(s, step))
  {
    var r := After(s, step);
    forall v | Exists(r, v) ensures CallOf(r, v) != Aborted {
      assert Exists(s, v) ==> CallOf(s, v) != Aborted;
    }
  }

  // the queue of idle tasks

  /** The thread that holds the pool is the one that steps. */
  lemma HolderIs(s: Pool, w: Who)
    requires Locks(s) && Exists(s, w) && HoldsPool(s, w)
    ensures s.owner == Some(w) && HolderCall(s) == CallOf(s, w)
  {
  }

  /** A task that is chosen is at rest when its mutex is held by the caller. */
  lemma ChosenAtRest(s: Pool, w: Who)
    requires Locks(s) && Queue(s) && Calling(s, w) && CallOf(s, w).HasTask? && CallOf(s, w).k < |s.tasks|
    ensures var t := s.tasks[CallOf(s, w).k];
            t.work == None && (t.pc.Starting? || t.pc.Waiting?)
  {
    var c := CallOf(s, w);
    HolderIs(s, w);
    assert TaskLock(s, c.k);
    assert HoldsTask(s, w, c.k);
    assert InOwnTask(s.tasks[c.k].pc) ==> HoldsTask(s, Worker(c.k), c.k);
    if !c.isNew {
      assert c.k in s.idle;
    }
  }

  lemma AskQueue(s: Pool, w: Who)
    requires Locks(s) && Queue(s) && InUserCode(s, w)
    ensures Queue(After(s, Ask(w)))
  {
    var r := After(s, Ask(w));
    assert s.owner == Some(w) ==> HoldsPool(s, w);
    assert HolderCall(r) == HolderCall(s);
    assert forall k: nat :: Busy(r, k) == Busy(s, k);
    assert forall k: nat :: Leaving(r, k) == Leaving(s, k);
  }

  lemma EndQueue(s: Pool, k: nat)
    requires Locks(s) && Queue(s) && Enabled(s, End(k))
    ensures Queue(After(s, End(k)))
  {
    var r := After(s, End(k));
    assert HolderCall(r) == HolderCall(s);
    assert forall x: nat :: Busy(r, x) == Busy(s, x);
    assert forall x: nat :: Leaving(r, x) == Leaving(s, x);
  }

  lemma SpuriousQueue(s: Pool, k: nat)
    requires Locks(s) && Queue(s) && Enabled(s, Spurious(k))
    ensures Queue(After(s, Spurious(k)))
  {
    var r := After(s, Spurious(k));
    assert HolderCall(r) == HolderCall(s);
    assert forall x: nat :: Busy(r, x) == Busy(s, x);
    assert forall x: nat :: Leaving(r, x) == Leaving(s, x);
  }

  lemma PushQueue(s: Pool, k: nat)
    requires Locks(s) && Queue(s) && k < |s.tasks| && s.tasks[k].pc.Pushing?
    ensures Queue(AfterWork(s, k))
  {
    var r := AfterWork(s, k);
    HolderIs(s, Worker(k));
    assert HolderCall(r) == Out == HolderCall(s);
    assert forall x: nat :: !Leaving(r, x) && !Leaving(s, x);
    assert forall x: nat :: x != k ==> Busy(r, x) == Busy(s, x);
    assert k !in s.idle;
    PushNoDup(s.idle, k);
  }

  lemma WorkQueue(s: Pool, k: nat)
    requires Locks(s) && Queue(s) && k < |s.tasks| && CanWork(s, k) && !s.tasks[k].pc.Pushing?
    ensures Queue(AfterWork(s, k))
  {
    var r := AfterWork(s, k);
    WorkBusy(s, k);
    assert WorkOk(r);
    hide AfterWork, CanWork, Busy, HolderCall, WorkOk;
  }

  lemma WorkBusy(s: Pool, k: nat)
    requires Locks(s) && Queue(s) && k < |s.tasks| && CanWork(s, k) && !s.tasks[k].pc.Pushing?
    ensures var r := AfterWork(s, k);
      && HolderCall(r) == HolderCall(s) && r.idle == s.idle && |r.tasks| == |s.tasks|
      && (forall x: nat :: Busy(r, x) == Busy(s, x))
      && (forall x: nat :: x < |s.tasks| && x != k ==> r.tasks[x] == s.tasks[x])
  {
    var r := AfterWork(s, k);
    assert HolderCall(r) == HolderCall(s);
    assert forall x: nat :: x != k ==> Busy(r, x) == Busy(s, x);
    assert Busy(r, k) == Busy(s, k);
  }

  lemma LockPoolQueue(s: Pool, w: Who)
    requires Locks(s) && Queue(s) && Calling(s, w) && CanCall(s, w) && CallOf(s, w).WantPool?
    ensures Queue(AfterCall(s, w))
  {
    var r := AfterCall(s, w);
    assert forall x: nat :: Busy(r, x) == Busy(s, x);
    assert forall x: nat :: Leaving(r, x) == Leaving(s, x);
  }

  lemma ChooseQueue(s: Pool, w: Who)
    requires Locks(s) && Queue(s) && Calling(s, w) && CallOf(s, w).HasPool?
    ensures Queue(AfterCall(s, w))
  {
    HolderIs(s, w);
    var r, n: nat := AfterCall(s, w), |s.tasks|;
    assert HolderCall(r) == CallOf(r, w);
    assert forall x: nat :: x < n ==> Busy(r, x) == Busy(s, x);
    assert s.idle == [] ==> Busy(r, n);
    assert s.idle != [] ==> s.idle[0] in s.idle;
    assert forall x: nat :: !Leaving(r, x) && !Leaving(s, x);
    forall x: nat ensures x in r.idle <==> x < |r.tasks| && !Busy(r, x) {
      assert x in s.idle <==> x < n && !Busy(s, x);
    }
  }

  lemma LockTaskQueue(s: Pool, w: Who)
    requires Locks(s) && Queue(s) && Calling(s, w) && CanCall(s, w) && CallOf(s, w).WantTask?
    ensures Queue(AfterCall(s, w))
  {
    HolderIs(s, w);
    var r := AfterCall(s, w);
    assert HolderCall(r) == CallOf(r, w);
    assert forall x: nat :: Busy(r, x) == Busy(s, x);
    assert forall x: nat :: Leaving(r, x) == Leaving(s, x);
  }

  lemma AssignQueue(s: Pool, w: Who)
    requires Locks(s) && Queue(s) && Calling(s, w) && CanCall(s, w) && CallOf(s, w).HasTask?
    ensures Queue(AfterCall(s, w))
  {
    HolderIs(s, w);
    ChosenAtRest(s, w);
    var r, c := AfterCall(s, w), CallOf(s, w);
    assert HolderCall(r) == CallOf(r, w);
    assert Busy(r, c.k);
    assert forall x: nat :: x != c.k ==> Busy(r, x) == Busy(s, x);
    assert forall x: nat :: x != c.k ==> !Leaving(r, x) && !Leaving(s, x);
  }

  lemma PopQueue(s: Pool, w: Who)
    requires Locks(s) && Queue(s) && Calling(s, w) && CanCall(s, w) && CallOf(s, w).Popping?
    ensures Queue(AfterCall(s, w))
  {
    HolderIs(s, w);
    var r, c := AfterCall(s, w), CallOf(s, w);
    assert HolderCall(r) == Out;
    assert forall x: nat :: Busy(r, x) == Busy(s, x);
    assert forall x: nat :: !Leaving(r, x) && (x != c.k ==> !Leaving(s, x));
    if !c.isNew {
      assert s.idle == [c.k] + s.idle[1..];
      assert c.k !in s.idle[1..] && NoDup(s.idle[1..]);
    }
    forall x: nat ensures x in r.idle <==> x < |r.tasks| && !Busy(r, x) {
      assert x in s.idle <==> x < |s.tasks| && (!Busy(s, x) || Leaving(s, x));
    }
  }
}
