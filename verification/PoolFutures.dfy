/** Which future belongs to which piece of work. */
module PoolFutures {
  import opened PoolModel
  import opened PoolProofs
  import opened Sequences
  import opened Wrappers

  /** The caller brings work that no task has yet. */
  predicate Brings(c: Call) {
    c.WantPool? || c.HasPool? || c.WantTask? || c.HasTask?
  }

  /** Every piece of work is brought by one caller or has one promise. */
  ghost predicate Jobs(s: Pool) {
    && NoDup(s.made)
    && (forall j :: j in s.made ==> j < s.issued)
    && (forall w :: Exists(s, w) && Brings(CallOf(s, w)) ==>
          CallOf(s, w).job < s.issued && CallOf(s, w).job !in s.made)
    && (forall v, w :: Exists(s, v) && Exists(s, w) && v != w && Brings(CallOf(s, v)) && Brings(CallOf(s, w)) ==>
          CallOf(s, v).job != CallOf(s, w).job)
  }

  /** Promise `p` was made for work `j` and is not set yet. */
  predicate Owes(s: Pool, t: Task, j: nat) {
    && t.promise.Some? && t.promise.value < |s.made| && s.made[t.promise.value] == j
    && t.promise.value !in s.kept
  }

  /** The promise of a task is the one made for its present work. */
  predicate PromiseOk(s: Pool, t: Task) {
    match t.pc
    case Running(j, _) => Owes(s, t, j) && j !in s.done
    case Relocking(j) => Owes(s, t, j) && j in s.done
    case Returning(j) => Owes(s, t, j) && j in s.done
    case Pushing(j) => Owes(s, t, j) && j in s.done
    case Setting(j) => Owes(s, t, j) && j in s.done
    case _ =>
      if t.work.Some? then Owes(s, t, t.work.value) && t.work.value !in s.done
      else t.promise.Some? ==> t.promise.value in s.kept
  }

  ghost predicate Promises(s: Pool) {
    && (forall k :: 0 <= k < |s.tasks| ==> PromiseOk(s, s.tasks[k]))
    && (forall k, l :: 0 <= k < l < |s.tasks| && s.tasks[k].promise.Some? ==>
          s.tasks[k].promise != s.tasks[l].promise)
    && (forall p :: p in s.kept ==> p < |s.made| && s.made[p] in s.done)
    && (forall j :: j in s.done ==> j in s.made)
    && NoDup(s.kept) && NoDup(s.done)
  }

  /** Every promise is set or still with a task. */
  ghost predicate Covered(s: Pool) {
    forall p: nat :: p < |s.made| ==> p in s.kept || AtTask(s, p)
  }

  ghost predicate AtTask(s: Pool, p: nat) {
    exists k: nat :: k < |s.tasks| && s.tasks[k].promise == Some(p)
  }

  ghost predicate Futures(s: Pool) {
    Jobs(s) && Promises(s) && Covered(s)
  }

  // steps that leave work and promises alone

  /** Between `s` and `r` no work is brought, assigned, taken, done or answered. */
  ghost predicate SameFutures(s: Pool, r: Pool) {
    && r.made == s.made && r.done == s.done && r.kept == s.kept && |r.tasks| >= |s.tasks|
    && (forall k :: 0 <= k < |s.tasks| ==>
          && r.tasks[k].promise == s.tasks[k].promise
          && (PromiseOk(s, s.tasks[k]) ==> PromiseOk(r, r.tasks[k])))
    && (forall k :: |s.tasks| <= k < |r.tasks| ==> r.tasks[k] == NEW)
  }

  lemma SamePromises(s: Pool, r: Pool)
    requires Promises(s) && Covered(s) && SameFutures(s, r)
    ensures Promises(r) && Covered(r)
  {
    forall p: nat | p < |r.made| && p !in r.kept ensures AtTask(r, p) {
      assert AtTask(s, p);
      var k: nat :| k < |s.tasks| && s.tasks[k].promise == Some(p);
      assert r.tasks[k].promise == Some(p);
    }
  }

  lemma SpuriousFutures(s: Pool, k: nat)
    requires Futures(s) && Enabled(s, Spurious(k))
    ensures Futures(After(s, Spurious(k)))
  {
    var r := After(s, Spurious(k));
    SamePromises(s, r);
    assert forall w :: Exists(r, w) ==> Exists(s, w) && CallOf(r, w) == CallOf(s, w);
  }

  lemma AskFutures(s: Pool, w: Who)
    requires Futures(s) && InUserCode(s, w)
    ensures Futures(After(s, Ask(w)))
  {
    AskSame(s, w);
    AskJobs(s, w);
    hide Jobs, SameFutures, After;
    SamePromises(s, After(s, Ask(w)));
  }

  lemma AskSame(s: Pool, w: Who)
    requires InUserCode(s, w)
    ensures SameFutures(s, After(s, Ask(w)))
  {
  }

  lemma AskJobs(s: Pool, w: Who)
    requires Jobs(s) && InUserCode(s, w)
    ensures Jobs(After(s, Ask(w)))
  {
    var r := After(s, Ask(w));
    assert forall v :: Exists(r, v) ==> Exists(s, v) && (v != w ==> CallOf(r, v) == CallOf(s, v));
  }

  lemma EndFutures(s: Pool, k: nat)
    requires Futures(s) && Enabled(s, End(k))
    ensures Futures(After(s, End(k)))
  {
    var r, j := After(s, End(k)), s.tasks[k].pc.job;
    assert PromiseOk(s, s.tasks[k]);
    PushNoDup(s.done, j);
    forall x | 0 <= x < |r.tasks| ensures PromiseOk(r, r.tasks[x]) {
      assert PromiseOk(s, s.tasks[x]);
      if x != k {
        OtherJob(s, k, x);
      }
    }
    forall p: nat | p < |r.made| && p !in r.kept ensures AtTask(r, p) {
      assert AtTask(s, p);
      var x: nat :| x < |s.tasks| && s.tasks[x].promise == Some(p);
      assert r.tasks[x].promise == Some(p);
    }
    assert forall w :: Exists(r, w) ==> Exists(s, w) && CallOf(r, w) == CallOf(s, w);
  }

  /** The work that a task has in hand. */
  function InHand(t: Task): Option<nat> {
    match t.pc
    case Running(j, _) => Some(j)
    case Relocking(j) => Some(j)
    case Returning(j) => Some(j)
    case Pushing(j) => Some(j)
    case Setting(j) => Some(j)
    case _ => t.work
  }

  /** Two tasks never have the same piece of work. */
  lemma OtherJob(s: Pool, k: nat, x: nat)
    requires Jobs(s) && Promises(s) && k < |s.tasks| && x < |s.tasks| && k != x && InHand(s.tasks[k]).Some?
    ensures InHand(s.tasks[x]) != InHand(s.tasks[k])
  {
    assert PromiseOk(s, s.tasks[k]) && PromiseOk(s, s.tasks[x]);
    if InHand(s.tasks[x]) == InHand(s.tasks[k]) {
      var p, q := s.tasks[k].promise.value, s.tasks[x].promise.value;
      assert s.made[p] == s.made[q];
      if p < q { NoDupAt(s.made, p, q); } else if q < p { NoDupAt(s.made, q, p); }
    }
  }

  lemma WorkFutures(s: Pool, k: nat)
    requires Futures(s) && k < |s.tasks| && CanWork(s, k) && !s.tasks[k].pc.Setting?
    ensures Futures(AfterWork(s, k))
  {
    var r := AfterWork(s, k);
    WorkSame(s, k);
    WorkJobs(s, k);
    hide Jobs, SameFutures, AfterWork, CanWork;
    SamePromises(s, r);
  }

  lemma WorkSame(s: Pool, k: nat)
    requires k < |s.tasks| && CanWork(s, k) && !s.tasks[k].pc.Setting?
    ensures SameFutures(s, AfterWork(s, k))
  {
  }

  lemma WorkJobs(s: Pool, k: nat)
    requires Jobs(s) && k < |s.tasks| && CanWork(s, k)
    ensures Jobs(AfterWork(s, k))
  {
    var r := AfterWork(s, k);
    assert r.made == s.made && r.issued == s.issued;
    assert forall w :: Exists(r, w) ==> Exists(s, w) && CallOf(r, w) == CallOf(s, w);
  }

  lemma SetFutures(s: Pool, k: nat)
    requires Futures(s) && WorkOk(s) && k < |s.tasks| && s.tasks[k].pc.Setting? && CanWork(s, k)
    ensures Futures(AfterWork(s, k))
  {
    var r, p := AfterWork(s, k), s.tasks[k].promise.value;
    assert PromiseOk(s, s.tasks[k]);
    PushNoDup(s.kept, p);
    forall x | 0 <= x < |r.tasks| ensures PromiseOk(r, r.tasks[x]) {
      assert PromiseOk(s, s.tasks[x]);
      assert x < k ==> s.tasks[x].promise.Some? ==> s.tasks[x].promise != s.tasks[k].promise;
    }
    forall q: nat | q < |r.made| && q !in r.kept ensures AtTask(r, q) {
      assert AtTask(s, q);
      var x: nat :| x < |s.tasks| && s.tasks[x].promise == Some(q);
      assert r.tasks[x].promise == Some(q);
    }
    assert forall w :: Exists(r, w) ==> Exists(s, w) && CallOf(r, w) == CallOf(s, w);
  }

  /** The steps of `async` around `assign`. */
  lemma CallFutures(s: Pool, w: Who)
    requires Futures(s) && Calling(s, w) && CanCall(s, w) && !CallOf(s, w).HasTask?
    ensures Futures(AfterCall(s, w))
  {
    var r := AfterCall(s, w);
    CallSame(s, w);
    CallJobs(s, w);
    hide Jobs, SameFutures, AfterCall, CanCall;
    SamePromises(s, r);
  }

  lemma CallSame(s: Pool, w: Who)
    requires Calling(s, w) && CanCall(s, w) && !CallOf(s, w).HasTask?
    ensures SameFutures(s, AfterCall(s, w))
  {
    var r := AfterCall(s, w);
    assert r.made == s.made && r.done == s.done && r.kept == s.kept;
    forall k | 0 <= k < |s.tasks|
      ensures r.tasks[k].promise == s.tasks[k].promise
      ensures PromiseOk(s, s.tasks[k]) ==> PromiseOk(r, r.tasks[k])
    {
      assert r.tasks[k].work == s.tasks[k].work;
      assert r.tasks[k].pc == s.tasks[k].pc
             || (r.tasks[k].pc.Running? && s.tasks[k].pc.Running? && r.tasks[k].pc.job == s.tasks[k].pc.job);
    }
  }

  lemma CallJobs(s: Pool, w: Who)
    requires Jobs(s) && Calling(s, w) && CanCall(s, w) && !CallOf(s, w).HasTask?
    ensures Jobs(AfterCall(s, w))
  {
    var r := AfterCall(s, w);
    assert r.made == s.made && r.issued == s.issued;
    forall v | Exists(r, v) && Brings(CallOf(r, v))
      ensures Exists(s, v) && Brings(CallOf(s, v)) && CallOf(r, v).job == CallOf(s, v).job
    {
      CallJob(s, w, v);
    }
    hide AfterCall, CanCall, Calling;
  }

  lemma CallJob(s: Pool, w: Who, v: Who)
    requires Calling(s, w) && CanCall(s, w) && !CallOf(s, w).HasTask?
    requires Exists(AfterCall(s, w), v) && Brings(CallOf(AfterCall(s, w), v))
    ensures Exists(s, v) && Brings(CallOf(s, v)) && CallOf(AfterCall(s, w), v).job == CallOf(s, v).job
  {
  }

  /** `assign` replaces a promise that was never made or is set. */
  lemma AssignFutures(s: Pool, w: Who)
    requires Locks(s) && Queue(s) && Futures(s) && Calling(s, w) && CanCall(s, w) && CallOf(s, w).HasTask?
    ensures Futures(AfterCall(s, w))
  {
    ChosenAtRest(s, w);
    AssignJobs(s, w);
    AssignPromises(s, w);
    AssignCovered(s, w);
  }

  lemma AssignJobs(s: Pool, w: Who)
    requires Jobs(s) && Calling(s, w) && CanCall(s, w) && CallOf(s, w).HasTask?
    requires s.tasks[CallOf(s, w).k].work == None && !s.tasks[CallOf(s, w).k].pc.Running?
    ensures Jobs(AfterCall(s, w))
  {
    var r := AfterCall(s, w);
    PushNoDup(s.made, CallOf(s, w).job);
    assert forall v :: Exists(r, v) && Brings(CallOf(r, v)) ==>
             Exists(s, v) && v != w && Brings(CallOf(s, v)) && CallOf(r, v) == CallOf(s, v);
  }

  lemma AssignPromises(s: Pool, w: Who)
    requires Futures(s) && Calling(s, w) && CanCall(s, w) && CallOf(s, w).HasTask?
    requires var t := s.tasks[CallOf(s, w).k]; t.work == None && (t.pc.Starting? || t.pc.Waiting?)
    ensures Promises(AfterCall(s, w))
  {
    var r, c, n: nat := AfterCall(s, w), CallOf(s, w), |s.made|;
    assert r.made == s.made + [c.job] && r.kept == s.kept && r.done == s.done && |r.tasks| == |s.tasks|;
    forall x | 0 <= x < |r.tasks|
      ensures PromiseOk(r, r.tasks[x]) && r.tasks[x].promise == if x == c.k then Some(n) else s.tasks[x].promise
    {
      AssignPromise(s, w, x);
    }
    hide *;
    PromisesGrow(s, r, c.k, c.job);
  }

  /** Task `k` gets the next promise. */
  lemma PromisesGrow(s: Pool, r: Pool, k: nat, j: nat)
    requires Promises(s) && |r.tasks| == |s.tasks|
    requires r.made == s.made + [j] && r.kept == s.kept && r.done == s.done
    requires forall x :: 0 <= x < |r.tasks| ==>
      PromiseOk(r, r.tasks[x]) && r.tasks[x].promise == if x == k then Some(|s.made|) else s.tasks[x].promise
    ensures Promises(r)
  {
    forall x | 0 <= x < |s.tasks| ensures s.tasks[x].promise != Some(|s.made|) {
      assert PromiseOk(s, s.tasks[x]);
    }
    hide PromiseOk;
  }

  lemma AssignPromise(s: Pool, w: Who, x: nat)
    requires Futures(s) && Calling(s, w) && CanCall(s, w) && CallOf(s, w).HasTask? && x < |s.tasks|
    requires var t := s.tasks[CallOf(s, w).k]; t.work == None && (t.pc.Starting? || t.pc.Waiting?)
    ensures var r, c := AfterCall(s, w), CallOf(s, w);
      && |r.tasks| == |s.tasks| && PromiseOk(r, r.tasks[x])
      && r.tasks[x].promise == if x == c.k then Some(|s.made|) else s.tasks[x].promise
  {
    var r, c := AfterCall(s, w), CallOf(s, w);
    AssignTask(s, w, x);
    assert c.job !in s.made && c.job !in s.done;
    assert forall p :: p in s.kept ==> p < |s.made|;
    assert PromiseOk(s, s.tasks[x]);
    hide AfterCall, CanCall, Calling, Futures;
  }

  /** What `assign` changes about a task. */
  lemma AssignTask(s: Pool, w: Who, x: nat)
    requires Calling(s, w) && CanCall(s, w) && CallOf(s, w).HasTask? && x < |s.tasks|
    requires var t := s.tasks[CallOf(s, w).k]; t.work == None && (t.pc.Starting? || t.pc.Waiting?)
    ensures var r, c := AfterCall(s, w), CallOf(s, w);
      && r.made == s.made + [c.job] && r.kept == s.kept && r.done == s.done && |r.tasks| == |s.tasks|
      && if x == c.k then r.tasks[x] == Assigned(s.tasks[x], c.job, |s.made|)
         else if w == Worker(x) then
           r.tasks[x] == s.tasks[x].(pc := Running(s.tasks[x].pc.job, Popping(c.job, c.k, c.isNew)))
         else r.tasks[x] == s.tasks[x]
  {
  }

  lemma AssignCovered(s: Pool, w: Who)
    requires Futures(s) && Calling(s, w) && CanCall(s, w) && CallOf(s, w).HasTask?
    requires var t := s.tasks[CallOf(s, w).k]; t.work == None && (t.pc.Starting? || t.pc.Waiting?)
    ensures Covered(AfterCall(s, w))
  {
    var r, c, n: nat := AfterCall(s, w), CallOf(s, w), |s.made|;
    assert PromiseOk(s, s.tasks[c.k]);
    forall p: nat | p < |r.made| && p !in r.kept ensures AtTask(r, p) {
      if p == n {
        assert r.tasks[c.k].promise == Some(p);
      } else {
        assert AtTask(s, p);
        var x: nat :| x < |s.tasks| && s.tasks[x].promise == Some(p);
        assert r.tasks[x].promise == Some(p);
      }
    }
  }
}
