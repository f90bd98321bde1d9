/** What each request of user code comes to, however the steps after it interleave. */
module ContextArrivals {
  import opened ContextModel
  import opened ContextProofs
  import opened ContextTheorems
  import opened Wrappers

  // steps of threads without the baton

  /** Where such a thread goes. */
  function Next(pc: Pc, mode: Mode): Pc {
    match pc
    case Blocking | CallWait => Waiting(false)
    case Waiting(_) => Woken
    case Woken => if mode == BLOCKED then Waiting(false) else if mode == FINAL then Done else Run
    case Starting | Leaving => if mode == FINAL then Done else Blocking
    case CallLockSelf(to) => CallBlock(to)
    case CallBlock(_) => CallWait
    case _ => pc
  }

  /** It moves alone, but for a creator that it wakes. */
  ghost predicate MovesAlone(s: Sys, r: Sys, x: nat)
    requires Shaped(s)
  {
    && Shaped(r) && |r.pc| == |s.pc| && r.baton == s.baton && x < |s.pc| && x != s.baton
    && r.pc[x] == Next(s.pc[x], s.mode[x])
    && r.mode[x] == (if s.pc[x] == Blocking || s.pc[x].CallBlock? then BLOCKED else s.mode[x])
    && (forall u: nat :: u < |s.pc| && u != x ==> r.mode[u] == s.mode[u])
    && (forall u: nat :: u < |s.pc| && u != x && u != s.baton ==> r.pc[u] == s.pc[u])
    && (r.pc[s.baton] == s.pc[s.baton] || (s.pc[s.baton].CreatorWait? && r.pc[s.baton] == Awake(s.pc[s.baton])))
  }

  lemma OtherStep(s: Sys, x: nat, pick: nat)
    requires Inv(s) && CanGo(s, x, pick) && x != s.baton
    ensures MovesAlone(s, AfterGo(s, x, pick), x)
  {
    assert OtherOk(s, x);
    if s.pc[x] == Blocking {
      BlockingStep(s, x, pick);
      hide Inv, CanGo, AfterGo;
    } else {
      hide Inv;
    }
  }

  /** A wait that ends without a reason. */
  lemma SpuriousStep(s: Sys, x: nat)
    requires Inv(s) && Enabled(s, Spurious(x))
    ensures var r := After(s, Spurious(x));
      && Shaped(r) && x < |s.pc| && r == s.(pc := s.pc[x := Awake(s.pc[x])])
      && (s.pc[x].Waiting? || (x == s.baton && s.pc[x].CreatorWait?))
  {
    var m: nat :| Sleeps(s, x, m);
    Sleepers(s, m, x);
    assert x != s.baton ==> OtherOk(s, x);
  }

  // a yield, a call and the end of some work arrive

  predicate About(pc: Pc, to: nat) {
    match pc
    case LockSelf(k) => k == to
    case LockTarget(k) => k == to
    case InRelease(k) => k == to
    case CallLock(k) => k == to
    case CallRelease(k) => k == to
    case ExitLock(k) => k == to
    case ExitRelease(k) => k == to
    case _ => false
  }

  predicate Retires(pc: Pc, to: nat) {
    match pc
    case Blocking | Waiting(_) | Woken | CallWait | Leaving => true
    case CallLockSelf(k) => k == to
    case CallBlock(k) => k == to
    case _ => false
  }

  /** The thread `t` is about to hand over to `to`, or has done so and `to` is about to run. */
  predicate Passing(s: Sys, t: nat, to: nat)
    requires Shaped(s)
  {
    t < |s.pc| && to < |s.pc| && t != to &&
    if s.baton == t then About(s.pc[t], to)
    else
      && s.baton == to && (s.pc[to].Waiting? || s.pc[to] == Woken || s.pc[to] == Run)
      && Retires(s.pc[t], to) && s.mode[t] != FINAL
  }

  lemma PassingHolder(s: Sys, pick: nat, t: nat, to: nat)
    requires Inv(s) && Shaped(s) && CanGo(s, s.baton, pick) && Passing(s, t, to)
    ensures Passing(AfterGo(s, s.baton, pick), t, to)
  {
    if Releases(s.pc[s.baton]) {
      PassingRelease(s, pick, t, to);
    } else {
      assert HolderOk(s);
      hide Inv;
    }
  }

  lemma PassingRelease(s: Sys, pick: nat, t: nat, to: nat)
    requires Inv(s) && CanGo(s, s.baton, pick) && Passing(s, t, to) && Releases(s.pc[s.baton])
    ensures Passing(AfterGo(s, s.baton, pick), t, to)
  {
    hide Inv;
    assert HolderMode(s) by { HolderHasMode(s); }
    if s.pc[t].CallRelease? {
      ReleaseStep(s, t, pick, CallLockSelf(to));
    } else {
      InReleaseStep(s, t, pick);
      hide CanGo, AfterGo;
    }
  }

  predicate HolderMode(s: Sys) {
    Shaped(s) && s.mode[s.baton] != FINAL
  }

  lemma HolderHasMode(s: Sys)
    requires Inv(s)
    ensures HolderMode(s)
  {
  }

  lemma PassingOther(s: Sys, r: Sys, x: nat, t: nat, to: nat)
    requires Shaped(s) && Passing(s, t, to) && MovesAlone(s, r, x)
    requires t != s.baton && s.pc[t] == Woken ==> s.mode[t] == BLOCKED
    ensures Passing(r, t, to)
  {
  }

  lemma PassingStep(s: Sys, step: Step, t: nat, to: nat)
    requires Inv(s) && Enabled(s, step) && !step.Ask? && Passing(s, t, to)
    ensures Passing(After(s, step), t, to)
  {
    match step
    case Go(x, pick) =>
      if x == s.baton {
        PassingHolder(s, pick, t, to);
      } else {
        OtherStep(s, x, pick);
        assert t != s.baton ==> OtherOk(s, t);
        hide Inv, CanGo, AfterGo, OtherOk, MovesAlone;
        PassingOther(s, AfterGo(s, x, pick), x, t, to);
      }
    case Spurious(x) => SpuriousStep(s, x);
  }

  lemma {:induction false} PassingRun(s: Sys, steps: seq<Step>, r: Sys, t: nat, to: nat)
    requires Inv(s) && Runs(s, steps, r) && NoAsk(steps) && Passing(s, t, to)
    ensures Inv(r) && Passing(r, t, to)
    decreases |steps|
  {
    hide Owners, OwnersExist, HolderOk, Others, Enabled, After, Passing;
    if steps != [] {
      StepKeeps(s, steps[0]);
      PassingStep(s, steps[0], t, to);
      PassingRun(After(s, steps[0]), steps[1..], r, t, to);
    }
  }

  /** Once nothing is left to do, control has arrived. */
  lemma PassingArrives(s: Sys, t: nat, to: nat)
    requires Inv(s) && Quiet(s) && Passing(s, t, to)
    ensures s.pc[to] == Run && s.baton == to && s.pc[t] == Waiting(false) && s.mode[t] == BLOCKED
  {
    QuietInv(s);
    hide Inv, Quiet;
    assert t != s.baton ==> Asleep(s, t);
  }

  /** The state right after a request, in a run from the start. */
  lemma Asked(before: seq<Step>, s: Sys, t: nat, request: Request)
    requires Runs(START, before, s) && Shaped(s) && Asks(s, t, request)
    ensures Inv(s) && t == s.baton && Inv(AfterAsk(s, t, request))
  {
    StartInv();
    RunKeeps(START, before, s);
    OnlyHolderAsks(s, t);
    AskKeeps(s, t, request);
  }

  /** However the steps that follow a yield interleave, once nothing is left to do the target runs
      user code and the thread that yielded sleeps, blocked. */
  lemma YieldArrives(before: seq<Step>, s: Sys, t: nat, to: nat, steps: seq<Step>, r: Sys)
    requires Runs(START, before, s) && Shaped(s) && Asks(s, t, YieldTo(to))
    requires Runs(AfterAsk(s, t, YieldTo(to)), steps, r) && NoAsk(steps) && Shaped(r) && Quiet(r)
    ensures to < |r.pc| && r.pc[to] == Run && r.baton == to
    ensures t < |r.pc| && r.pc[t] == Waiting(false) && r.mode[t] == BLOCKED
  {
    Asked(before, s, t, YieldTo(to));
    hide Inv, Runs, Quiet;
    PassingRun(AfterAsk(s, t, YieldTo(to)), steps, r, t, to);
    PassingArrives(r, t, to);
  }

  /** So does a call. */
  lemma CallArrives(before: seq<Step>, s: Sys, t: nat, to: nat, steps: seq<Step>, r: Sys)
    requires Runs(START, before, s) && Shaped(s) && Asks(s, t, CallTo(to))
    requires Runs(AfterAsk(s, t, CallTo(to)), steps, r) && NoAsk(steps) && Shaped(r) && Quiet(r)
    ensures to < |r.pc| && r.pc[to] == Run && r.baton == to
    ensures t < |r.pc| && r.pc[t] == Waiting(false) && r.mode[t] == BLOCKED
  {
    Asked(before, s, t, CallTo(to));
    hide Inv, Runs, Quiet;
    PassingRun(AfterAsk(s, t, CallTo(to)), steps, r, t, to);
    PassingArrives(r, t, to);
  }

  /** And so does the end of some work: its thread sleeps, blocked, until it is released again. */
  lemma ExitArrives(before: seq<Step>, s: Sys, t: nat, to: nat, steps: seq<Step>, r: Sys)
    requires Runs(START, before, s) && Shaped(s) && Asks(s, t, Exit(to))
    requires Runs(AfterAsk(s, t, Exit(to)), steps, r) && NoAsk(steps) && Shaped(r) && Quiet(r)
    ensures to < |r.pc| && r.pc[to] == Run && r.baton == to
    ensures t < |r.pc| && r.pc[t] == Waiting(false) && r.mode[t] == BLOCKED
  {
    Asked(before, s, t, Exit(to));
    hide Inv, Runs, Quiet;
    PassingRun(AfterAsk(s, t, Exit(to)), steps, r, t, to);
    PassingArrives(r, t, to);
  }

  // a finish ends its context

  /** No context but `k` is finished that was not finished in `s`. */
  ghost predicate FinishedBut(s: Sys, r: Sys, k: nat)
    requires Shaped(s)
  {
    && Shaped(r) && |r.pc| == |s.pc|
    && forall u: nat :: u < |s.pc| && u != k ==> (r.mode[u] == FINAL <==> s.mode[u] == FINAL)
  }

  /** The thread `t` finishes context `k`, or has done so. */
  predicate Finishing(s: Sys, t: nat, k: nat)
    requires Shaped(s)
  {
    && t < |s.pc| && k < |s.pc| && t != k && s.baton == t
    && match s.pc[t]
       case FinishLock(x) => x == k
       case FinishSet(x) => x == k
       case FinishNotify(x) => x == k && s.mode[k] == FINAL
       case FinishJoin(x) => x == k && s.mode[k] == FINAL
       case Run => s.mode[k] == FINAL && s.pc[k] == Done
       case _ => false
  }

  lemma FinishingHolder(s: Sys, pick: nat, t: nat, k: nat)
    requires Inv(s) && CanGo(s, s.baton, pick) && Finishing(s, t, k)
    ensures var r := AfterGo(s, s.baton, pick); Shaped(r) && Finishing(r, t, k) && FinishedBut(s, r, k)
  {
    if s.pc[t].FinishNotify? {
      FinishNotifyStep(s, t, pick);
      hide Inv, CanGo, AfterGo;
    } else {
      hide Owners, OwnersExist, HolderOk, Others;
    }
  }

  lemma FinishingOther(s: Sys, r: Sys, x: nat, t: nat, k: nat)
    requires Inv(s) && Finishing(s, t, k) && MovesAlone(s, r, x) && s.pc[x] != Done
    ensures Finishing(r, t, k) && FinishedBut(s, r, k)
  {
    assert OtherOk(s, x);
    hide Owners, OwnersExist, HolderOk, Others;
  }

  lemma FinishingStep(s: Sys, step: Step, t: nat, k: nat)
    requires Inv(s) && Enabled(s, step) && !step.Ask? && Finishing(s, t, k)
    ensures Finishing(After(s, step), t, k) && FinishedBut(s, After(s, step), k)
  {
    match step
    case Go(x, pick) =>
      if x == s.baton {
        FinishingHolder(s, pick, t, k);
      } else {
        OtherStep(s, x, pick);
        hide Inv, AfterGo, MovesAlone;
        FinishingOther(s, AfterGo(s, x, pick), x, t, k);
      }
    case Spurious(x) => SpuriousStep(s, x);
  }

  lemma {:induction false} FinishingRun(s: Sys, steps: seq<Step>, r: Sys, t: nat, k: nat)
    requires Inv(s) && Runs(s, steps, r) && NoAsk(steps) && Finishing(s, t, k)
    ensures Inv(r) && Finishing(r, t, k) && FinishedBut(s, r, k)
    decreases |steps|
  {
    hide Owners, OwnersExist, HolderOk, Others, Enabled, After, Finishing;
    if steps != [] {
      StepKeeps(s, steps[0]);
      FinishingStep(s, steps[0], t, k);
      FinishingRun(After(s, steps[0]), steps[1..], r, t, k);
    }
  }

  /** A finish waits for the end of the thread of its context, and ends no other.  Once nothing is
      left to do it has come, and the thread that asked runs on. */
  lemma FinishEnds(before: seq<Step>, s: Sys, t: nat, k: nat, steps: seq<Step>, r: Sys)
    requires Runs(START, before, s) && Shaped(s) && Asks(s, t, Finish(k))
    requires Runs(AfterAsk(s, t, Finish(k)), steps, r) && NoAsk(steps) && Shaped(r)
    ensures FinishedBut(s, r, k) && k < |r.pc| && t < |r.pc| && r.baton == t
    ensures r.pc[t] == Run ==> r.pc[k] == Done && r.mode[k] == FINAL
    ensures Quiet(r) ==> r.pc[t] == Run
  {
    Asked(before, s, t, Finish(k));
    hide Inv, Runs, Quiet;
    FinishingRun(AfterAsk(s, t, Finish(k)), steps, r, t, k);
    QuietInv(r);
  }

  // a context that is created waits for its first release

  /** The thread `t` creates context `n`, or has done so. */
  predicate Creating(s: Sys, t: nat, n: nat)
    requires Shaped(s)
  {
    && t < |s.pc| && n < |s.pc| && t != n && s.baton == t && s.mode[n] != FINAL
    && match s.pc[t]
       case CreatorLock(x) => x == n
       case CreatorTest(x) => x == n
       case CreatorWait(x, _) => x == n
       case Run => s.mode[n] == BLOCKED
       case _ => false
  }

  lemma CreatingHolder(s: Sys, pick: nat, t: nat, n: nat)
    requires Shaped(s) && CanGo(s, s.baton, pick) && Creating(s, t, n)
    ensures var r := AfterGo(s, s.baton, pick); Shaped(r) && Creating(r, t, n) && FinishedBut(s, r, n)
  {
  }

  lemma CreatingOther(s: Sys, r: Sys, x: nat, t: nat, n: nat)
    requires Inv(s) && Creating(s, t, n) && MovesAlone(s, r, x)
    ensures Creating(r, t, n) && FinishedBut(s, r, n)
  {
    assert OtherOk(s, x);
    hide Owners, OwnersExist, HolderOk, Others;
  }

  lemma CreatingStep(s: Sys, step: Step, t: nat, n: nat)
    requires Inv(s) && Enabled(s, step) && !step.Ask? && Creating(s, t, n)
    ensures Creating(After(s, step), t, n) && FinishedBut(s, After(s, step), n)
  {
    match step
    case Go(x, pick) =>
      if x == s.baton {
        CreatingHolder(s, pick, t, n);
      } else {
        OtherStep(s, x, pick);
        hide Inv, AfterGo, MovesAlone;
        CreatingOther(s, AfterGo(s, x, pick), x, t, n);
      }
    case Spurious(x) => SpuriousStep(s, x);
  }

  lemma {:induction false} CreatingRun(s: Sys, steps: seq<Step>, r: Sys, t: nat, n: nat)
    requires Inv(s) && Runs(s, steps, r) && NoAsk(steps) && Creating(s, t, n)
    ensures Inv(r) && Creating(r, t, n) && FinishedBut(s, r, n)
    decreases |steps|
  {
    hide Owners, OwnersExist, HolderOk, Others, Enabled, After, Creating;
    if steps != [] {
      StepKeeps(s, steps[0]);
      CreatingStep(s, steps[0], t, n);
      CreatingRun(After(s, steps[0]), steps[1..], r, t, n);
    }
  }

  /** The constructor returns only when the new thread has blocked.  Once nothing is left to do it has
      returned, and the new thread sleeps. */
  lemma CreateArrives(before: seq<Step>, s: Sys, t: nat, steps: seq<Step>, r: Sys)
    requires Runs(START, before, s) && Shaped(s) && Asks(s, t, Create)
    requires Runs(AfterAsk(s, t, Create), steps, r) && NoAsk(steps) && Shaped(r)
    ensures |r.pc| == |s.pc| + 1 && t < |s.pc| && r.baton == t
    ensures r.pc[t] == Run ==> r.mode[|s.pc|] == BLOCKED
    ensures Quiet(r) ==> r.pc[t] == Run && r.pc[|s.pc|] == Waiting(false)
  {
    Asked(before, s, t, Create);
    CreateAsked(s, t);
    hide Inv, Runs, Quiet, Creating, AfterAsk, Asks;
    CreatingRun(AfterAsk(s, t, Create), steps, r, t, |s.pc|);
    CreatedQuiet(r, t, |s.pc|);
  }

  lemma CreateAsked(s: Sys, t: nat)
    requires Inv(s) && t == s.baton && s.pc[t] == Run
    ensures var r := AfterAsk(s, t, Create); Shaped(r) && |r.pc| == |s.pc| + 1 && Creating(r, t, |s.pc|)
  {
  }

  lemma CreatedQuiet(s: Sys, t: nat, n: nat)
    requires Inv(s) && Creating(s, t, n)
    ensures t < |s.pc| && n < |s.pc| && s.baton == t && (s.pc[t] == Run ==> s.mode[n] == BLOCKED)
    ensures Quiet(s) ==> s.pc[t] == Run && s.pc[n] == Waiting(false)
  {
    QuietInv(s);
    assert OtherOk(s, n);
    hide Inv, Quiet;
    assert Quiet(s) ==> Asleep(s, n);
  }
}
