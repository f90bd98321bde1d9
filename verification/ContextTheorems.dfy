/** Mutual exclusion, no exceptions, no deadlock and no lost wake-up among the contexts. */
module ContextTheorems {
  import opened ContextModel
  import opened ContextProofs
  import opened Wrappers

  lemma StartInv()
    ensures Inv(START)
  {
  }

  lemma {:induction false} RunKeeps(s: Sys, steps: seq<Step>, r: Sys)
    requires Inv(s) && Runs(s, steps, r)
    ensures Inv(r)
    decreases |steps|
  {
    hide Owners, OwnersExist, HolderOk, Others, Enabled, After;
    if steps != [] {
      StepKeeps(s, steps[0]);
      RunKeeps(After(s, steps[0]), steps[1..], r);
    }
  }

  /** At most one thread runs user code, and it is the one with the baton. */
  lemma OneRuns(steps: seq<Step>, s: Sys, t: nat)
    requires Runs(START, steps, s) && t < |s.pc| && s.pc[t] == Run
    ensures t == s.baton
  {
    StartInv();
    RunKeeps(START, steps, s);
    assert t != s.baton ==> OtherOk(s, t);
  }

  /** `do_release` never throws: a context about to be released is blocked, and its thread waits. */
  lemma ReleaseFindsBlocked(steps: seq<Step>, s: Sys, t: nat)
    requires Runs(START, steps, s) && t < |s.pc|
    ensures Shaped(s) && s.pc[t] != Thrown
    ensures s.pc[t].InRelease? || s.pc[t].CallRelease? || s.pc[t].ExitRelease? ==>
              s.pc[t].to < |s.pc| && s.mode[s.pc[t].to] == BLOCKED && s.pc[s.pc[t].to].Waiting?
  {
    StartInv();
    RunKeeps(START, steps, s);
    assert t != s.baton ==> OtherOk(s, t);
    hide Owners, OwnersExist, HolderOk, Others;
    if Releases(s.pc[t]) {
      TargetWaits(s, t);
    }
  }

  /** `finish` finds the thread of its context waiting in `do_block`, as a context that just yielded
      holds its own mutex until then, or on the way out of its work. */
  lemma FinishFindsBlocked(steps: seq<Step>, s: Sys, t: nat)
    requires Runs(START, steps, s) && t < |s.pc| && s.pc[t].FinishSet?
    ensures Shaped(s) && s.pc[t].of < |s.pc|
    ensures var k := s.pc[t].of;
      (s.mode[k] == BLOCKED && s.pc[k].Waiting?) || (s.mode[k] == RELEASED && s.pc[k] == Leaving)
  {
    StartInv();
    RunKeeps(START, steps, s);
    assert t != s.baton ==> OtherOk(s, t);
    assert Holds(s.pc[t], t, s.pc[t].of);
    HeldAtRest(s, s.pc[t].of);
  }

  // no deadlock

  /** No thread has anything to do but what user code may ask for. */
  ghost predicate Quiet(s: Sys)
    requires Shaped(s)
  {
    forall t: nat, pick: nat :: !CanGo(s, t, pick)
  }

  /** The thread sleeps, blocked, or has ended. */
  predicate Asleep(s: Sys, t: nat)
    requires Shaped(s) && t < |s.pc|
  {
    s.pc[t] == Done || (s.pc[t] == Waiting(false) && s.mode[t] == BLOCKED)
  }

  lemma PickExists(s: Sys, m: nat) returns (pick: nat)
    ensures Picked(s, m, pick)
  {
    if exists t: nat :: Sleeps(s, t, m) {
      pick :| Sleeps(s, pick, m);
    } else {
      pick := 0;
    }
  }

  /** A mutex held by a thread without the baton is given up soon. */
  lemma OtherOwnerGoes(s: Sys, m: nat) returns (t: nat, pick: nat)
    requires Inv(s) && m < |s.pc| && s.owner[m].Some? && s.owner[m].value != s.baton
    ensures CanGo(s, t, pick)
  {
    t := s.owner[m].value;
    assert OtherOk(s, t) && Holds(s.pc[t], t, m);
    pick := PickExists(s, t);
    if s.pc[t].CallLockSelf? {
      CallerMutexFree(s, t);
    }
  }

  lemma CallerMutexFree(s: Sys, t: nat)
    requires Inv(s) && t < |s.pc| && t != s.baton && s.pc[t].CallLockSelf?
    ensures t == 0 && Free(s, t)
  {
    var o := s.owner[0];
    assert OtherOk(s, t);
    assert o.Some? && o.value != s.baton ==> OtherOk(s, o.value);
    assert o.Some? ==> Holds(s.pc[o.value], o.value, 0);
  }

  lemma OwnerGoes(s: Sys, m: nat) returns (t: nat, pick: nat)
    requires Inv(s) && m < |s.pc| && s.owner[m].Some?
    ensures CanGo(s, t, pick)
  {
    t, pick := s.baton, 0;
    if s.owner[m].value != s.baton {
      t, pick := OtherOwnerGoes(s, m);
    } else {
      assert Holds(s.pc[t], t, m);
      match s.pc[t]
      case LockTarget(to) =>
        if s.owner[to].Some? {
          assert !Holds(s.pc[t], t, to);
          t, pick := OtherOwnerGoes(s, to);
        }
      case InRelease(to) => pick := PickExists(s, to);
      case CallRelease(to) => pick := PickExists(s, to);
      case ExitRelease(to) => pick := PickExists(s, to);
      case _ =>
    }
  }

  /** The mutex that a thread is about to lock. */
  function Wants(pc: Pc, t: nat): Option<nat> {
    match pc
    case LockSelf(_) | Starting | Leaving | CallLockSelf(_) => Some(t)
    case Waiting(woken) => if woken then Some(t) else None
    case LockTarget(to) => Some(to)
    case CallLock(to) => Some(to)
    case ExitLock(to) => Some(to)
    case CreatorLock(k) => Some(k)
    case CreatorWait(k, woken) => if woken then Some(k) else None
    case FinishLock(k) => Some(k)
    case _ => None
  }

  /** A thread can go on as soon as it gets its mutex, which is free, or its owner can go on. */
  lemma MutexGoes(s: Sys, t: nat, m: nat) returns (x: nat, pick: nat)
    requires Inv(s) && m < |s.pc| && t < |s.pc| && Wants(s.pc[t], t) == Some(m)
    ensures CanGo(s, x, pick)
  {
    if s.owner[m] == None {
      x, pick := t, 0;
    } else {
      x, pick := OwnerGoes(s, m);
    }
  }

  lemma WantedExists(s: Sys, t: nat)
    requires Inv(s) && t < |s.pc| && Wants(s.pc[t], t).Some?
    ensures Wants(s.pc[t], t).value < |s.pc|
  {
    assert t != s.baton ==> OtherOk(s, t);
  }

  /** A thread without the baton sleeps, has ended, or there is something to do. */
  lemma OtherGoes(s: Sys, t: nat) returns (x: nat, pick: nat)
    requires Inv(s) && t < |s.pc| && t != s.baton
    requires !Asleep(s, t)
    ensures CanGo(s, x, pick)
  {
    assert OtherOk(s, t);
    if Wants(s.pc[t], t).Some? {
      WantedExists(s, t);
      x, pick := MutexGoes(s, t, Wants(s.pc[t], t).value);
    } else {
      x := if s.pc[t] == Waiting(false) then s.baton else t;
      pick := PickExists(s, t);
    }
  }

  /** The thread with the baton runs user code, or there is something to do. */
  lemma HolderGoes(s: Sys) returns (t: nat, pick: nat)
    requires Inv(s) && s.pc[s.baton] != Run
    ensures CanGo(s, t, pick)
  {
    t, pick := s.baton, 0;
    if Wants(s.pc[t], t).Some? {
      WantedExists(s, t);
      t, pick := MutexGoes(s, t, Wants(s.pc[t], t).value);
    } else {
      hide Owners, OwnersExist, Others;
      match s.pc[t]
      case InRelease(to) => pick := PickExists(s, to);
      case CallRelease(to) => pick := PickExists(s, to);
      case ExitRelease(to) => pick := PickExists(s, to);
      case FinishNotify(k) => pick := PickExists(s, k);
      case CreatorWait(k, _) => t, pick := OtherGoes(s, k);
      case FinishJoin(k) =>
        if s.pc[k] != Done {
          t, pick := OtherGoes(s, k);
        }
      case _ =>
    }
  }

  lemma QuietInv(s: Sys)
    requires Inv(s)
    ensures Quiet(s) <==>
              && s.pc[s.baton] == Run
              && forall t: nat :: t < |s.pc| && t != s.baton ==> Asleep(s, t)
  {
    if Quiet(s) {
      if s.pc[s.baton] != Run {
        var t, pick := HolderGoes(s);
      }
      forall t: nat | t < |s.pc| && t != s.baton
        ensures Asleep(s, t)
      {
        if !Asleep(s, t) {
          var x, pick := OtherGoes(s, t);
        }
      }
    } else {
      var t: nat, pick: nat :| CanGo(s, t, pick);
      assert t != s.baton ==> !Asleep(s, t);
    }
  }

  /** There is no deadlock and no lost wake-up: nothing is left to do exactly when the thread with
      the baton runs user code and every other thread sleeps, blocked, or has ended. */
  lemma QuietExactly(steps: seq<Step>, s: Sys)
    requires Runs(START, steps, s)
    ensures Shaped(s)
    ensures Quiet(s) <==>
              && s.pc[s.baton] == Run
              && forall t: nat :: t < |s.pc| && t != s.baton ==> Asleep(s, t)
  {
    StartInv();
    RunKeeps(START, steps, s);
    QuietInv(s);
  }

  // no lost wake-up

  /** An upper bound on what a thread can still do, and make others do, on its own. */
  function Rank(pc: Pc): nat {
    match pc
    case LockSelf(_) => 8
    case LockTarget(_) => 7
    case InRelease(_) => 6
    case Blocking => 3
    case Waiting(woken) => if woken then 2 else 0
    case Woken => 1
    case Starting => 4
    case CreatorLock(_) => 2
    case CreatorTest(_) => 1
    case CreatorWait(_, woken) => if woken then 2 else 0
    case CallLock(_) => 7
    case CallRelease(_) => 6
    case CallLockSelf(_) => 3
    case CallBlock(_) => 2
    case CallWait => 1
    case ExitLock(_) => 8
    case ExitRelease(_) => 7
    case Leaving => 4
    case FinishLock(_) => 6
    case FinishSet(_) => 5
    case FinishNotify(_) => 4
    case FinishJoin(_) => 1
    case Run | Done | Thrown => 0
  }

  function Ranks(pcs: seq<Pc>): nat {
    if pcs == [] then 0 else Rank(pcs[0]) + Ranks(pcs[1..])
  }

  lemma {:induction false} RanksUpdate(pcs: seq<Pc>, t: nat, pc: Pc)
    requires t < |pcs|
    ensures Ranks(pcs[t := pc]) + Rank(pcs[t]) == Ranks(pcs) + Rank(pc)
  {
    if t == 0 {
      assert pcs[0 := pc][1..] == pcs[1..];
    } else {
      assert pcs[t := pc][1..] == pcs[1..][t - 1 := pc];
      RanksUpdate(pcs[1..], t - 1, pc);
    }
  }

  /** A notification adds two at most. */
  lemma NotifyRanks(s: Sys, m: nat, pick: nat)
    requires Shaped(s)
    ensures Ranks(Notify(s, m, pick).pc) <= Ranks(s.pc) + 2
    ensures |Notify(s, m, pick).pc| == |s.pc|
    ensures forall t: nat :: t < |s.pc| && !Sleeps(s, t, m) ==> Notify(s, m, pick).pc[t] == s.pc[t]
  {
    if Sleeps(s, pick, m) {
      RanksUpdate(s.pc, pick, Awake(s.pc[pick]));
    }
  }

  lemma ReleaseRanks(s: Sys, t: nat, to: nat, pick: nat, pc: Pc)
    requires Shaped(s) && t < |s.pc| && to < |s.pc| && !Sleeps(s, t, to) && Rank(pc) + 2 < Rank(s.pc[t])
    ensures var r := Release(s, t, to, pick, pc); Ranks(r.pc) < Ranks(s.pc)
    ensures var r := Release(s, t, to, pick, pc); Ranks(r.pc[t := r.pc[t]]) == Ranks(r.pc)
  {
    var r, u := Release(s, t, to, pick, pc), SetMode(s, to, RELEASED);
    assert r.pc[t := r.pc[t]] == r.pc;
    NotifyRanks(u, to, pick);
    RanksUpdate(s.pc, t, Thrown);
    RanksUpdate(Notify(u, to, pick).pc, t, pc);
  }

  lemma NotifyingRanks(s: Sys, t: nat, pick: nat)
    requires Shaped(s) && CanGo(s, t, pick)
    requires s.pc[t].Blocking? || s.pc[t].FinishNotify?
    ensures Ranks(AfterGo(s, t, pick).pc) < Ranks(s.pc)
  {
    if s.pc[t] == Blocking {
      NotifyRanks(SetMode(s, t, BLOCKED), t, pick);
      RanksUpdate(Notify(SetMode(s, t, BLOCKED), t, pick).pc, t, Waiting(false));
    } else {
      var k := s.pc[t].of;
      NotifyRanks(s, k, pick);
      RanksUpdate(Notify(s, k, pick).pc, t, FinishJoin(k));
    }
  }

  /** All the steps that wake nobody. */
  lemma SilentRanks(s: Sys, t: nat, pick: nat)
    requires Shaped(s) && CanGo(s, t, pick) && s.pc[t] != Blocking && !s.pc[t].FinishNotify?
    requires !s.pc[t].InRelease? && !s.pc[t].CallRelease? && !s.pc[t].ExitRelease?
    ensures Ranks(AfterGo(s, t, pick).pc) < Ranks(s.pc)
  {
    var r := AfterGo(s, t, pick);
    assert r.pc == s.pc[t := r.pc[t]] && Rank(r.pc[t]) < Rank(s.pc[t]);
    hide AfterGo, CanGo, Rank;
    RanksUpdate(s.pc, t, r.pc[t]);
  }

  /** Every step that a thread makes on its own brings the end nearer. */
  lemma GoRanks(s: Sys, t: nat, pick: nat)
    requires Shaped(s) && CanGo(s, t, pick)
    ensures Ranks(AfterGo(s, t, pick).pc) < Ranks(s.pc)
  {
    match s.pc[t]
    case InRelease(to) => ReleaseRanks(s, t, to, pick, Blocking);
    case ExitRelease(to) => ReleaseRanks(s, t, to, pick, Leaving);
    case CallRelease(to) => ReleaseRanks(s, t, to, pick, CallLockSelf(to));
    case Blocking => NotifyingRanks(s, t, pick);
    case FinishNotify(_) => NotifyingRanks(s, t, pick);
    case _ => SilentRanks(s, t, pick);
  }

  function Gos(steps: seq<Step>): nat {
    if steps == [] then 0 else (if steps[0].Go? then 1 else 0) + Gos(steps[1..])
  }

  function Spurs(steps: seq<Step>): nat {
    if steps == [] then 0 else (if steps[0].Spurious? then 1 else 0) + Spurs(steps[1..])
  }

  /** User code asks for nothing in this run. */
  predicate NoAsk(steps: seq<Step>) {
    forall i :: 0 <= i < |steps| ==> !steps[i].Ask?
  }

  /** Between requests there are finitely many steps: each takes one off the rank, and a wait that
      ends without a reason adds two. */
  lemma {:induction false} RunRanks(s: Sys, steps: seq<Step>, r: Sys)
    requires Shaped(s) && Runs(s, steps, r) && NoAsk(steps)
    ensures Ranks(r.pc) + Gos(steps) <= Ranks(s.pc) + 2 * Spurs(steps)
    decreases |steps|
  {
    if steps != [] {
      var step := steps[0];
      StepRanks(s, step);
      hide Enabled, After;
      RunRanks(After(s, step), steps[1..], r);
    }
  }

  lemma StepRanks(s: Sys, step: Step)
    requires Shaped(s) && Enabled(s, step) && !step.Ask?
    ensures Ranks(After(s, step).pc) + (if step.Go? then 1 else 0) <= Ranks(s.pc) + (if step.Go? then 0 else 2)
  {
    hide AfterGo, CanGo;
    match step
    case Go(t, pick) => GoRanks(s, t, pick);
    case Spurious(t) => RanksUpdate(s.pc, t, Awake(s.pc[t]));
  }

  lemma OnlyHolderAsks(s: Sys, t: nat)
    requires Inv(s) && t < |s.pc| && s.pc[t] == Run
    ensures t == s.baton
  {
    assert t != s.baton ==> OtherOk(s, t);
  }
}
