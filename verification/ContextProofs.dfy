/** What every interleaving of the contexts keeps. */
module ContextProofs {
  import opened ContextModel
  import opened Wrappers

  /** The mutexes that a thread holds at a step. */
  predicate Holds(pc: Pc, t: nat, m: nat) {
    match pc
    case LockTarget(_) | Blocking | Woken | CallWait => m == t
    case InRelease(to) => m == t || m == to
    case CreatorTest(k) => m == k
    case CallRelease(to) => m == to
    case CallLockSelf(to) => m == to
    case CallBlock(to) => m == to || m == t
    case ExitRelease(to) => m == to
    case FinishSet(k) => m == k
    case _ => false
  }

  ghost predicate Owners(s: Sys)
    requires Shaped(s)
  {
    forall m: nat, t: nat :: m < |s.pc| && t < |s.pc| ==> (s.owner[m] == Some(t) <==> Holds(s.pc[t], t, m))
  }

  ghost predicate OwnersExist(s: Sys)
    requires Shaped(s)
  {
    forall m: nat :: m < |s.pc| && s.owner[m].Some? ==> s.owner[m].value < |s.pc|
  }

  /** A context that may be finished. */
  predicate Alive(s: Sys, k: nat)
    requires Shaped(s)
  {
    k < |s.pc| && k != s.baton && s.mode[k] != FINAL
  }

  /** The thread with the baton. */
  predicate HolderOk(s: Sys)
    requires Shaped(s)
  {
    var b := s.baton;
    && (s.mode[b] == RELEASED || (b == 0 && s.mode[b] == INITIAL))
    && match s.pc[b]
       case Run => true
       case LockSelf(to) => Ready(s, b, to)
       case LockTarget(to) => Ready(s, b, to)
       case InRelease(to) => Ready(s, b, to)
       case Waiting(woken) => woken && s.mode[b] == RELEASED
       case Woken => s.mode[b] == RELEASED
       case CreatorLock(k) => Ready(s, b, k) && k != 0
       case CreatorTest(k) => Ready(s, b, k) && k != 0
       case CreatorWait(k, woken) => Ready(s, b, k) && k != 0 && (woken || s.pc[k] == Starting || s.pc[k] == Blocking)
       case CallLock(to) => Ready(s, b, to) && b == 0
       case CallRelease(to) => Ready(s, b, to) && b == 0
       case ExitLock(to) => Ready(s, b, to) && b != 0
       case ExitRelease(to) => Ready(s, b, to) && b != 0
       case FinishLock(k) => Alive(s, k) && k != 0
       case FinishSet(k) => Alive(s, k) && k != 0
       case FinishNotify(k) => k < |s.pc| && k != b && s.mode[k] == FINAL && k != 0
       case FinishJoin(k) => k < |s.pc| && k != b && s.mode[k] == FINAL && k != 0
       case _ => false
  }

  /** The thread with the baton is creating context `k`. */
  predicate Creates(s: Sys, k: nat)
    requires Shaped(s)
  {
    match s.pc[s.baton]
    case CreatorLock(x) => x == k
    case CreatorTest(x) => x == k
    case CreatorWait(x, _) => x == k
    case _ => false
  }

  /** Every other thread. */
  predicate OtherOk(s: Sys, t: nat)
    requires Shaped(s) && t < |s.pc|
  {
    match s.pc[t]
    case Blocking => s.mode[t] == RELEASED || (s.mode[t] == INITIAL && (t == 0 || Creates(s, t)))
    case Waiting(woken) =>
      s.mode[t] == BLOCKED ||
      (s.mode[t] == FINAL && (s.pc[s.baton] == FinishNotify(t) || (s.pc[s.baton] == FinishJoin(t) && woken)))
    case Woken =>
      s.mode[t] == BLOCKED ||
      (s.mode[t] == FINAL && (s.pc[s.baton] == FinishNotify(t) || s.pc[s.baton] == FinishJoin(t)))
    case Done => s.mode[t] == FINAL
    case Starting => s.mode[t] == INITIAL && Creates(s, t)
    case CallWait => t == 0 && s.mode[t] == BLOCKED
    case Leaving =>
      s.mode[t] == RELEASED ||
      (s.mode[t] == FINAL && (s.pc[s.baton] == FinishNotify(t) || s.pc[s.baton] == FinishJoin(t)))
    case CallLockSelf(to) => t == 0 && to == s.baton && s.pc[to] == Waiting(true) && s.mode[t] != FINAL
    case CallBlock(to) => t == 0 && to == s.baton && s.pc[to] == Waiting(true) && s.mode[t] != FINAL
    case _ => false
  }

  ghost predicate Others(s: Sys)
    requires Shaped(s)
  {
    forall t: nat :: t < |s.pc| && t != s.baton ==> OtherOk(s, t)
  }

  ghost predicate Inv(s: Sys) {
    Shaped(s) && Owners(s) && OwnersExist(s) && HolderOk(s) && Others(s)
  }

  /** A context whose mutex is held by the thread with the baton is at rest, or its thread is on the
      way out of its work. */
  lemma HeldAtRest(s: Sys, k: nat)
    requires Inv(s) && k < |s.pc| && k != s.baton && s.owner[k] == Some(s.baton) && s.mode[k] != FINAL
    ensures
      || (s.pc[k].Waiting? && s.mode[k] == BLOCKED)
      || (s.pc[k] == Starting && s.mode[k] == INITIAL && Creates(s, k))
      || (s.pc[k] == Leaving && s.mode[k] == RELEASED)
  {
    assert OtherOk(s, k);
    assert Holds(s.pc[s.baton], s.baton, k);
    assert !Holds(s.pc[k], k, k);
  }

  /** Only a thread itself and its creator ever wait on the condition of its context. */
  lemma Sleepers(s: Sys, m: nat, t: nat)
    requires Inv(s) && Sleeps(s, t, m)
    ensures t == m || (t == s.baton && s.pc[t] == CreatorWait(m, false))
  {
    assert t != s.baton ==> OtherOk(s, t);
  }

  /** A thread moves and holds the same mutexes. */
  lemma MoveOwners(s: Sys, t: nat, pc: Pc)
    requires Shaped(s) && Owners(s) && OwnersExist(s) && t < |s.pc|
    requires forall m: nat :: Holds(pc, t, m) <==> Holds(s.pc[t], t, m)
    ensures Owners(At(s, t, pc)) && OwnersExist(At(s, t, pc))
  {
  }

  lemma LockOwners(s: Sys, t: nat, k: nat, pc: Pc)
    requires Shaped(s) && Owners(s) && OwnersExist(s) && t < |s.pc| && Free(s, k)
    requires forall m: nat :: Holds(pc, t, m) <==> Holds(s.pc[t], t, m) || m == k
    ensures Owners(Lock(s, t, k, pc)) && OwnersExist(Lock(s, t, k, pc))
  {
  }

  lemma UnlockOwners(s: Sys, t: nat, k: nat, pc: Pc)
    requires Shaped(s) && Owners(s) && OwnersExist(s) && t < |s.pc| && k < |s.pc| && Holds(s.pc[t], t, k)
    requires forall m: nat :: Holds(pc, t, m) <==> Holds(s.pc[t], t, m) && m != k
    ensures Owners(Unlock(s, t, k, pc)) && OwnersExist(Unlock(s, t, k, pc))
  {
    assert s.owner[k] == Some(t);
  }

  /** Only thread `t`, without the baton, moves, and its context is not finished by that. */
  ghost predicate Moves(s: Sys, r: Sys, t: nat)
    requires Shaped(s)
  {
    && Shaped(r) && |r.pc| == |s.pc| && r.baton == s.baton && t < |s.pc| && t != s.baton
    && (forall u: nat :: u < |s.pc| && u != t ==> r.pc[u] == s.pc[u] && r.mode[u] == s.mode[u])
    && (r.mode[t] == FINAL <==> s.mode[t] == FINAL)
  }

  lemma MovesHolder(s: Sys, r: Sys, t: nat)
    requires Shaped(s) && Moves(s, r, t) && HolderOk(s) && r.pc[t] != Leaving
    requires s.pc[s.baton] == CreatorWait(t, false) ==> r.pc[t] == Starting || r.pc[t] == Blocking
    ensures HolderOk(r)
  {
  }

  lemma MovesOthers(s: Sys, r: Sys, t: nat)
    requires Shaped(s) && Moves(s, r, t) && Others(s) && OtherOk(r, t)
    ensures Others(r)
  {
    forall u: nat | u < |r.pc| && u != r.baton
      ensures OtherOk(r, u)
    {
      assert OtherOk(s, u);
    }
  }

  lemma LockSelfKeeps(s: Sys, t: nat, pick: nat)
    requires Inv(s) && CanGo(s, t, pick) && s.pc[t].LockSelf?
    ensures Inv(AfterGo(s, t, pick))
  {
    var r := AfterGo(s, t, pick);
    assert t != s.baton ==> OtherOk(s, t);
    forall u: nat | u < |r.pc| && u != r.baton
      ensures OtherOk(r, u)
    {
      assert u != s.baton ==> OtherOk(s, u);
    }
  }

  lemma LockTargetKeeps(s: Sys, t: nat, pick: nat)
    requires Inv(s) && CanGo(s, t, pick) && s.pc[t].LockTarget?
    ensures Inv(AfterGo(s, t, pick))
  {
    var r := AfterGo(s, t, pick);
    assert t != s.baton ==> OtherOk(s, t);
    forall u: nat | u < |r.pc| && u != r.baton
      ensures OtherOk(r, u)
    {
      assert u != s.baton ==> OtherOk(s, u);
    }
  }

  /** The baton goes from `t` to `to`. */
  function Handed(s: Sys, t: nat, to: nat, pc: Pc): Sys
    requires Shaped(s) && t < |s.pc| && to < |s.pc|
  {
    Sys(s.mode[to := RELEASED], s.owner, s.pc[to := Waiting(true)][t := pc], to)
  }

  predicate Releases(pc: Pc) {
    pc.InRelease? || pc.CallRelease? || pc.ExitRelease?
  }

  /** The target of a release is blocked, and its thread waits. */
  lemma TargetWaits(s: Sys, t: nat)
    requires Inv(s) && t < |s.pc| && Releases(s.pc[t])
    ensures var to := s.pc[t].to;
      t == s.baton && to < |s.pc| && to != t && s.mode[to] == BLOCKED && s.pc[to].Waiting?
  {
    assert t != s.baton ==> OtherOk(s, t);
    assert Holds(s.pc[t], t, s.pc[t].to);
    HeldAtRest(s, s.pc[t].to);
  }

  /** A notification wakes the thread of the context, if it waits, and nobody else. */
  lemma SoleSleeper(s: Sys, k: nat, pick: nat)
    requires Inv(s) && k < |s.pc| && k != s.baton && !s.pc[s.baton].CreatorWait? && Picked(s, k, pick)
    ensures s.pc[k] == Waiting(false) ==> pick == k
    ensures s.pc[k] != Waiting(false) ==> !Sleeps(s, pick, k)
  {
    assert OtherOk(s, k);
    assert s.pc[k] == Waiting(false) ==> Sleeps(s, k, k);
    if Sleeps(s, pick, k) {
      Sleepers(s, k, pick);
    }
  }

  /** A release finds its target blocked, wakes it and nobody else. */
  lemma ReleaseStep(s: Sys, t: nat, pick: nat, pc: Pc)
    requires Inv(s) && CanGo(s, t, pick) && Releases(s.pc[t])
    ensures var to := s.pc[t].to;
      && t == s.baton && to < |s.pc| && to != t && s.mode[to] == BLOCKED && s.pc[to].Waiting?
      && Release(s, t, to, pick, pc) == Handed(s, t, to, pc)
  {
    TargetWaits(s, t);
    var to := s.pc[t].to;
    SoleSleeper(s, to, pick);
    hide *;
    ReleaseHands(s, t, to, pick, pc);
  }

  lemma ReleaseHands(s: Sys, t: nat, to: nat, pick: nat, pc: Pc)
    requires Shaped(s) && t < |s.pc| && to < |s.pc| && s.mode[to] == BLOCKED && s.pc[to].Waiting?
    requires if s.pc[to] == Waiting(false) then pick == to else !Sleeps(s, pick, to)
    ensures Release(s, t, to, pick, pc) == Handed(s, t, to, pc)
  {
    assert s.pc[to] == Waiting(true) ==> s.pc[to := Waiting(true)] == s.pc;
  }

  /** A yield, or work that ends, hands the baton over and gives up the mutex of the target. */
  lemma InReleaseStep(s: Sys, t: nat, pick: nat)
    requires Inv(s) && CanGo(s, t, pick) && (s.pc[t].InRelease? || s.pc[t].ExitRelease?)
    ensures var to, pc := s.pc[t].to, if s.pc[t].InRelease? then Blocking else Leaving;
      && t == s.baton && to < |s.pc| && to != t && s.mode[to] == BLOCKED && s.pc[to].Waiting?
      && AfterGo(s, t, pick) == Handed(s, t, to, pc).(owner := s.owner[to := None])
  {
    ReleaseStep(s, t, pick, if s.pc[t].InRelease? then Blocking else Leaving);
  }

  /** Handing over leaves one thread with the baton, and all others where they may be. */
  lemma HandedKeeps(s: Sys, t: nat, to: nat, pc: Pc, r: Sys)
    requires Shaped(s) && Shaped(r) && HolderOk(s) && Others(s) && t == s.baton && to < |s.pc| && to != t
    requires s.mode[to] == BLOCKED && s.pc[to].Waiting? && Releases(s.pc[t]) && to == s.pc[t].to
    requires pc == match s.pc[t]
                   case InRelease(_) => Blocking
                   case ExitRelease(_) => Leaving
                   case _ => CallLockSelf(to)
    requires r == Handed(s, t, to, pc).(owner := r.owner)
    ensures HolderOk(r) && Others(r)
  {
    forall u: nat | u < |r.pc| && u != r.baton
      ensures OtherOk(r, u)
    {
      assert u != s.baton ==> OtherOk(s, u);
    }
  }

  /** The releasing thread gives up the mutex of the target. */
  lemma HandedOwners(s: Sys, t: nat, to: nat, pc: Pc, r: Sys)
    requires Shaped(s) && Owners(s) && OwnersExist(s) && t < |s.pc| && to < |s.pc| && to != t
    requires s.pc[to].Waiting?
    requires (s.pc[t] == InRelease(to) && pc == Blocking) || (s.pc[t] == ExitRelease(to) && pc == Leaving)
    requires r == Handed(s, t, to, pc).(owner := s.owner[to := None])
    ensures Shaped(r) && Owners(r) && OwnersExist(r)
  {
    forall m: nat, u: nat | m < |r.pc| && u < |r.pc|
      ensures r.owner[m] == Some(u) <==> Holds(r.pc[u], u, m)
    {
      assert s.owner[m] == Some(u) <==> Holds(s.pc[u], u, m);
      assert s.owner[m] == Some(t) <==> Holds(s.pc[t], t, m);
    }
  }

  lemma InReleaseKeeps(s: Sys, t: nat, pick: nat)
    requires Inv(s) && CanGo(s, t, pick) && (s.pc[t].InRelease? || s.pc[t].ExitRelease?)
    ensures Inv(AfterGo(s, t, pick))
  {
    InReleaseStep(s, t, pick);
    var to, pc := s.pc[t].to, if s.pc[t].InRelease? then Blocking else Leaving;
    var r := Handed(s, t, to, pc).(owner := s.owner[to := None]);
    HandedOwners(s, t, to, pc, r);
    hide CanGo, AfterGo, Owners, OwnersExist, HolderOk, Others;
    HandedKeeps(s, t, to, pc, r);
  }

  /** A thread that blocks wakes the creator of its context, if it waits. */
  lemma BlockingStep(s: Sys, t: nat, pick: nat)
    requires Inv(s) && CanGo(s, t, pick) && s.pc[t].Blocking?
    ensures t != s.baton
    ensures
      var pc := if s.pc[s.baton] == CreatorWait(t, false) then s.pc[s.baton := CreatorWait(t, true)] else s.pc;
      AfterGo(s, t, pick) == Sys(s.mode[t := BLOCKED], s.owner[t := None], pc[t := Waiting(false)], s.baton)
  {
    assert t != s.baton ==> OtherOk(s, t);
    assert s.pc[s.baton] == CreatorWait(t, false) ==> Sleeps(s, s.baton, t);
    assert Sleeps(s, pick, t) ==> pick == s.baton by {
      if Sleeps(s, pick, t) {
        Sleepers(s, t, pick);
      }
    }
  }

  lemma BlockingOwners(s: Sys, t: nat, r: Sys)
    requires Shaped(s) && Owners(s) && OwnersExist(s) && t < |s.pc| && s.pc[t] == Blocking && t != s.baton
    requires var pc := if s.pc[s.baton] == CreatorWait(t, false) then s.pc[s.baton := CreatorWait(t, true)] else s.pc;
      r == Sys(s.mode[t := BLOCKED], s.owner[t := None], pc[t := Waiting(false)], s.baton)
    ensures Shaped(r) && Owners(r) && OwnersExist(r)
  {
    forall m: nat, u: nat | m < |r.pc| && u < |r.pc|
      ensures r.owner[m] == Some(u) <==> Holds(r.pc[u], u, m)
    {
      assert s.owner[m] == Some(u) <==> Holds(s.pc[u], u, m);
      assert s.owner[t] == Some(t) <==> Holds(s.pc[t], t, t);
    }
  }

  /** The creator of context `t`, if it waits, is woken. */
  lemma CreatorAwakes(s: Sys, t: nat)
    requires Shaped(s) && HolderOk(s) && Others(s) && s.pc[s.baton] == CreatorWait(t, false)
    ensures var r := At(s, s.baton, CreatorWait(t, true)); HolderOk(r) && Others(r)
  {
    var r := At(s, s.baton, CreatorWait(t, true));
    forall u: nat | u < |r.pc| && u != r.baton
      ensures OtherOk(r, u)
    {
      assert OtherOk(s, u);
    }
  }

  lemma BlockingKeeps(s: Sys, t: nat, pick: nat)
    requires Inv(s) && CanGo(s, t, pick) && s.pc[t].Blocking?
    ensures Inv(AfterGo(s, t, pick))
  {
    BlockingStep(s, t, pick);
    assert OtherOk(s, t);
    var r := AfterGo(s, t, pick);
    BlockingOwners(s, t, r);
    hide CanGo, AfterGo, Owners, OwnersExist, HolderOk, Others;
    var a := s;
    if s.pc[s.baton] == CreatorWait(t, false) {
      CreatorAwakes(s, t);
      a := At(s, s.baton, CreatorWait(t, true));
    }
    MovesHolder(a, r, t);
    MovesOthers(a, r, t);
  }

  lemma WaitingKeeps(s: Sys, t: nat, pick: nat)
    requires Inv(s) && CanGo(s, t, pick) && s.pc[t].Waiting?
    ensures Inv(AfterGo(s, t, pick))
  {
    var r := AfterGo(s, t, pick);
    assert t != s.baton ==> OtherOk(s, t);
    LockOwners(s, t, t, Woken);
    hide CanGo, AfterGo, OwnersExist;
    if t != s.baton {
      hide Owners, Others;
      MovesHolder(s, r, t);
      MovesOthers(s, r, t);
    } else {
      forall u: nat | u < |r.pc| && u != r.baton
        ensures OtherOk(r, u)
      {
        assert OtherOk(s, u);
      }
    }
  }

  lemma WokenKeeps(s: Sys, t: nat, pick: nat)
    requires Inv(s) && CanGo(s, t, pick) && s.pc[t].Woken?
    ensures Inv(AfterGo(s, t, pick))
  {
    var r := AfterGo(s, t, pick);
    assert t != s.baton ==> OtherOk(s, t);
    UnlockOwners(s, t, t, r.pc[t]);
    hide CanGo, AfterGo, OwnersExist, Owners;
    if t != s.baton {
      hide Others;
      MovesHolder(s, r, t);
      MovesOthers(s, r, t);
    } else {
      forall u: nat | u < |r.pc| && u != r.baton
        ensures OtherOk(r, u)
      {
        assert OtherOk(s, u);
      }
    }
  }

  lemma StartingKeeps(s: Sys, t: nat, pick: nat)
    requires Inv(s) && CanGo(s, t, pick) && (s.pc[t].Starting? || s.pc[t].Leaving?)
    ensures Inv(AfterGo(s, t, pick))
  {
    var r := AfterGo(s, t, pick);
    assert t != s.baton ==> OtherOk(s, t);
    if s.mode[t] == FINAL {
      MoveOwners(s, t, Done);
      assert r == At(s, t, Done);
    } else {
      LockOwners(s, t, t, Blocking);
      assert r == Lock(s, t, t, Blocking);
    }
    hide CanGo, AfterGo, Owners, OwnersExist, Others;
    MovesHolder(s, r, t);
    MovesOthers(s, r, t);
  }

  lemma CreatorLockKeeps(s: Sys, t: nat, pick: nat)
    requires Inv(s) && CanGo(s, t, pick) && s.pc[t].CreatorLock?
    ensures Inv(AfterGo(s, t, pick))
  {
    var r := AfterGo(s, t, pick);
    assert t != s.baton ==> OtherOk(s, t);
    forall u: nat | u < |r.pc| && u != r.baton
      ensures OtherOk(r, u)
    {
      assert u != s.baton ==> OtherOk(s, u);
    }
  }

  lemma CreatorTestKeeps(s: Sys, t: nat, pick: nat)
    requires Inv(s) && CanGo(s, t, pick) && s.pc[t].CreatorTest?
    ensures Inv(AfterGo(s, t, pick))
  {
    assert t != s.baton ==> OtherOk(s, t);
    assert Holds(s.pc[t], t, s.pc[t].of);
    HeldAtRest(s, s.pc[t].of);
    var r := AfterGo(s, t, pick);
    forall u: nat | u < |r.pc| && u != r.baton
      ensures OtherOk(r, u)
    {
      assert u != s.baton ==> OtherOk(s, u);
    }
  }

  lemma CreatorWaitKeeps(s: Sys, t: nat, pick: nat)
    requires Inv(s) && CanGo(s, t, pick) && s.pc[t].CreatorWait?
    ensures Inv(AfterGo(s, t, pick))
  {
    var r := AfterGo(s, t, pick);
    assert t != s.baton ==> OtherOk(s, t);
    forall u: nat | u < |r.pc| && u != r.baton
      ensures OtherOk(r, u)
    {
      assert u != s.baton ==> OtherOk(s, u);
    }
  }

  lemma CallLockKeeps(s: Sys, t: nat, pick: nat)
    requires Inv(s) && CanGo(s, t, pick) && s.pc[t].CallLock?
    ensures Inv(AfterGo(s, t, pick))
  {
    var r := AfterGo(s, t, pick);
    assert t != s.baton ==> OtherOk(s, t);
    forall u: nat | u < |r.pc| && u != r.baton
      ensures OtherOk(r, u)
    {
      assert u != s.baton ==> OtherOk(s, u);
    }
  }

  lemma CallReleaseKeeps(s: Sys, t: nat, pick: nat)
    requires Inv(s) && CanGo(s, t, pick) && s.pc[t].CallRelease?
    ensures Inv(AfterGo(s, t, pick))
  {
    var to := s.pc[t].to;
    ReleaseStep(s, t, pick, CallLockSelf(to));
    var r := AfterGo(s, t, pick);
    MoveOwners(s, to, Waiting(true));
    MoveOwners(At(s, to, Waiting(true)), t, CallLockSelf(to));
    hide CanGo, AfterGo, HolderOk, Others;
    HandedKeeps(s, t, to, CallLockSelf(to), r);
  }

  lemma CallLockSelfKeeps(s: Sys, t: nat, pick: nat)
    requires Inv(s) && CanGo(s, t, pick) && s.pc[t].CallLockSelf?
    ensures Inv(AfterGo(s, t, pick))
  {
    var r := AfterGo(s, t, pick);
    assert t != s.baton ==> OtherOk(s, t);
    LockOwners(s, t, t, r.pc[t]);
    hide CanGo, AfterGo, OwnersExist, Owners, Others;
    MovesHolder(s, r, t);
    MovesOthers(s, r, t);
  }

  lemma CallBlockKeeps(s: Sys, t: nat, pick: nat)
    requires Inv(s) && CanGo(s, t, pick) && s.pc[t].CallBlock?
    ensures Inv(AfterGo(s, t, pick))
  {
    var r := AfterGo(s, t, pick);
    assert t != s.baton ==> OtherOk(s, t);
    UnlockOwners(s, t, s.pc[t].to, CallWait);
    hide CanGo, AfterGo, OwnersExist, Owners, Others;
    MovesHolder(s, r, t);
    MovesOthers(s, r, t);
  }

  lemma CallWaitKeeps(s: Sys, t: nat, pick: nat)
    requires Inv(s) && CanGo(s, t, pick) && s.pc[t].CallWait?
    ensures Inv(AfterGo(s, t, pick))
  {
    var r := AfterGo(s, t, pick);
    assert t != s.baton ==> OtherOk(s, t);
    UnlockOwners(s, t, t, Waiting(false));
    hide CanGo, AfterGo, OwnersExist, Owners, Others;
    MovesHolder(s, r, t);
    MovesOthers(s, r, t);
  }

  lemma ExitLockKeeps(s: Sys, t: nat, pick: nat)
    requires Inv(s) && CanGo(s, t, pick) && s.pc[t].ExitLock?
    ensures Inv(AfterGo(s, t, pick))
  {
    var r := AfterGo(s, t, pick);
    assert t != s.baton ==> OtherOk(s, t);
    forall u: nat | u < |r.pc| && u != r.baton
      ensures OtherOk(r, u)
    {
      assert u != s.baton ==> OtherOk(s, u);
    }
  }

  lemma FinishLockKeeps(s: Sys, t: nat, pick: nat)
    requires Inv(s) && CanGo(s, t, pick) && s.pc[t].FinishLock?
    ensures Inv(AfterGo(s, t, pick))
  {
    var r := AfterGo(s, t, pick);
    assert t != s.baton ==> OtherOk(s, t);
    forall u: nat | u < |r.pc| && u != r.baton
      ensures OtherOk(r, u)
    {
      assert u != s.baton ==> OtherOk(s, u);
    }
  }

  lemma FinishSetKeeps(s: Sys, t: nat, pick: nat)
    requires Inv(s) && CanGo(s, t, pick) && s.pc[t].FinishSet?
    ensures Inv(AfterGo(s, t, pick))
  {
    assert t != s.baton ==> OtherOk(s, t);
    assert Holds(s.pc[t], t, s.pc[t].of);
    HeldAtRest(s, s.pc[t].of);
    var r := AfterGo(s, t, pick);
    forall u: nat | u < |r.pc| && u != r.baton
      ensures OtherOk(r, u)
    {
      assert u != s.baton ==> OtherOk(s, u);
    }
  }

  /** Of the threads, only that of the finished context can wait on its condition. */
  lemma FinishNotifyStep(s: Sys, t: nat, pick: nat)
    requires Inv(s) && CanGo(s, t, pick) && s.pc[t].FinishNotify?
    ensures t == s.baton && s.pc[t].of < |s.pc| && s.pc[t].of != t
    ensures var k := s.pc[t].of;
      AfterGo(s, t, pick) == At(if s.pc[k] == Waiting(false) then At(s, k, Waiting(true)) else s, t, FinishJoin(k))
  {
    assert t != s.baton ==> OtherOk(s, t);
    SoleSleeper(s, s.pc[t].of, pick);
    hide Inv;
  }

  lemma FinishNotifyKeeps(s: Sys, t: nat, pick: nat)
    requires Inv(s) && CanGo(s, t, pick) && s.pc[t].FinishNotify?
    ensures Inv(AfterGo(s, t, pick))
  {
    FinishNotifyStep(s, t, pick);
    var k := s.pc[t].of;
    var r, a := AfterGo(s, t, pick), if s.pc[k] == Waiting(false) then At(s, k, Waiting(true)) else s;
    if s.pc[k] == Waiting(false) {
      MoveOwners(s, k, Waiting(true));
    }
    MoveOwners(a, t, FinishJoin(k));
    hide CanGo, AfterGo, Owners, OwnersExist;
    forall u: nat | u < |r.pc| && u != r.baton
      ensures OtherOk(r, u)
    {
      assert OtherOk(s, u);
    }
  }

  lemma FinishJoinKeeps(s: Sys, t: nat, pick: nat)
    requires Inv(s) && CanGo(s, t, pick) && s.pc[t].FinishJoin?
    ensures Inv(AfterGo(s, t, pick))
  {
    var r := AfterGo(s, t, pick);
    assert t != s.baton ==> OtherOk(s, t);
    forall u: nat | u < |r.pc| && u != r.baton
      ensures OtherOk(r, u)
    {
      assert u != s.baton ==> OtherOk(s, u);
    }
  }

  lemma AskKeeps(s: Sys, t: nat, request: Request)
    requires Inv(s) && Asks(s, t, request)
    ensures Inv(AfterAsk(s, t, request))
  {
    assert t != s.baton ==> OtherOk(s, t);
    if request.Create? {
      CreateKeeps(s, t);
    } else {
      var r := AfterAsk(s, t, request);
      forall u: nat | u < |r.pc| && u != r.baton
        ensures OtherOk(r, u)
      {
        assert OtherOk(s, u);
      }
    }
  }

  lemma CreateKeeps(s: Sys, t: nat)
    requires Inv(s) && t == s.baton && s.pc[t] == Run
    ensures Inv(AfterAsk(s, t, Create))
  {
    var r, n: nat := AfterAsk(s, t, Create), |s.pc|;
    forall u: nat | u < |r.pc| && u != r.baton
      ensures OtherOk(r, u)
    {
      assert u < n ==> OtherOk(s, u);
    }
    forall m: nat, u: nat | m < |r.pc| && u < |r.pc|
      ensures r.owner[m] == Some(u) <==> Holds(r.pc[u], u, m)
    {
      if u < n && Holds(s.pc[u], u, m) {
        NotHeldBeyond(s, u, m);
      }
    }
  }

  lemma NotHeldBeyond(s: Sys, u: nat, m: nat)
    requires Inv(s) && u < |s.pc| && Holds(s.pc[u], u, m)
    ensures m < |s.pc|
  {
    assert u != s.baton ==> OtherOk(s, u);
  }

  lemma SpuriousKeeps(s: Sys, t: nat, m: nat)
    requires Inv(s) && Sleeps(s, t, m)
    ensures Inv(At(s, t, Awake(s.pc[t])))
  {
    var r := At(s, t, Awake(s.pc[t]));
    assert t != s.baton ==> OtherOk(s, t);
    MoveOwners(s, t, Awake(s.pc[t]));
    if t == s.baton {
      hide Owners, OwnersExist;
      CreatorAwakes(s, m);
    } else {
      hide Owners, OwnersExist, Others;
      MovesHolder(s, r, t);
      MovesOthers(s, r, t);
    }
  }

  lemma GoKeeps(s: Sys, t: nat, pick: nat)
    requires Inv(s) && CanGo(s, t, pick)
    ensures Inv(AfterGo(s, t, pick))
  {
    hide AfterGo, Inv;
    match s.pc[t]
    case Run =>
    case Done =>
    case Thrown =>
    case LockSelf(_) => LockSelfKeeps(s, t, pick);
    case LockTarget(_) => LockTargetKeeps(s, t, pick);
    case InRelease(_) => InReleaseKeeps(s, t, pick);
    case Blocking => BlockingKeeps(s, t, pick);
    case Waiting(_) => WaitingKeeps(s, t, pick);
    case Woken => WokenKeeps(s, t, pick);
    case Starting => StartingKeeps(s, t, pick);
    case Leaving => StartingKeeps(s, t, pick);
    case CreatorLock(_) => CreatorLockKeeps(s, t, pick);
    case CreatorTest(_) => CreatorTestKeeps(s, t, pick);
    case CreatorWait(_, _) => CreatorWaitKeeps(s, t, pick);
    case CallLock(_) => CallLockKeeps(s, t, pick);
    case CallRelease(_) => CallReleaseKeeps(s, t, pick);
    case CallLockSelf(_) => CallLockSelfKeeps(s, t, pick);
    case CallBlock(_) => CallBlockKeeps(s, t, pick);
    case CallWait => CallWaitKeeps(s, t, pick);
    case ExitLock(_) => ExitLockKeeps(s, t, pick);
    case ExitRelease(_) => InReleaseKeeps(s, t, pick);
    case FinishLock(_) => FinishLockKeeps(s, t, pick);
    case FinishSet(_) => FinishSetKeeps(s, t, pick);
    case FinishNotify(_) => FinishNotifyKeeps(s, t, pick);
    case FinishJoin(_) => FinishJoinKeeps(s, t, pick);
  }

  lemma StepKeeps(s: Sys, step: Step)
    requires Inv(s) && Enabled(s, step)
    ensures Inv(After(s, step))
  {
    hide AfterGo, AfterAsk, CanGo, Asks, Owners, OwnersExist, HolderOk, Others;
    match step
    case Ask(t, request) => AskKeeps(s, t, request);
    case Go(t, pick) => GoKeeps(s, t, pick);
    case Spurious(t) =>
      var m: nat :| Sleeps(s, t, m);
      SpuriousKeeps(s, t, m);
  }
}
