/** What every run of the pump keeps. */
module PumpProofs {
  import opened Sequences
  import opened PumpModel

  /** Every coroutine is in exactly one of the two lists, once. */
  ghost predicate Lists(s: State) {
    && NoDup(s.coroutines) && NoDup(s.collateral)
    && (forall id :: id in s.coroutines ==> id !in s.collateral)
    && (forall id :: id in s.co <==> id in s.coroutines || id in s.collateral)
    && (forall id :: id in s.where <==> id in s.coroutines || id in s.collateral)
    && (forall id :: id in s.co ==> 0 < id <= s.current)
  }

  /** Exactly one coroutine in `coroutines` is runnable, and it is the one in control. */
  ghost predicate Baton(s: State) {
    && s.self in s.coroutines
    && (forall id :: id in s.coroutines ==> (s.Runnable(id) <==> id == s.self))
  }

  /** The fields agree with where each coroutine is suspended. */
  ghost predicate Control(s: State) {
    && (forall id :: id in s.coroutines ==>
          && (s.At(id).finished <==> s.Pc(id).Gone?)
          && (s.At(id).finished ==> s.At(id).port == 0)
          && (s.At(id).port != 0 ==> s.Pc(id).Blocking?))
    && (forall id :: id in s.collateral ==>
          s.At(id).port != 0 && !s.At(id).finished && s.Pc(id).Waiting?)
  }

  /** Every pending switch names a distinct, unfinished coroutine that is blocked on a port. */
  ghost predicate Pending(s: State) {
    && NoDup(s.switches)
    && (forall b :: b in s.switches ==> b in s.coroutines && s.At(b).port != 0)
  }

  /** Every waiter waits on an unblocked port or on the port of a blocked coroutine. */
  ghost predicate Waiters(s: State) {
    && 0 !in s.unblocked
    && (forall w :: w in s.collateral ==>
          s.At(w).port in s.unblocked || BlockedOn(s, s.At(w).port))
  }

  ghost predicate BlockedOn(s: State, port: nat) {
    exists b :: b in s.coroutines && s.At(b).port == port
  }

  /** The coroutine that is executing posted event `e`, or is suspended in it. */
  ghost predicate InProgress(s: State, id: nat, e: nat) {
    id in s.where && s.where[id].Carries(e)
  }

  /** Each posted event is queued, in progress on one coroutine, or completed: in one of the
      three, and once. */
  ghost predicate Conserved(s: State) {
    && NoDup(s.queue) && NoDup(s.completed)
    && (forall e :: e in s.queue ==> e in s.posted && e !in s.completed)
    && (forall e :: e in s.completed ==> e in s.posted)
    && (forall id, e :: InProgress(s, id, e) ==> e in s.posted && e !in s.queue && e !in s.completed)
    && (forall i, j, e :: InProgress(s, i, e) && InProgress(s, j, e) ==> i == j)
    && (forall e :: e in s.posted ==> e in s.queue || e in s.completed || exists id :: InProgress(s, id, e))
  }

  ghost predicate Inv(s: State) {
    Lists(s) && Baton(s) && Control(s) && Pending(s) && Waiters(s) && Conserved(s)
  }

  /** Steps that only move the coroutine in control, edit the runtime's bookkeeping, or
      touch the event queue. */
  ghost predicate Local(a: Action) {
    !(a.CollateralRelease? || a.ContextSwitch? || a.CollateralBlock? || a.BlockCommit? || a.BlockResume?)
  }

  /** `t` differs from `s` at most in the runtime's bookkeeping, the event queue, new pending
      switches, and where the coroutine in control is; that coroutine has not gone. */
  ghost predicate SameLists(s: State, t: State) {
    && t.coroutines == s.coroutines && t.collateral == s.collateral && t.co == s.co
    && t.self == s.self && t.unblocked == s.unblocked && t.current == s.current
    && (t.where == s.where || (s.self in t.where && t.where == s.where[s.self := t.where[s.self]]
                               && (t.where[s.self].Looping? || t.where[s.self].Executing?)))
  }

  lemma LocalSameLists(s: State, a: Action)
    requires Enabled(s, a) && Local(a)
    ensures SameLists(s, Apply(s, a))
  {
    match a
    case TakeQueued => TakeSameLists(s);
    case EndWork => EndSameLists(s);
    case BlockEnter(c, p) => EnterSameLists(s, c, p);
    case TakeDeferred(d) => GotoSameLists(s, Executing(Deferred(d), Timing, []));
    case NoDeferred => GotoSameLists(s, Looping(Timing));
    case TakeTimer(t) => GotoSameLists(s, Executing(Timed(t), Timing, []));
    case NoTimer => GotoSameLists(s, Looping(Releasing));
    case CollateralResume => GotoSameLists(s, Executing(s.Pc(s.self).work, s.Pc(s.self).next, s.Pc(s.self).frames));
    case Release(c, p) => ReleaseSameLists(s, c, p);
    case _ =>
  }

  lemma ReleaseSameLists(s: State, c: nat, port: Pointer)
    ensures SameLists(s, AfterRelease(s, c, port))
  {
    hide First;
  }

  lemma GotoSameLists(s: State, w: Where)
    requires w.Looping? || w.Executing?
    ensures SameLists(s, Goto(s, w))
  {
  }

  lemma TakeSameLists(s: State)
    ensures SameLists(s, AfterTakeQueued(s))
  {
    var w := if s.queue == [] then Looping(Deferring) else Executing(Posted(s.queue[0]), Deferring, []);
    GotoSameLists(s, w);
    assert AfterTakeQueued(s) == Goto(s, w).(queue := AfterTakeQueued(s).queue);
    hide Goto, AfterTakeQueued;
  }

  lemma EndSameLists(s: State)
    requires s.Pc(s.self).Executing?
    ensures SameLists(s, AfterEndWork(s))
  {
  }

  lemma EnterSameLists(s: State, c: nat, port: Pointer)
    requires s.Pc(s.self).Executing?
    ensures SameLists(s, AfterBlockEnter(s, c, port))
  {
  }

  lemma SameListsKeep(s: State, t: State)
    requires Lists(s) && Baton(s) && Control(s) && Waiters(s) && SameLists(s, t)
    ensures Lists(t) && Baton(t) && Control(t) && Waiters(t)
  {
    assert forall id :: t.At(id) == s.At(id);
    assert forall port :: BlockedOn(s, port) ==> BlockedOn(t, port);
    assert s.Runnable(s.self);
    assert forall id :: id != s.self ==> t.Pc(id) == s.Pc(id);
  }

  lemma LocalKeepsPending(s: State, a: Action)
    requires Pending(s) && Enabled(s, a) && Local(a)
    ensures Pending(Apply(s, a))
  {
    var t := Apply(s, a);
    LocalSameLists(s, a);
    assert forall id :: t.At(id) == s.At(id);
    if a.Release? && s.FindBlocked(a.port) < |s.coroutines| {
      var b := s.coroutines[s.FindBlocked(a.port)];
      assert b in s.coroutines && s.At(b).port == a.port;
      PushNoDup(s.switches, b);
    }
  }

  /** The event queue, the completed list and the events in progress are those of `s`. */
  ghost predicate SameEvents(s: State, t: State) {
    && t.queue == s.queue && t.completed == s.completed && t.posted == s.posted
    && (forall id, e :: InProgress(t, id, e) <==> InProgress(s, id, e))
  }

  lemma SameEventsKeep(s: State, t: State)
    requires Conserved(s) && SameEvents(s, t)
    ensures Conserved(t)
  {
    forall e | e in t.posted && e !in t.queue && e !in t.completed
      ensures exists id :: InProgress(t, id, e)
    {
      var id :| InProgress(s, id, e);
      assert InProgress(t, id, e);
    }
  }

  /** A posted event enters the queue. */
  lemma PostConserves(s: State, e: nat)
    requires Conserved(s) && Enabled(s, Post(e))
    ensures Conserved(Apply(s, Post(e)))
  {
    var t := Apply(s, Post(e));
    PushNoDup(s.queue, e);
    assert forall id, x :: InProgress(t, id, x) <==> InProgress(s, id, x);
    forall x | x in t.posted && x !in t.queue && x !in t.completed
      ensures exists id :: InProgress(t, id, x)
    {
      var id :| InProgress(s, id, x);
      assert InProgress(t, id, x);
    }
  }

  /** The event at the front of the queue becomes the one in progress here. */
  lemma TakeConserves(s: State)
    requires Conserved(s) && s.Pc(s.self) == Looping(Queueing) && s.queue != []
    ensures Conserved(AfterTakeQueued(s))
  {
    var t := AfterTakeQueued(s);
    assert s.queue == [s.queue[0]] + t.queue;
    assert forall id, x :: id != s.self ==> (InProgress(t, id, x) <==> InProgress(s, id, x));
    assert forall x :: InProgress(t, s.self, x) <==> x == s.queue[0];
    forall x | x in t.posted && x !in t.queue && x !in t.completed
      ensures exists id :: InProgress(t, id, x)
    {
      if x == s.queue[0] {
        assert InProgress(t, s.self, x);
      } else {
        var id :| InProgress(s, id, x);
        assert InProgress(t, id, x);
      }
    }
  }

  /** The event in progress here is completed. */
  lemma EndConserves(s: State)
    requires Conserved(s) && s.self in s.where && s.Pc(s.self).Executing?
    ensures Conserved(AfterEndWork(s))
  {
    var t := AfterEndWork(s);
    var w := s.where[s.self].work;
    EndInProgress(s);
    if w.Posted? {
      assert InProgress(s, s.self, w.id);
      PushNoDup(s.completed, w.id);
    }
    hide InProgress, NoDup;
    forall x | x in t.posted && x !in t.queue && x !in t.completed
      ensures exists id :: InProgress(t, id, x)
    {
      var id :| InProgress(s, id, x);
      assert InProgress(t, id, x);
    }
  }

  lemma EndInProgress(s: State)
    requires s.self in s.where && s.Pc(s.self).Executing?
    ensures var t, w := AfterEndWork(s), s.where[s.self].work;
      && (forall id, x :: InProgress(t, id, x) <==> id != s.self && InProgress(s, id, x))
      && (forall x :: InProgress(s, s.self, x) <==> w == Posted(x))
      && t.completed == (if w.Posted? then s.completed + [w.id] else s.completed)
      && t.queue == s.queue && t.posted == s.posted
  {
  }

  lemma LocalConserves(s: State, a: Action)
    requires Lists(s) && Baton(s) && Conserved(s) && Enabled(s, a) && Local(a)
    ensures Conserved(Apply(s, a))
  {
    assert s.self in s.where;
    if a.Post? {
      PostConserves(s, a.event);
    } else if a.TakeQueued? && s.queue != [] {
      TakeConserves(s);
    } else if a.EndWork? {
      EndConserves(s);
    } else {
      OtherEvents(s, a);
      hide Conserved, SameEvents, Enabled, Apply, Local;
      SameEventsKeep(s, Apply(s, a));
    }
  }

  /** No other step of this kind touches an event. */
  lemma OtherEvents(s: State, a: Action)
    requires Enabled(s, a) && Local(a) && s.self in s.where
    requires !a.Post? && !(a.TakeQueued? && s.queue != []) && !a.EndWork?
    ensures SameEvents(s, Apply(s, a))
  {
    var t := Apply(s, a);
    assert forall id, x :: id != s.self ==> (InProgress(t, id, x) <==> InProgress(s, id, x));
    assert forall x :: InProgress(t, s.self, x) <==> InProgress(s, s.self, x);
  }

  lemma LocalKeeps(s: State, a: Action)
    requires Inv(s) && Enabled(s, a) && Local(a)
    ensures Inv(Apply(s, a))
  {
    LocalSameLists(s, a);
    SameListsKeep(s, Apply(s, a));
    LocalKeepsPending(s, a);
    LocalConserves(s, a);
  }

  lemma BlockEnterKeeps(s: State, c: nat, port: Pointer)
    requires Inv(s) && s.Pc(s.self).Executing?
    ensures Inv(AfterBlockEnter(s, c, port))
  {
    hide Inv;
    LocalKeeps(s, BlockEnter(c, port));
  }

  lemma ReleaseKeeps(s: State, c: nat, port: Pointer)
    requires Inv(s) && s.Pc(s.self).Executing? && NotPending(s, port)
    ensures Inv(AfterRelease(s, c, port))
  {
    hide Inv;
    LocalKeeps(s, Release(c, port));
  }

  /** Waiters stay accounted for when no unblocked port is dropped, a blocked coroutine keeps
      its port or leaves it among the unblocked ones, and every waiter is an old one with its
      port or waits on a blocked coroutine. */
  lemma WaitersKeep(s: State, t: State)
    requires Waiters(s) && 0 !in t.unblocked
    requires forall p :: p in s.unblocked ==> p in t.unblocked
    requires forall c :: c in s.coroutines && s.At(c).port != 0 ==>
               (c in t.coroutines && t.At(c).port == s.At(c).port) || s.At(c).port in t.unblocked
    requires forall w :: w in t.collateral ==>
               (w in s.collateral && s.At(w).port == t.At(w).port != 0) || BlockedOn(t, t.At(w).port)
    ensures Waiters(t)
  {
    forall w | w in t.collateral && t.At(w).port !in t.unblocked ensures BlockedOn(t, t.At(w).port) {
      if w in s.collateral && s.At(w).port == t.At(w).port != 0 {
        var c :| c in s.coroutines && s.At(c).port == s.At(w).port;
        assert t.At(c).port == t.At(w).port;
      }
    }
  }

  /** The coroutine in control finishes and hands over to `w`, which becomes runnable. */
  ghost predicate HandsOver(s: State, t: State, w: nat) {
    && s.self in s.coroutines && w != s.self && t.self == w
    && s.Pc(s.self).Looping? && !s.At(w).finished
    && t.where == s.where[s.self := Gone]
    && t.co.Keys == s.co.Keys
    && t.At(s.self) == s.At(s.self).(finished := true)
    && t.At(w).port == 0 && !t.At(w).finished
    && (forall id :: id != w && id != s.self ==> t.At(id) == s.At(id))
    && t.current == s.current
    && (forall id :: id in t.coroutines <==> id in s.coroutines || id == w)
    && (forall id :: id in t.collateral <==> id in s.collateral && id != w)
  }

  lemma HandsOverKeeps(s: State, t: State, w: nat)
    requires Lists(s) && Baton(s) && Control(s) && HandsOver(s, t, w)
    requires w in s.coroutines || w in s.collateral
    requires NoDup(t.coroutines) && NoDup(t.collateral)
    ensures Lists(t) && Baton(t) && Control(t)
  {
    assert s.Runnable(s.self);
    assert forall id :: id != s.self ==> t.Pc(id) == s.Pc(id);
  }

  lemma HandsOverSameEvents(s: State, t: State, w: nat)
    requires Conserved(s) && HandsOver(s, t, w)
    requires t.queue == s.queue && t.completed == s.completed && t.posted == s.posted
    ensures Conserved(t)
  {
    assert forall id, x :: id != s.self ==> (InProgress(t, id, x) <==> InProgress(s, id, x));
    assert forall x :: !InProgress(t, s.self, x) && !InProgress(s, s.self, x);
    SameEventsKeep(s, t);
  }

  /** The pending switch names a coroutine that is blocked and not finished. */
  lemma SwitchHandsOver(s: State)
    requires Lists(s) && Baton(s) && Control(s) && Pending(s)
    requires s.Pc(s.self) == Looping(Switching) && s.switches != []
    ensures var t, b := AfterContextSwitch(s), s.switches[0];
      && b in s.coroutines && s.At(b).port != 0 && HandsOver(s, t, b)
      && t.coroutines == s.coroutines && t.collateral == s.collateral && t.unblocked == s.unblocked + [s.At(b).port]
      && s.switches == [b] + t.switches && t.queue == s.queue && t.completed == s.completed && t.posted == s.posted
  {
    assert s.switches[0] in s.switches;
  }

  lemma SwitchPending(s: State, t: State, b: nat)
    requires Pending(s) && Baton(s) && HandsOver(s, t, b) && s.switches == [b] + t.switches
    ensures Pending(t)
  {
    assert s.switches[0] == b && s.switches[1..] == t.switches;
    forall x | x in t.switches ensures x in t.coroutines && t.At(x).port != 0 {
      assert x in s.switches && x != b && x != s.self;
    }
  }

  lemma SwitchWaiters(s: State, t: State, b: nat)
    requires Lists(s) && Waiters(s) && HandsOver(s, t, b) && b in s.coroutines && s.At(b).port != 0
    requires t.coroutines == s.coroutines && t.collateral == s.collateral && t.unblocked == s.unblocked + [s.At(b).port]
    ensures Waiters(t)
  {
    WaitersKeep(s, t);
  }

  /** The pending switch resumes its coroutine. */
  lemma ContextSwitchKeeps(s: State)
    requires Inv(s) && s.Pc(s.self) == Looping(Switching) && s.switches != []
    ensures Inv(AfterContextSwitch(s))
  {
    var t, b := AfterContextSwitch(s), s.switches[0];
    SwitchHandsOver(s);
    hide Lists, Baton, Control, Pending, Waiters, Conserved, HandsOver, AfterContextSwitch;
    ListsParts(s);
    HandsOverKeeps(s, t, b);
    HandsOverSameEvents(s, t, b);
    SwitchPending(s, t, b);
    SwitchWaiters(s, t, b);
  }

  lemma ListsParts(s: State)
    requires Lists(s)
    ensures NoDup(s.coroutines) && NoDup(s.collateral)
  {
  }

  lemma CollateralReleaseHandsOver(s: State, i: nat)
    requires Lists(s) && Baton(s) && Control(s) && s.Pc(s.self) == Looping(Releasing)
    requires s.unblocked != [] && i == First(s.collateral, s.Unblockable()) < |s.collateral|
    ensures var t := AfterCollateralRelease(s);
            HandsOver(s, t, s.collateral[i]) && NoDup(t.coroutines) && NoDup(t.collateral)
  {
    var w := s.collateral[i];
    assert w in s.collateral;
    RemoveAtMembers(s.collateral, i);
    PushNoDup(s.coroutines, w);
  }

  lemma CollateralReleaseWaiters(s: State, i: nat)
    requires Lists(s) && Baton(s) && Control(s) && Waiters(s) && s.Pc(s.self) == Looping(Releasing)
    requires s.unblocked != [] && i == First(s.collateral, s.Unblockable()) < |s.collateral|
    requires HandsOver(s, AfterCollateralRelease(s), s.collateral[i])
    ensures Waiters(AfterCollateralRelease(s))
  {
    WaitersKeep(s, AfterCollateralRelease(s));
  }

  /** The first waiter on an unblocked port takes over. */
  lemma CollateralReleaseKeeps(s: State, i: nat)
    requires Inv(s) && s.Pc(s.self) == Looping(Releasing)
    requires s.unblocked != [] && i == First(s.collateral, s.Unblockable()) < |s.collateral|
    ensures Inv(AfterCollateralRelease(s))
  {
    var t := AfterCollateralRelease(s);
    var w := s.collateral[i];
    CollateralReleaseHandsOver(s, i);
    CollateralReleaseWaiters(s, i);
    HandsOverKeeps(s, t, w);
    HandsOverSameEvents(s, t, w);
    assert Pending(t) by {
      assert forall b :: b in s.switches ==> b != w && b != s.self;
    }
  }

  lemma DropUnblockedWaiters(s: State)
    requires Waiters(s) && First(s.collateral, s.Unblockable()) == |s.collateral|
    ensures Waiters(s.(unblocked := []))
  {
    var u := s.(unblocked := []);
    forall w | w in s.collateral ensures BlockedOn(u, u.At(w).port) {
      var k :| 0 <= k < |s.collateral| && s.collateral[k] == w;
      assert w !in s.Unblockable();
      var c :| c in s.coroutines && s.At(c).port == s.At(w).port;
      assert u.At(c).port == u.At(w).port;
    }
  }

  lemma DropUnblockedKeeps(s: State)
    requires Inv(s) && First(s.collateral, s.Unblockable()) == |s.collateral|
    ensures Inv(s.(unblocked := []))
  {
    var u := s.(unblocked := []);
    DropUnblockedWaiters(s);
    assert forall id :: u.At(id) == s.At(id) && u.Pc(id) == s.Pc(id);
    assert forall id, x :: InProgress(u, id, x) <==> InProgress(s, id, x);
    SameEventsKeep(s, u);
  }

  lemma GotoKeeps(s: State, w: Where)
    requires Inv(s) && s.Pc(s.self).Looping? && w.Looping?
    ensures Inv(Goto(s, w))
  {
    var t := Goto(s, w);
    assert s.self in s.where;
    SameListsKeep(s, t);
    assert forall id :: t.At(id) == s.At(id);
    assert forall id, x :: id != s.self ==> (InProgress(t, id, x) <==> InProgress(s, id, x));
    assert forall x :: !InProgress(t, s.self, x) && !InProgress(s, s.self, x);
    SameEventsKeep(s, t);
  }

  /** The coroutine in control has given up being runnable and control is about to move. */
  ghost predicate Suspended(s: State) {
    Lists(s) && Control(s) && Pending(s) && Waiters(s) && Conserved(s) && NoneRunnable(s)
  }

  ghost predicate NoneRunnable(s: State) {
    forall id :: id in s.coroutines ==> !s.Runnable(id)
  }

  lemma CreateFields(s: State)
    requires Lists(s)
    ensures var n: nat, t := s.current + 1, YieldToNew(s);
      && n !in s.co && n !in s.where && n !in s.coroutines && n !in s.collateral
      && t.self == t.current == n && t.coroutines == s.coroutines + [n] && t.collateral == s.collateral
      && t.switches == s.switches && t.co.Keys == s.co.Keys + {n} && t.where.Keys == s.where.Keys + {n}
      && t.At(n) == Coroutine(0, 0, false) && t.Pc(n) == Looping(Switching)
      && (forall id :: id != n ==> t.At(id) == s.At(id) && t.Pc(id) == s.Pc(id))
  {
  }

  lemma CreateLists(s: State)
    requires Lists(s) && Control(s) && NoneRunnable(s)
    ensures var t := YieldToNew(s); Lists(t) && Baton(t) && Control(t)
  {
    CreateControl(s);
    CreateListed(s);
    hide *;
  }

  lemma CreateListed(s: State)
    requires Lists(s)
    ensures Lists(YieldToNew(s))
  {
    var n: nat, t := s.current + 1, YieldToNew(s);
    CreateFields(s);
    PushNoDup(s.coroutines, n);
    hide *;
    GrownLists(s, t, n);
  }

  lemma GrownLists(s: State, t: State, n: nat)
    requires Lists(s) && NoDup(t.coroutines) && n == t.current == s.current + 1 && n !in s.collateral
    requires t.coroutines == s.coroutines + [n] && t.collateral == s.collateral
    requires t.co.Keys == s.co.Keys + {n} && t.where.Keys == s.where.Keys + {n}
    ensures Lists(t)
  {
    hide NoDup;
    assert forall id :: id in t.coroutines <==> id in s.coroutines || id == n;
    assert forall id :: id in t.co <==> id in t.co.Keys;
    assert forall id :: id in t.where <==> id in t.where.Keys;
    assert forall id :: id in s.co <==> id in s.co.Keys;
    assert forall id :: id in s.where <==> id in s.where.Keys;
  }

  lemma CreateControl(s: State)
    requires Lists(s) && Control(s) && NoneRunnable(s)
    ensures var t := YieldToNew(s); Baton(t) && Control(t)
  {
    CreateFields(s);
    hide YieldToNew, Lists;
  }

  lemma CreateWaiters(s: State)
    requires Lists(s) && Waiters(s)
    ensures Waiters(YieldToNew(s)) && (Pending(s) ==> Pending(YieldToNew(s)))
  {
    CreateFields(s);
    var t := YieldToNew(s);
    assert t.unblocked == s.unblocked;
    hide YieldToNew, Lists;
    assert forall id :: id in s.coroutines || id in s.collateral ==> id != t.self;
    WaitersKeep(s, t);
  }

  lemma CreateConserves(s: State)
    requires Lists(s) && Conserved(s)
    ensures Conserved(YieldToNew(s))
  {
    CreateFields(s);
    var t := YieldToNew(s);
    assert forall id, x :: InProgress(t, id, x) <==> InProgress(s, id, x);
    hide Lists, Conserved, YieldToNew, InProgress;
    SameEventsKeep(s, t);
  }

  /** A fresh coroutine takes over. */
  lemma CreateKeeps(s: State)
    requires Suspended(s)
    ensures Inv(YieldToNew(s))
  {
    hide Lists, Baton, Control, Pending, Waiters, Conserved, NoneRunnable, YieldToNew;
    CreateLists(s);
    CreateWaiters(s);
    CreateConserves(s);
  }

  /** What `Parked` does, without the sequences it builds. */
  lemma ParkedMembers(s: State, c: nat)
    requires Lists(s) && Baton(s) && s.Pc(s.self).Executing?
    ensures var r := Parked(s, c);
      && NoDup(r.coroutines) && NoDup(r.collateral)
      && (forall id :: id in r.coroutines <==> id in s.coroutines && id != s.self)
      && (forall id :: id in r.collateral <==> id in s.collateral || id == s.self)
      && (forall id :: id != s.self ==> r.At(id) == s.At(id) && r.Pc(id) == s.Pc(id))
      && r.At(s.self).port == s.At(s.Owner(c)).port && r.Pc(s.self).Waiting?
  {
    WithoutNoDup(s.coroutines, {s.self});
    PushNoDup(s.collateral, s.self);
  }

  lemma ParkedLists(s: State, r: State, c: nat)
    requires Lists(s) && Baton(s) && Control(s) && Pending(s) && s.Pc(s.self).Executing? && OwnerBlocked(s, c)
    requires r == Parked(s, c)
    ensures Lists(r) && Control(r) && Pending(r) && NoneRunnable(r)
  {
    ParkedMembers(s, c);
    assert s.Runnable(s.self);
  }

  lemma ParkedWaiters(s: State, c: nat)
    requires Lists(s) && Baton(s) && Control(s) && Waiters(s) && s.Pc(s.self).Executing? && OwnerBlocked(s, c)
    ensures Waiters(Parked(s, c))
  {
    var r := Parked(s, c);
    ParkedMembers(s, c);
    assert s.Runnable(s.self);
    assert BlockedOn(r, r.At(s.self).port) by {
      assert s.Owner(c) in r.coroutines;
    }
    WaitersKeep(s, r);
  }

  lemma ParkedConserves(s: State, c: nat)
    requires Lists(s) && Baton(s) && Conserved(s) && s.Pc(s.self).Executing?
    ensures Conserved(Parked(s, c))
  {
    var r := Parked(s, c);
    assert s.self in s.where;
    assert forall id, x :: id != s.self ==> (InProgress(r, id, x) <==> InProgress(s, id, x));
    assert forall x :: InProgress(r, s.self, x) <==> InProgress(s, s.self, x);
    SameEventsKeep(s, r);
  }

  lemma ParkedSuspends(s: State, c: nat)
    requires Inv(s) && s.Pc(s.self).Executing? && OwnerBlocked(s, c)
    ensures Suspended(Parked(s, c))
  {
    ParkedLists(s, Parked(s, c), c);
    ParkedWaiters(s, c);
    ParkedConserves(s, c);
  }

  lemma CollateralBlockKeeps(s: State, c: nat)
    requires Inv(s) && s.Pc(s.self).Executing? && OwnerBlocked(s, c)
    ensures Inv(AfterCollateralBlock(s, c))
  {
    ParkedSuspends(s, c);
    CreateKeeps(Parked(s, c));
  }

  lemma PortSetLists(s: State)
    requires Lists(s) && Baton(s) && Control(s) && Pending(s) && Committing(s)
    ensures var r := PortSet(s);
      && Lists(r) && Control(r) && Pending(r) && NoneRunnable(r) && r.At(s.self).port == Top(s).port
  {
    var r := PortSet(s);
    assert s.Runnable(s.self) && s.self in s.where;
    assert forall id :: id != s.self ==> r.At(id) == s.At(id) && r.Pc(id) == s.Pc(id);
  }

  lemma PortSetWaiters(s: State)
    requires Lists(s) && Baton(s) && Control(s) && Waiters(s) && Committing(s)
    ensures Waiters(PortSet(s))
  {
    var r := PortSet(s);
    assert s.Runnable(s.self);
    assert forall id :: id != s.self ==> r.At(id) == s.At(id);
    WaitersKeep(s, r);
  }

  lemma PortSetConserves(s: State)
    requires Lists(s) && Baton(s) && Conserved(s) && Committing(s)
    ensures Conserved(PortSet(s))
  {
    assert s.self in s.where;
    hide Conserved;
    SameWorkKeeps(s, PortSet(s));
  }

  lemma PortSetSuspends(s: State)
    requires Inv(s) && Committing(s)
    ensures Suspended(PortSet(s)) && PortSet(s).At(s.self).port == Top(s).port
  {
    hide Lists, Baton, Control, Pending, Waiters, Conserved, NoneRunnable, PortSet, Committing;
    PortSetLists(s);
    PortSetWaiters(s);
    PortSetConserves(s);
  }

  lemma RelayMembers(s: State, relayed: set<nat>, w: nat)
    requires Lists(s) && Control(s) && Within(s.collateral, relayed) == [w]
    requires forall id :: id in relayed ==> id in s.collateral
    ensures relayed == {w} && w in s.collateral
    ensures var t := Relay(s, relayed);
      && t.coroutines == s.coroutines + [w]
      && NoDup(t.coroutines) && NoDup(t.collateral)
      && (forall id :: id in t.collateral <==> id in s.collateral && id != w)
      && (forall id :: id != w ==> t.At(id) == s.At(id))
      && t.At(w).port == 0 && !t.At(w).finished
  {
    assert w in Within(s.collateral, relayed);
    assert Reverse([w]) == [w];
    WithoutNoDup(s.collateral, relayed);
    PushNoDup(s.coroutines, w);
    forall id | id in relayed ensures id == w { assert id in Within(s.collateral, relayed); }
  }

  lemma RelayFields(s: State, relayed: set<nat>, w: nat)
    requires Lists(s) && Control(s) && Within(s.collateral, relayed) == [w]
    requires forall id :: id in relayed ==> id in s.collateral
    ensures var t := YieldToLast(Relay(s, relayed));
      && t.self == w && w in s.collateral && t.current == s.current && t.switches == s.switches
      && NoDup(t.coroutines) && NoDup(t.collateral) && t.where == s.where && t.co.Keys == s.co.Keys
      && (forall id :: id in t.coroutines <==> id in s.coroutines || id == w)
      && (forall id :: id in t.collateral <==> id in s.collateral && id != w)
      && (forall id :: id != w ==> t.At(id) == s.At(id)) && t.At(w).port == 0 && !t.At(w).finished
  {
    RelayMembers(s, relayed, w);
    var r, t := Relay(s, relayed), YieldToLast(Relay(s, relayed));
    assert forall id :: t.At(id) == r.At(id);
    hide Lists, Control, Reverse, Within, NoDup;
  }

  lemma RelayLists(s: State, relayed: set<nat>, w: nat)
    requires Lists(s) && Control(s) && Pending(s) && NoneRunnable(s) && Within(s.collateral, relayed) == [w]
    requires forall id :: id in relayed ==> id in s.collateral
    ensures var t := YieldToLast(Relay(s, relayed)); Lists(t) && Baton(t) && Control(t) && Pending(t)
  {
    var t := YieldToLast(Relay(s, relayed));
    RelayFields(s, relayed, w);
    hide *;
    RelayListed(s, t, w);
    RelayControl(s, t, w);
  }

  lemma RelayControl(s: State, t: State, w: nat)
    requires Control(s) && Pending(s) && NoneRunnable(s) && Lists(s) && w in s.collateral && t.self == w
    requires t.where == s.where && t.switches == s.switches
    requires forall id :: id in t.coroutines <==> id in s.coroutines || id == w
    requires forall id :: id in t.collateral <==> id in s.collateral && id != w
    requires (forall id :: id != w ==> t.At(id) == s.At(id)) && t.At(w).port == 0 && !t.At(w).finished
    ensures Baton(t) && Control(t) && Pending(t)
  {
    assert forall id :: t.Pc(id) == s.Pc(id);
    assert w !in s.coroutines;
    hide Lists, NoDup;
  }

  lemma RelayListed(s: State, t: State, w: nat)
    requires Lists(s) && NoDup(t.coroutines) && NoDup(t.collateral) && w in s.collateral
    requires t.where == s.where && t.co.Keys == s.co.Keys && t.current == s.current
    requires forall id :: id in t.coroutines <==> id in s.coroutines || id == w
    requires forall id :: id in t.collateral <==> id in s.collateral && id != w
    ensures Lists(t)
  {
    hide NoDup;
    assert forall id :: id in t.co <==> id in t.co.Keys;
    assert forall id :: id in s.co <==> id in s.co.Keys;
  }

  lemma RelayWaiters(s: State, relayed: set<nat>, w: nat)
    requires Lists(s) && Control(s) && Waiters(s) && Within(s.collateral, relayed) == [w]
    requires forall id :: id in relayed ==> id in s.collateral
    ensures Waiters(YieldToLast(Relay(s, relayed)))
  {
    RelayMembers(s, relayed, w);
    var r, t := Relay(s, relayed), YieldToLast(Relay(s, relayed));
    assert forall id :: t.At(id) == r.At(id);
    assert t.unblocked == s.unblocked && t.coroutines == s.coroutines + [w] && t.collateral == r.collateral;
    assert w !in s.coroutines;
    hide Lists, Control, Relay, YieldToLast;
    WaitersKeep(s, t);
  }

  lemma SameWhereKeeps(s: State, t: State)
    requires Conserved(s) && t.where == s.where
    requires t.queue == s.queue && t.completed == s.completed && t.posted == s.posted
    ensures Conserved(t)
  {
    assert forall id, x :: InProgress(t, id, x) <==> InProgress(s, id, x);
    hide Conserved, InProgress;
    SameEventsKeep(s, t);
  }

  /** The one relayed waiter takes over. */
  lemma RelayKeeps(s: State, relayed: set<nat>, w: nat)
    requires Suspended(s) && Within(s.collateral, relayed) == [w]
    requires forall id :: id in relayed ==> id in s.collateral
    ensures Inv(YieldToLast(Relay(s, relayed)))
  {
    hide Lists, Baton, Control, Pending, Waiters, Conserved, NoneRunnable;
    RelayLists(s, relayed, w);
    RelayWaiters(s, relayed, w);
    SameWhereKeeps(s, YieldToLast(Relay(s, relayed)));
  }

  lemma RetargetFields(s: State, port: nat)
    requires First(s.collateral, s.Unblockable()) < |s.collateral| && Lists(s)
    ensures var t, w := Retarget(s, port), s.collateral[First(s.collateral, s.Unblockable())];
      && t == s.(co := t.co) && t.co.Keys == s.co.Keys
      && w in s.collateral && t.At(w) == s.At(w).(port := port)
      && (forall id :: id != w ==> t.At(id) == s.At(id))
      && (forall id :: t.Pc(id) == s.Pc(id))
  {
    var w := s.collateral[First(s.collateral, s.Unblockable())];
    assert w in s.collateral;
  }

  lemma RetargetLists(s: State, port: nat)
    requires Lists(s) && Control(s) && Pending(s) && NoneRunnable(s) && port != 0
    requires First(s.collateral, s.Unblockable()) < |s.collateral|
    ensures var t := Retarget(s, port); Lists(t) && Control(t) && Pending(t) && NoneRunnable(t)
  {
    RetargetFields(s, port);
    hide Retarget, First;
    var t := Retarget(s, port);
    assert forall id :: id in s.coroutines ==> t.At(id) == s.At(id);
  }

  /** Re-targeting moves a waiter to a port that a coroutine is blocked on. */
  lemma RetargetKeeps(s: State, port: nat, b: nat)
    requires Suspended(s) && b in s.coroutines && s.At(b).port == port && port != 0
    ensures Suspended(Retarget(s, port))
  {
    var i := First(s.collateral, s.Unblockable());
    if i < |s.collateral| {
      var t := Retarget(s, port);
      RetargetFields(s, port);
      RetargetLists(s, port);
      assert b !in s.collateral && 0 !in s.unblocked;
      hide Retarget, First, Conserved, Lists, Control, Pending, NoneRunnable;
      assert BlockedOn(t, port) by { assert t.At(b).port == port; }
      WaitersKeep(s, t);
      assert forall id, x :: InProgress(t, id, x) <==> InProgress(s, id, x);
      SameEventsKeep(s, t);
    }
  }

  /** A block that is skipped keeps control. */
  lemma FallThroughKeeps(s: State)
    requires Inv(s) && Committing(s) && FallsThrough(s)
    ensures Inv(AfterBlockCommit(s))
  {
    var t := AfterBlockCommit(s);
    SameListsKeep(s, t);
    assert Pending(t) by { assert forall id :: t.At(id) == s.At(id); }
    SameWorkKeeps(s, t);
  }

  /** Nothing happens to the events when the coroutine in control stays in the same work. */
  lemma SameWorkKeeps(s: State, t: State)
    requires Lists(s) && Baton(s) && Conserved(s)
    requires t.queue == s.queue && t.completed == s.completed && t.posted == s.posted
    requires s.self in t.where && t.where == s.where[s.self := t.where[s.self]]
    requires s.where[s.self].Busy() && t.where[s.self].Busy() && t.where[s.self].work == s.where[s.self].work
    ensures Conserved(t)
  {
    assert forall id, x :: id != s.self ==> (InProgress(t, id, x) <==> InProgress(s, id, x));
    assert forall x :: InProgress(t, s.self, x) <==> InProgress(s, s.self, x);
    SameEventsKeep(s, t);
  }

  lemma BlockYieldKeeps(s: State)
    requires Inv(s) && Committing(s) && !FallsThrough(s) && AtMostOneRelay(s, Top(s).component)
    ensures Inv(AfterBlockCommit(s))
  {
    var r := PortSet(s);
    var c, port := Top(s).component, Top(s).port;
    PortSetSuspends(s);
    SameRelays(s);
    var moved := Within(r.collateral, r.Relayable(c));
    if moved != [] {
      assert moved == [moved[0]];
      RelayKeeps(r, r.Relayable(c), moved[0]);
      RelayMembers(r, r.Relayable(c), moved[0]);
    } else {
      RetargetKeeps(r, port, s.self);
      CreateKeeps(Retarget(r, port));
    }
  }

  /** Setting the port of the blocking coroutine changes none of the waiters. */
  lemma SameRelays(s: State)
    requires Lists(s) && Baton(s) && Committing(s)
    ensures PortSet(s).Relayable(Top(s).component) == s.Relayable(Top(s).component)
    ensures PortSet(s).Unblockable() == s.Unblockable()
  {
    assert forall id :: id in s.collateral ==> PortSet(s).At(id) == s.At(id);
  }

  /** The state after the resumed half of `block`. */
  lemma BlockResumeMembers(s: State)
    requires Lists(s) && Baton(s) && Control(s) && s.Pc(s.self).Blocking?
    ensures var t := AfterBlockResume(s);
      && NoDup(t.coroutines)
      && (forall id :: id in t.coroutines <==> id in s.coroutines && !s.At(id).finished)
      && (forall id :: id in t.coroutines || id in t.collateral ==> t.At(id) == s.At(id))
      && (forall id :: id in t.coroutines || id in t.collateral ==> id != s.self ==> t.Pc(id) == s.Pc(id))
      && (forall id :: id in t.co <==> id in t.coroutines || id in t.collateral)
      && (forall id :: id in t.where <==> id in t.coroutines || id in t.collateral)
      && s.self in t.where && s.self !in s.collateral
  {
    WithoutNoDup(s.coroutines, s.Finished());
    assert s.Runnable(s.self);
  }

  lemma BlockResumeLists(s: State)
    requires Lists(s) && Baton(s) && Control(s) && Pending(s) && s.Pc(s.self).Blocking?
    ensures var t := AfterBlockResume(s); Lists(t) && Baton(t) && Control(t) && Pending(t)
  {
    BlockResumeControl(s);
    BlockResumeListed(s);
    hide *;
  }

  lemma BlockResumeListed(s: State)
    requires Lists(s) && Baton(s) && Control(s) && s.Pc(s.self).Blocking?
    ensures Lists(AfterBlockResume(s))
  {
    BlockResumeMembers(s);
    hide NoDup;
  }

  lemma BlockResumeControl(s: State)
    requires Lists(s) && Baton(s) && Control(s) && Pending(s) && s.Pc(s.self).Blocking?
    ensures var t := AfterBlockResume(s); Baton(t) && Control(t) && Pending(t)
  {
    BlockResumeMembers(s);
    var t := AfterBlockResume(s);
    assert t.self == s.self && t.collateral == s.collateral && t.switches == s.switches && t.Pc(s.self).Executing?;
    hide *;
    SweptControl(s, t);
  }

  lemma SweptControl(s: State, t: State)
    requires Baton(s) && Control(s) && Pending(s)
    requires t.self == s.self && t.collateral == s.collateral && t.switches == s.switches && t.Pc(s.self).Executing?
    requires forall id :: id in t.coroutines <==> id in s.coroutines && !s.At(id).finished
    requires forall id :: id in t.coroutines || id in t.collateral ==> t.At(id) == s.At(id)
    requires forall id :: id in t.coroutines || id in t.collateral ==> id != s.self ==> t.Pc(id) == s.Pc(id)
    requires s.self !in s.collateral
    ensures Baton(t) && Control(t) && Pending(t)
  {
    assert s.Runnable(s.self);
  }

  lemma BlockResumeWaiters(s: State)
    requires Lists(s) && Baton(s) && Control(s) && Waiters(s) && s.Pc(s.self).Blocking?
    ensures Waiters(AfterBlockResume(s))
  {
    BlockResumeMembers(s);
    var t := AfterBlockResume(s);
    assert t.collateral == s.collateral && t.unblocked == s.unblocked;
    hide AfterBlockResume;
    WaitersKeep(s, t);
  }

  lemma BlockResumeConserves(s: State)
    requires Lists(s) && Baton(s) && Control(s) && Conserved(s) && s.Pc(s.self).Blocking?
    ensures Conserved(AfterBlockResume(s))
  {
    var t := AfterBlockResume(s);
    BlockResumeMembers(s);
    assert forall id, x :: id != s.self ==> (InProgress(t, id, x) <==> InProgress(s, id, x)) by {
      forall id, x | InProgress(s, id, x) && id != s.self ensures InProgress(t, id, x) {
        assert !s.Pc(id).Gone?;
      }
    }
    assert forall x :: InProgress(t, s.self, x) <==> InProgress(s, s.self, x);
    SameEventsKeep(s, t);
  }

  /** Removing the finished coroutines discards no work and no blocked coroutine. */
  lemma BlockResumeKeeps(s: State)
    requires Inv(s) && s.Pc(s.self).Blocking?
    ensures Inv(AfterBlockResume(s))
  {
    hide Lists, Baton, Control, Pending, Waiters, Conserved, AfterBlockResume;
    BlockResumeLists(s);
    BlockResumeWaiters(s);
    BlockResumeConserves(s);
  }

  /** The one runnable coroutine of the list is the one in control. */
  lemma RunnableIsSelf(s: State)
    requires Inv(s)
    ensures NoDup(s.coroutines) && s.self in s.coroutines
    ensures forall id :: id in s.coroutines ==>
              id in s.co && (s.co[id].port == 0 && !s.co[id].finished <==> id == s.self)
  {
    assert forall id :: id in s.coroutines ==> (s.Runnable(id) <==> id == s.self);
  }

  lemma SelfKnown(s: State)
    requires Inv(s)
    ensures s.self in s.co && s.self in s.where && s.self in s.coroutines
    ensures forall id :: id in s.coroutines || id in s.collateral ==> id in s.co
  {
  }

  lemma WaiterKnown(s: State, i: nat)
    requires Inv(s) && i < |s.collateral|
    ensures s.collateral[i] in s.co && s.collateral[i] != s.self && s.self in s.co
  {
    assert s.collateral[i] in s.collateral;
  }

  lemma ListsKnown(s: State)
    requires Inv(s)
    ensures Lists(s)
  {
  }

  lemma RelayNothing(s: State, relayed: set<nat>)
    requires Within(s.collateral, relayed) == [] && relayed <= set id | id in s.collateral
    ensures Relay(s, relayed) == s
  {
    assert relayed == {} by {
      assert forall id :: id in relayed ==> id in Within(s.collateral, relayed);
    }
    WithoutNothing(s.collateral);
    assert Cleared(s.co, {}) == s.co;
    assert s.coroutines + [] == s.coroutines;
  }

  lemma SwitchHead(s: State)
    requires Inv(s) && s.switches != []
    ensures s.switches[0] in s.co && s.switches[0] != s.self && s.self in s.co
  {
    assert s.switches[0] in s.switches;
  }

  /** What the closure of a pending switch edits. */
  lemma SwitchFields(s: State)
    requires s.switches != [] && s.switches[0] in s.co && s.self in s.co && s.switches[0] != s.self
    ensures var t, b := YieldToBlocked(s), s.switches[0];
      && t == s.(switches := s.switches[1..], unblocked := s.unblocked + [s.co[b].port], co := t.co,
                 where := s.where[s.self := Gone], self := b)
      && t.co == s.co[b := s.co[b].(component := 0, port := 0)][s.self := s.co[s.self].(finished := true)]
  {
  }

  /** What handing over to the waiter at index `i` edits. */
  lemma WaiterFields(s: State, i: nat)
    requires i < |s.collateral| && s.collateral[i] in s.co && s.self in s.co && s.collateral[i] != s.self
    ensures var t, w := YieldToWaiter(s, i), s.collateral[i];
      && t == s.(collateral := RemoveAt(s.collateral, i), coroutines := s.coroutines + [w], co := t.co,
                 where := s.where[s.self := Gone], self := w)
      && t.co == s.co[w := s.co[w].(port := 0)][s.self := s.co[s.self].(finished := true)]
  {
    hide RemoveAt;
  }

  /** The owner of a component is blocked when it is found in the list without the coroutine in control. */
  lemma OwnerIs(s: State, c: nat)
    requires forall id :: id in s.coroutines ==> id in s.co
    ensures OwnerBlocked(s, c) <==> s.Owner(c) in Without(s.coroutines, {s.self}) && s.co[s.Owner(c)].port != 0
    ensures OwnerBlocked(s, c) ==> s.Owner(c) != s.self
    ensures forall id :: id in Without(s.coroutines, {s.self}) ==> id in s.co && id != s.self
  {
  }

  /** What a coroutine that is to wait collaterally edits. */
  lemma ParkedFields(s: State, c: nat)
    requires s.self in s.co && s.self in s.where && s.where[s.self].Executing? && s.Owner(c) in s.co
    ensures var t, pc := Parked(s, c), s.where[s.self];
      && t == s.(coroutines := Without(s.coroutines, {s.self}), collateral := s.collateral + [s.self],
                 co := t.co, where := s.where[s.self := Waiting(pc.work, pc.next, pc.frames)])
      && t.co == s.co[s.self := Coroutine(c, s.co[s.Owner(c)].port, s.co[s.self].finished)]
  {
    hide Without;
  }

  /** What `block` edits once the component queue has been flushed. */
  lemma CommitFields(s: State)
    requires Committing(s) && s.self in s.co && s.self in s.where
    ensures var pc, top, outer := s.where[s.self], Top(s), s.where[s.self].frames[..|s.where[s.self].frames| - 1];
      && (FallsThrough(s) <==> Lookup(s.skip, top.component) == top.port)
      && (FallsThrough(s) ==>
            AfterBlockCommit(s) == s.(where := s.where[s.self := Executing(pc.work, pc.next, outer)],
                                      handling := s.handling[top.component := 0],
                                      skip := s.skip[top.component := 0]))
      && (!FallsThrough(s) ==> AfterBlockCommit(s) == Yield(PortSet(s), top.component, top.port))
      && PortSet(s) == s.(handling := s.handling[top.component := 0],
                          co := s.co[s.self := s.co[s.self].(port := top.port)],
                          where := s.where[s.self := Blocking(pc.work, pc.next, outer, top.component)])
  {
    hide Yield, Lookup;
  }

  lemma PortSetListed(s: State)
    requires Inv(s) && Committing(s)
    ensures Lists(PortSet(s)) && forall id :: id in PortSet(s).collateral ==> id in PortSet(s).co
  {
    PortSetSuspends(s);
  }

  lemma YieldIs(s: State, c: nat, port: nat)
    ensures var relayed := s.Relayable(c);
      if Within(s.collateral, relayed) != [] then
        var r := Relay(s, relayed);
        r.coroutines != [] && Yield(s, c, port) == r.(self := r.coroutines[|r.coroutines| - 1])
      else
        var r := Retarget(s, port);
        Yield(s, c, port) == Create(r).(self := r.current + 1)
    ensures s.Relayable(c) <= set id | id in s.collateral
  {
    hide Relay, Retarget, Within;
  }

  lemma SwitchStep(s: State)
    requires Inv(s) && s.Pc(s.self) == Looping(Switching)
    ensures Inv(AfterContextSwitch(s))
  {
    if s.switches == [] { GotoKeeps(s, Looping(Queueing)); } else { ContextSwitchKeeps(s); }
  }

  lemma ReleaseStep(s: State)
    requires Inv(s) && s.Pc(s.self) == Looping(Releasing)
    ensures Inv(AfterCollateralRelease(s))
  {
    var i := First(s.collateral, s.Unblockable());
    if s.unblocked != [] && i < |s.collateral| {
      CollateralReleaseKeeps(s, i);
    } else if s.unblocked != [] {
      DropUnblockedKeeps(s);
      GotoKeeps(s.(unblocked := []), Looping(Switching));
    } else {
      GotoKeeps(s, Looping(Switching));
    }
  }

  lemma CommitStep(s: State)
    requires Inv(s) && Committing(s) && (FallsThrough(s) || AtMostOneRelay(s, Top(s).component))
    ensures Inv(AfterBlockCommit(s))
  {
    if FallsThrough(s) { FallThroughKeeps(s); } else { BlockYieldKeeps(s); }
  }

  /** Every step keeps the invariant. */
  lemma StepKeeps(s: State, a: Action)
    requires Inv(s) && Enabled(s, a)
    ensures Inv(Apply(s, a))
  {
    hide Lists, Baton, Control, Pending, Waiters, Conserved, AtMostOneRelay, FallsThrough;
    match a
    case ContextSwitch => SwitchStep(s);
    case CollateralRelease => ReleaseStep(s);
    case CollateralBlock(c) => CollateralBlockKeeps(s, c);
    case BlockCommit => CommitStep(s);
    case BlockResume => BlockResumeKeeps(s);
    case _ => LocalKeeps(s, a);
  }

  lemma StartInv()
    ensures Inv(START)
  {
    assert NoDup([1]) by { assert [1][1..] == []; }
    assert forall id :: id in START.coroutines <==> id == 1;
  }

  lemma {:induction false} RunKeeps(s: State, steps: seq<Action>, t: State)
    requires Inv(s) && Runs(s, steps, t)
    ensures Inv(t)
    decreases |steps|
  {
    if steps != [] {
      StepKeeps(s, steps[0]);
      RunKeeps(Apply(s, steps[0]), steps[1..], t);
    }
  }
}
