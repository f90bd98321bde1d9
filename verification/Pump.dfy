/** The pump of runtime/c++/pump.cc: an object whose methods edit its lists in place.

    A method of the source that yields in the middle is cut there: `BlockEnter`,
    `BlockCommit` and `BlockResume` are the three stretches of `block`, with the flush of the
    component queue between the first two and the suspension between the last two. */
module Pump {
  import opened Sequences
  import opened PumpModel
  import opened PumpProofs
  import opened PumpScan

  class Pump {
    var coroutines: seq<nat>
    var collateral: seq<nat>
    var co: map<nat, Coroutine>
    var unblocked: seq<nat>
    var switches: seq<nat>
    var queue: seq<nat>
    var current: nat
    var handling: map<nat, nat>
    var blockedBy: map<nat, nat>
    var skip: map<nat, nat>
    // where control is, which the source keeps in program counters and stacks
    ghost var self: nat
    ghost var where: map<nat, Where>
    ghost var posted: set<nat>
    ghost var completed: seq<nat>

    ghost function St(): State
      reads this
    {
      State(coroutines, collateral, co, unblocked, switches, queue, current, handling, blockedBy,
            skip, self, where, posted, completed)
    }

    constructor ()
      ensures St() == START && Inv(St())
    {
      coroutines, collateral, unblocked, switches, queue := [], [], [], [], [];
      co, handling, blockedBy, skip, current := map[], map[], map[], map[], 0;
      self, where, posted, completed := 1, map[], {}, [];
      new;
      CreateContext();
      assert START.coroutines == [] + [1];
      StartInv();
    }

    /** How many coroutines are runnable. */
    method CountRunnable() returns (count: nat)
      requires Inv(St())
      ensures count == 1
    {
      RunnableIsSelf(St());
      hide Inv, NoDup;
      count := 0;
      for i := 0 to |coroutines|
        invariant count == if self in coroutines[..i] then 1 else 0
      {
        assert coroutines[i] in coroutines;
        PrefixStep(coroutines, i, self);
        if co[coroutines[i]].port == 0 && !co[coroutines[i]].finished {
          count := count + 1;
        }
      }
      assert coroutines[..|coroutines|] == coroutines;
    }

    /** The one runnable coroutine; the count is what the source asserts. */
    method FindSelf() returns (id: nat)
      requires Inv(St())
      ensures id == self && id in coroutines && id in co
    {
      var count := CountRunnable();
      assert count == 1;
      RunnableIsSelf(St());
      hide Inv, NoDup;
      ghost var k := IndexOf(coroutines, self);
      var i := 0;
      while !(co[coroutines[i]].port == 0 && !co[coroutines[i]].finished)
        invariant 0 <= i <= k
        decreases k - i
      {
        assert coroutines[i] in coroutines && coroutines[i] != self;
        i := i + 1;
      }
      assert coroutines[i] in coroutines;
      id := coroutines[i];
    }

    /** The index of the first coroutine blocked on `port`, or past the end. */
    method FindBlocked(port: nat) returns (i: nat)
      requires forall id :: id in coroutines ==> id in co
      ensures i == St().FindBlocked(port)
    {
      ghost var wanted := set id | id in coroutines && St().At(id).port == port;
      i := 0;
      while i < |coroutines| && co[coroutines[i]].port != port
        invariant i <= |coroutines|
        invariant forall k :: 0 <= k < i ==> coroutines[k] !in wanted
        decreases |coroutines| - i
      {
        assert coroutines[i] in coroutines;
        i := i + 1;
      }
      assert i < |coroutines| ==> coroutines[i] in coroutines;
      FirstIs(coroutines, wanted, i);
    }

    /** The index of the first waiter whose port is unblocked, or past the end. */
    method FindUnblockable() returns (i: nat)
      requires forall id :: id in collateral ==> id in co
      ensures i == First(collateral, St().Unblockable())
    {
      i := 0;
      while i < |collateral| && co[collateral[i]].port !in unblocked
        invariant i <= |collateral|
        invariant forall k :: 0 <= k < i ==> collateral[k] !in St().Unblockable()
        decreases |collateral| - i
      {
        assert collateral[i] in collateral;
        i := i + 1;
      }
      assert i < |collateral| ==> collateral[i] in collateral;
      FirstIs(collateral, St().Unblockable(), i);
    }

    /** A new coroutine at the end of the list. */
    method CreateContext()
      modifies this
      ensures St() == Create(old(St()))
    {
      current := current + 1;
      coroutines := coroutines + [current];
      co := co[current := Coroutine(0, 0, false)];
      where := where[current := Looping(Switching)];
    }

    /** Hands control back to the pending switch at the front, if there is one. */
    method ContextSwitch()
      requires Inv(St()) && St().Pc(self) == Looping(Switching)
      modifies this
      ensures St() == AfterContextSwitch(old(St())) && Inv(St())
    {
      hide Inv;
      SwitchStep(St());
      if |switches| > 0 {
        YieldToBlocked();
      } else {
        where := where[self := Looping(Queueing)];
      }
    }

    method YieldToBlocked()
      requires Inv(St()) && switches != []
      modifies `switches, `unblocked, `co, `where, `self
      ensures St() == PumpModel.YieldToBlocked(old(St()))
    {
      hide Inv, PumpModel.YieldToBlocked;
      ghost var s := St();
      SwitchHead(s);
      SwitchFields(s);
      var me := FindSelf();
      var blocked := switches[0];
      var port := co[blocked].port;
      var resumed := co[blocked := co[blocked].(component := 0, port := 0)];
      switches, unblocked := switches[1..], unblocked + [port];
      co := resumed[me := resumed[me].(finished := true)];
      where, self := where[me := Gone], blocked;
    }

    /** The first stage of the worker: an event at the front of the queue is executed. */
    method TakeQueued() returns (event: nat)
      requires Inv(St()) && St().Pc(self) == Looping(Queueing)
      modifies this
      ensures St() == AfterTakeQueued(old(St())) && Inv(St())
      ensures old(queue) != [] ==> event == old(queue[0]) && InProgress(St(), self, event)
    {
      hide Inv;
      LocalKeeps(St(), PumpModel.TakeQueued);
      event := 0;
      if |queue| > 0 {
        event := queue[0];
        queue := queue[1..];
        where := where[self := Executing(Posted(event), Deferring, [])];
      } else {
        where := where[self := Looping(Deferring)];
      }
    }

    /** The work that the worker executes has come to its end. */
    method EndWork()
      requires Inv(St()) && St().Pc(self).Executing? && where[self].frames == []
      modifies `where, `completed
      ensures St() == AfterEndWork(old(St())) && Inv(St())
    {
      hide Inv;
      LocalKeeps(St(), PumpModel.EndWork);
      ghost var pc := where[self];
      where := where[self := Looping(pc.next)];
      if pc.work.Posted? {
        completed := completed + [pc.work.id];
      }
    }

    method Post(event: nat)
      requires Inv(St()) && event !in posted
      modifies `queue, `posted
      ensures queue == old(queue) + [event] && posted == old(posted) + {event} && Inv(St())
    {
      hide Inv;
      LocalKeeps(St(), PumpModel.Post(event));
      queue := queue + [event];
      posted := posted + {event};
    }

    /** The coroutine in control moves to the waiters and takes the port that blocks
        `component`; `ok` is false when no such port is found, where the source throws. */
    method Park(component: nat) returns (ok: bool)
      requires self in co && self in where && where[self].Executing? && Inv(St())
      modifies `coroutines, `collateral, `co, `where
      ensures ok <==> OwnerBlocked(old(St()), component)
      ensures ok ==> St() == Parked(old(St()), component)
    {
      hide Inv, Without, Lookup, Parked;
      ghost var before, pc := St(), where[self];
      SelfKnown(before);
      var me := FindSelf();
      OwnerIs(before, component);
      coroutines, collateral := Without(coroutines, {me}), collateral + [me];
      var waiter := co[me].(component := component);
      var owner := if Lookup(handling, component) != 0 then Lookup(handling, component)
                   else Lookup(blockedBy, component);
      if owner !in coroutines || co[owner].port == 0 {
        co := co[me := waiter];
        return false;
      }
      co := co[me := waiter.(port := co[owner].port)];
      where := where[me := Waiting(pc.work, pc.next, pc.frames)];
      ParkedFields(before, component);
      return true;
    }

    /** The coroutine in control waits collaterally behind the one blocked in `component`. */
    method CollateralBlock(component: nat) returns (ok: bool)
      requires Inv(St()) && St().Pc(self).Executing?
      modifies this
      ensures ok <==> OwnerBlocked(old(St()), component)
      ensures ok ==> St() == AfterCollateralBlock(old(St()), component) && Inv(St())
    {
      hide Inv;
      ghost var before := St();
      SelfKnown(before);
      ok := Park(component);
      if ok {
        CreateContext();
        self := current;
        CollateralBlockKeeps(before, component);
      }
    }

    /** After the worker: the first waiter on an unblocked port takes over; with no such waiter
        the unblocked ports are dropped. */
    method CollateralRelease()
      requires Inv(St()) && St().Pc(self) == Looping(Releasing)
      modifies this
      ensures St() == AfterCollateralRelease(old(St())) && Inv(St())
    {
      hide Inv, First, RemoveAt;
      ReleaseStep(St());
      if |unblocked| == 0 {
        where := where[self := Looping(Switching)];
        return;
      }
      SelfKnown(St());
      var i := FindUnblockable();
      if i != |collateral| {
        YieldToWaiter(i);
      } else {
        unblocked := [];
        where := where[self := Looping(Switching)];
      }
    }

    method YieldToWaiter(i: nat)
      requires Inv(St()) && i < |collateral|
      modifies `coroutines, `collateral, `co, `where, `self
      ensures St() == PumpModel.YieldToWaiter(old(St()), i)
    {
      hide Inv, PumpModel.YieldToWaiter, RemoveAt;
      ghost var s := St();
      WaiterKnown(s, i);
      WaiterFields(s, i);
      var me := FindSelf();
      var waiter := collateral[i];
      var released := co[waiter := co[waiter].(port := 0)];
      coroutines, collateral := coroutines + [waiter], RemoveAt(collateral, i);
      co := released[me := released[me].(finished := true)];
      where, self := where[me := Gone], waiter;
    }

    /** `block` up to the flush of the component queue. */
    method BlockEnter(component: nat, port: Pointer)
      requires Inv(St()) && St().Pc(self).Executing?
      modifies this
      ensures St() == AfterBlockEnter(old(St()), component, port) && Inv(St())
    {
      hide Inv;
      BlockEnterKeeps(St(), component, port);
      SelfKnown(St());
      var me := FindSelf();
      blockedBy := blockedBy[component := me];
      handling := handling[component := 0];
      // the flush marks the component as handled by this coroutine
      handling := handling[component := me];
      where := where[me := Executing(where[me].work, where[me].next, where[me].frames + [Frame(component, port)])];
      assert handling == old(handling)[component := me];
    }

    /** `block` after the flush: falls through when the port was released before, else yields. */
    method BlockCommit(component: nat, port: Pointer)
      requires Inv(St()) && Committing(St()) && Top(St()) == Frame(component, port)
      requires FallsThrough(St()) || AtMostOneRelay(St(), component)
      modifies this
      ensures St() == AfterBlockCommit(old(St())) && Inv(St())
    {
      hide Inv, Lookup, AfterBlockCommit, PortSet, Yield;
      ghost var before, pc := St(), where[self];
      ghost var outer := pc.frames[..|pc.frames| - 1];
      CommitStep(before);
      SelfKnown(before);
      CommitFields(before);
      var me := FindSelf();
      handling := handling[component := 0];
      if Lookup(skip, component) == port {
        skip := skip[component := 0];
        where := where[me := Executing(pc.work, pc.next, outer)];
        return;
      }
      co := co[me := co[me].(port := port)];
      where := where[me := Blocking(pc.work, pc.next, outer, component)];
      YieldFromBlock(before, component, port);
    }

    /** Control goes to the relayed waiter, or to a fresh coroutine. */
    method YieldFromBlock(ghost before: State, component: nat, port: Pointer)
      requires Inv(before) && Committing(before) && St() == PortSet(before)
      modifies this
      ensures St() == Yield(PortSet(before), component, port)
    {
      hide Inv, Lists, PortSet, Within, Without, First, Suspended, Retarget, Relay, Yield, Committing;
      ghost var s := St();
      PortSetListed(before);
      YieldIs(s, component, port);
      var skipped := CollateralReleaseSkipBlock(component);
      if !skipped {
        RelayNothing(s, s.Relayable(component));
        Retargeted(port);
        CreateContext();
        self := current;
      } else {
        self := coroutines[|coroutines| - 1];
      }
    }

    /** The first waiter on an unblocked port, if any, waits on `port` from now on. */
    method Retargeted(port: Pointer)
      requires forall id :: id in collateral ==> id in co
      modifies `co
      ensures St() == Retarget(old(St()), port)
    {
      hide First;
      var i := FindUnblockable();
      if i != |collateral| {
        assert collateral[i] in collateral;
        co := co[collateral[i] := co[collateral[i]].(port := port)];
      }
    }

    /** The waiters of `component` on an unblocked port become runnable, the oldest one last. */
    method CollateralReleaseSkipBlock(component: nat) returns (moved: bool)
      requires Lists(St())
      modifies `coroutines, `collateral, `co
      ensures St() == Relay(old(St()), old(St().Relayable(component)))
      ensures moved <==> Within(old(collateral), old(St().Relayable(component))) != []
    {
      hide Lists, Scanned, Relay, Reverse, Within;
      ghost var s := St();
      ghost var seen: nat := 0;
      var i := 0;
      ScanStart(s, component);
      collateral := Reverse(collateral);
      moved := false;
      while i < |collateral|
        invariant Scanned(s, component, seen, i, St(), moved)
        decreases |collateral| - i
      {
        ghost var t := St();
        ScanStep(s, component, seen, i, t, moved);
        var id := collateral[i];
        if co[id].component == component && co[id].port in unblocked {
          moved := true;
          MoveOut(i);
        } else {
          i := i + 1;
        }
        seen := seen + 1;
      }
      ScanEnd(s, component, seen, i, St(), moved);
      collateral := Reverse(collateral);
    }

    /** The waiter at index `i` waits no more. */
    method MoveOut(i: nat)
      requires i < |collateral| && collateral[i] in co
      modifies `coroutines, `collateral, `co
      ensures St() == Take(old(St()), i)
    {
      hide RemoveAt;
      var id := collateral[i];
      co := co[id := co[id].(component := 0, port := 0)];
      coroutines, collateral := coroutines + [id], RemoveAt(collateral, i);
    }

    /** The finished coroutines are discarded. */
    method RemoveFinished()
      requires Lists(St())
      modifies `coroutines, `co, `where
      ensures var s := old(St());
        St() == s.(coroutines := Without(s.coroutines, s.Finished()), co := s.co - s.Finished(),
                   where := s.where - s.Finished())
    {
      hide Lists, Swept;
      ghost var s := St();
      ghost var seen: nat := 0;
      var i := 0;
      SweepStart(s);
      while i < |coroutines|
        invariant Swept(s, seen, i, St())
        decreases |coroutines| - i
      {
        SweepStep(s, seen, i, St());
        var id := coroutines[i];
        if co[id].finished {
          coroutines, co, where := RemoveAt(coroutines, i), co - {id}, where - {id};
        } else {
          i := i + 1;
        }
        seen := seen + 1;
      }
      SweepEnd(s, seen, i, St());
    }

    /** `block` after control has come back: the finished coroutines are discarded. */
    method BlockResume(component: nat)
      requires Inv(St()) && St().Pc(self).Blocking? && where[self].component == component
      modifies this
      ensures St() == AfterBlockResume(old(St())) && Inv(St())
    {
      hide Inv;
      ghost var pc := where[self];
      BlockResumeKeeps(St());
      ListsKnown(St());
      RemoveFinished();
      skip := skip[component := 0];
      blockedBy := blockedBy[component := 0];
      where := where[self := Executing(pc.work, pc.next, pc.frames)];
    }

    /** A port is released: its blocked coroutine, if any, is resumed by a later switch. */
    method Release(component: nat, port: Pointer)
      requires Inv(St()) && St().Pc(self).Executing? && NotPending(St(), port)
      modifies `skip, `switches
      ensures St() == AfterRelease(old(St()), component, port) && Inv(St())
    {
      hide Inv;
      ReleaseKeeps(St(), component, port);
      SelfKnown(St());
      skip := skip[component := port];
      var blocked := FindBlocked(port);
      if blocked == |coroutines| {
        return;
      }
      switches := switches + [coroutines[blocked]];
    }
  }
}
