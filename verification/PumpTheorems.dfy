/** What the runs of the pump guarantee to the components. */
module PumpTheorems {
  import opened Sequences
  import opened PumpModel
  import opened PumpProofs

  /** In every reachable state exactly one coroutine of `coroutines` is runnable, and control is
      with that one. */
  lemma OneRunnable(steps: seq<Action>, t: State)
    requires Runs(START, steps, t)
    ensures t.self in t.coroutines
    ensures forall id :: id in t.coroutines ==>
              (t.At(id).port == 0 && !t.At(id).finished <==> id == t.self)
  {
    StartInv();
    RunKeeps(START, steps, t);
  }

  ghost predicate OnSomeCoroutine(s: State, e: nat) {
    exists id :: InProgress(s, id, e)
  }

  /** In every reachable state a posted event is in exactly one of three places: queued, in
      progress on one unfinished coroutine, or completed once. */
  lemma EventsConserved(steps: seq<Action>, t: State)
    requires Runs(START, steps, t)
    ensures forall e :: e in t.posted <==> e in t.queue || e in t.completed || OnSomeCoroutine(t, e)
    ensures forall e :: e in t.queue ==> e !in t.completed && !OnSomeCoroutine(t, e)
    ensures forall e :: e in t.completed ==> !OnSomeCoroutine(t, e)
    ensures forall i, j, e :: InProgress(t, i, e) && InProgress(t, j, e) ==> i == j
    ensures forall i, e :: InProgress(t, i, e) ==>
              (i in t.coroutines || i in t.collateral) && !t.At(i).finished
    ensures NoDup(t.queue) && NoDup(t.completed)
  {
    StartInv();
    RunKeeps(START, steps, t);
  }

  /** The coroutines that the steps resume through a pending switch, in order. */
  ghost function Resumed(s: State, steps: seq<Action>): seq<nat>
    decreases |steps|
  {
    if steps == [] || !Enabled(s, steps[0]) then []
    else (if steps[0].ContextSwitch? && s.switches != [] then [s.switches[0]] else [])
         + Resumed(Apply(s, steps[0]), steps[1..])
  }

  /** The blocked coroutines that the releases among the steps find, in order. */
  ghost function Released(s: State, steps: seq<Action>): seq<nat>
    decreases |steps|
  {
    if steps == [] || !Enabled(s, steps[0]) then []
    else FoundBy(s, steps[0]) + Released(Apply(s, steps[0]), steps[1..])
  }

  ghost function FoundBy(s: State, a: Action): seq<nat> {
    if a.Release? && s.FindBlocked(a.port) < |s.coroutines| then [s.coroutines[s.FindBlocked(a.port)]]
    else []
  }

  lemma StepSwitches(s: State, a: Action)
    requires Enabled(s, a)
    ensures s.switches + FoundBy(s, a)
         == (if a.ContextSwitch? && s.switches != [] then [s.switches[0]] else []) + Apply(s, a).switches
  {
    hide AfterBlockCommit, AfterCollateralRelease, First, Within, Without, AtMostOneRelay, NotPending, OwnerBlocked;
    match a
    case CollateralRelease => ReleaseBookkeeping(s);
    case BlockCommit => CommitBookkeeping(s);
    case _ =>
  }

  /** Every blocked coroutine found by a release is resumed once, in the order of the releases. */
  lemma {:induction false} ReleasesAreServedInOrder(s: State, steps: seq<Action>, t: State)
    requires Runs(s, steps, t)
    ensures s.switches + Released(s, steps) == Resumed(s, steps) + t.switches
    decreases |steps|
  {
    hide Apply, Enabled, FoundBy;
    if steps != [] {
      var r := Apply(s, steps[0]);
      var head := if steps[0].ContextSwitch? && s.switches != [] then [s.switches[0]] else [];
      StepSwitches(s, steps[0]);
      ReleasesAreServedInOrder(r, steps[1..], t);
      calc {
        s.switches + Released(s, steps);
        (s.switches + FoundBy(s, steps[0])) + Released(r, steps[1..]);
        (head + r.switches) + Released(r, steps[1..]);
        head + (r.switches + Released(r, steps[1..]));
        head + (Resumed(r, steps[1..]) + t.switches);
        Resumed(s, steps) + t.switches;
      }
    }
  }

  /** A release keeps the pending switches distinct exactly when its port has none yet. */
  lemma ReleaseKeepsPending(s: State, c: nat, port: Pointer)
    requires Inv(s)
    ensures Pending(AfterRelease(s, c, port)) <==> NotPending(s, port)
  {
    var i := s.FindBlocked(port);
    assert Pending(s);
    if i < |s.coroutines| {
      assert s.At(s.coroutines[i]).port == port;
      hide Inv;
      PendingGrows(s, AfterRelease(s, c, port), s.coroutines[i]);
    }
  }

  lemma PendingGrows(s: State, t: State, b: nat)
    requires Pending(s) && b in s.coroutines && s.At(b).port != 0
    requires t.switches == s.switches + [b] && t.coroutines == s.coroutines && t.co == s.co
    ensures Pending(t) <==> b !in s.switches
  {
    assert forall id :: t.At(id) == s.At(id);
    if b in s.switches {
      var k := IndexOf(s.switches, b);
      if NoDup(s.switches + [b]) {
        NoDupAt(s.switches + [b], k, |s.switches|);
      }
    } else {
      PushNoDup(s.switches, b);
    }
  }

  /** `b` stays blocked where it is. */
  ghost predicate StaysBlocked(s: State, t: State, b: nat) {
    b in t.coroutines && t.At(b).port == s.At(b).port && t.Pc(b) == s.Pc(b)
  }

  /** What is known of a blocked coroutine `b`. */
  ghost predicate Blocked(s: State, b: nat) {
    && b in s.coroutines && s.At(b).port != 0 && !s.At(b).finished && b in s.co && b in s.where
    && b != s.self && b !in s.collateral && b <= s.current
  }

  lemma BlockedKnown(s: State, b: nat)
    requires Inv(s) && b in s.coroutines && s.At(b).port != 0
    ensures Blocked(s, b)
  {
  }

  lemma BlockedAcrossSwitch(s: State, b: nat)
    requires Blocked(s, b)
    ensures var t := AfterContextSwitch(s);
      if s.switches != [] && s.switches[0] == b then t.self == b && t.At(b).port == 0
      else StaysBlocked(s, t, b)
  {
  }

  lemma BlockedAcrossRelease(s: State, b: nat)
    requires Blocked(s, b)
    ensures StaysBlocked(s, AfterCollateralRelease(s), b)
  {
    var i := First(s.collateral, s.Unblockable());
    assert i < |s.collateral| ==> s.collateral[i] in s.collateral;
  }

  lemma BlockedAcrossNew(s: State, b: nat)
    requires Blocked(s, b)
    ensures StaysBlocked(s, YieldToNew(s), b)
  {
  }

  lemma BlockedAcrossCollateral(s: State, c: nat, b: nat)
    requires Blocked(s, b) && s.Pc(s.self).Executing?
    ensures StaysBlocked(s, AfterCollateralBlock(s, c), b)
  {
    var r := Parked(s, c);
    assert b in r.coroutines && r.At(b) == s.At(b) && r.Pc(b) == s.Pc(b);
    assert b !in r.collateral;
    BlockedAcrossNew(r.(self := s.self), b);
  }

  lemma BlockedAcrossYield(s: State, c: nat, port: nat, b: nat)
    requires Blocked(s.(self := s.current + 1), b)
    ensures StaysBlocked(s, Yield(s, c, port), b)
  {
    var relayed := s.Relayable(c);
    var i := First(s.collateral, s.Unblockable());
    assert i < |s.collateral| ==> s.collateral[i] in s.collateral;
    var r := Retarget(s, port);
    assert r.At(b) == s.At(b) && r.coroutines == s.coroutines && r.current == s.current;
    assert Relay(s, relayed).At(b) == s.At(b);
  }

  lemma BlockedAcrossCommit(s: State, b: nat)
    requires Blocked(s, b) && Committing(s)
    ensures StaysBlocked(s, AfterBlockCommit(s), b)
  {
    if !FallsThrough(s) {
      var r := PortSet(s);
      assert r.At(b) == s.At(b) && r.Pc(b) == s.Pc(b);
      var u := r.(self := r.current + 1);
      assert u.At(b) == r.At(b);
      BlockedAcrossYield(r, Top(s).component, Top(s).port, b);
    }
  }

  lemma BlockedAcrossLocal(s: State, a: Action, b: nat)
    requires Blocked(s, b) && Enabled(s, a) && Local(a)
    ensures StaysBlocked(s, Apply(s, a), b)
  {
    LocalSameLists(s, a);
    hide Apply, Enabled;
    assert Apply(s, a).At(b) == s.At(b) && Apply(s, a).Pc(b) == s.Pc(b);
  }

  lemma BlockedAcrossResume(s: State, b: nat)
    requires Blocked(s, b) && Inv(s) && s.Pc(s.self).Blocking?
    ensures StaysBlocked(s, AfterBlockResume(s), b)
  {
    BlockResumeMembers(s);
  }

  /** Only the switch that a release stored ends the blocking of a coroutine. */
  lemma BlockedUntilSwitched(s: State, a: Action, b: nat)
    requires Inv(s) && Enabled(s, a) && b in s.coroutines && s.At(b).port != 0
    ensures var t := Apply(s, a);
      if a.ContextSwitch? && s.switches != [] && s.switches[0] == b then t.self == b && t.At(b).port == 0
      else StaysBlocked(s, t, b)
  {
    BlockedKnown(s, b);
    hide Inv, StaysBlocked, Blocked, Apply, Enabled;
    if Local(a) {
      BlockedAcrossLocal(s, a, b);
    } else {
      BlockedAcrossOther(s, a, b);
    }
  }

  lemma BlockedAcrossOther(s: State, a: Action, b: nat)
    requires Inv(s) && Blocked(s, b) && Enabled(s, a) && !Local(a)
    ensures var t := Apply(s, a);
      if a.ContextSwitch? && s.switches != [] && s.switches[0] == b then t.self == b && t.At(b).port == 0
      else StaysBlocked(s, t, b)
  {
    hide Inv, StaysBlocked, Blocked, AfterContextSwitch, AfterCollateralRelease, AfterCollateralBlock,
         AfterBlockCommit, AfterBlockResume;
    match a
    case ContextSwitch => BlockedAcrossSwitch(s, b);
    case CollateralRelease => BlockedAcrossRelease(s, b);
    case CollateralBlock(c) => BlockedAcrossCollateral(s, c, b);
    case BlockCommit => BlockedAcrossCommit(s, b);
    case BlockResume => BlockedAcrossResume(s, b);
  }

  /** The step leaves alone a port that was released for component `c` and not yet used. */
  ghost predicate Quiet(s: State, a: Action, c: nat, port: Pointer) {
    && !(a == ResetSkip(c))
    && !(a.Release? && a.component == c && a.port != port)
    && !(a.BlockResume? && s.Pc(s.self).Blocking? && s.Pc(s.self).component == c)
    && !(a.BlockCommit? && Committing(s) && Top(s).component == c && FallsThrough(s))
  }

  ghost predicate QuietRun(s: State, steps: seq<Action>, c: nat, port: Pointer)
    decreases |steps|
  {
    steps == [] || (Enabled(s, steps[0]) && Quiet(s, steps[0], c, port)
                    && QuietRun(Apply(s, steps[0]), steps[1..], c, port))
  }

  lemma CommitBookkeeping(s: State)
    requires Committing(s)
    ensures AfterBlockCommit(s).switches == s.switches
    ensures AfterBlockCommit(s).skip == if FallsThrough(s) then s.skip[Top(s).component := 0] else s.skip
  {
  }

  lemma ReleaseBookkeeping(s: State)
    ensures AfterCollateralRelease(s).switches == s.switches && AfterCollateralRelease(s).skip == s.skip
  {
  }

  lemma SkipStays(s: State, a: Action, c: nat, port: Pointer)
    requires Enabled(s, a) && Quiet(s, a, c, port) && Lookup(s.skip, c) == port
    ensures Lookup(Apply(s, a).skip, c) == port
  {
    hide AfterBlockCommit, AfterCollateralRelease, First, Within, Without, AtMostOneRelay, NotPending, OwnerBlocked;
    match a
    case CollateralRelease => ReleaseBookkeeping(s);
    case BlockCommit => CommitBookkeeping(s);
    case _ =>
  }

  lemma {:induction false} SkipSurvives(s: State, steps: seq<Action>, t: State, c: nat, port: Pointer)
    requires Runs(s, steps, t) && QuietRun(s, steps, c, port) && Lookup(s.skip, c) == port
    ensures Lookup(t.skip, c) == port
    decreases |steps|
  {
    hide Apply, Enabled, Quiet;
    if steps != [] {
      SkipStays(s, steps[0], c, port);
      SkipSurvives(Apply(s, steps[0]), steps[1..], t, c, port);
    }
  }

  /** After a release the next block of that component on that port does not yield, whatever
      happens in between short of a skip reset or a release of another port. */
  lemma ReleasedBlockFallsThrough(s: State, c: nat, port: Pointer, steps: seq<Action>, t: State)
    requires Enabled(s, Release(c, port)) && Runs(Apply(s, Release(c, port)), steps, t)
    requires QuietRun(Apply(s, Release(c, port)), steps, c, port)
    requires Committing(t) && Top(t) == Frame(c, port)
    ensures Enabled(t, BlockCommit)
    ensures var u := Apply(t, BlockCommit);
      && u.self == t.self && u.Pc(u.self).Executing? && u.Pc(u.self).work == t.Pc(t.self).work
      && u.coroutines == t.coroutines && u.collateral == t.collateral && u.co == t.co
      && Lookup(u.skip, c) == 0
  {
    SkipSurvives(Apply(s, Release(c, port)), steps, t, c, port);
    assert FallsThrough(t);
  }

  /** Yielding from a block leaves exactly one runnable coroutine, the one that gets control, if
      and only if at most one waiter is relayed. */
  lemma BatonAfterBlock(s: State)
    requires Inv(s) && Committing(s) && !FallsThrough(s)
    ensures Baton(AfterBlockCommit(s)) <==> AtMostOneRelay(s, Top(s).component)
  {
    var c := Top(s).component;
    if AtMostOneRelay(s, c) {
      CommitStep(s);
    } else {
      var r := PortSet(s);
      SameRelays(s);
      PortSetSuspends(s);
      TwoRelays(r, r.Relayable(c));
    }
  }

  lemma TwoRelays(s: State, relayed: set<nat>)
    requires Suspended(s) && |Within(s.collateral, relayed)| > 1
    ensures !Baton(YieldToLast(Relay(s, relayed)))
  {
    var moved := Within(s.collateral, relayed);
    var t := YieldToLast(Relay(s, relayed));
    WithinNoDup(s.collateral, relayed);
    NoDupAt(moved, 0, 1);
    ReverseMembers(moved);
    assert moved[0] in moved && moved[1] in moved;
    assert moved[0] in t.coroutines && moved[1] in t.coroutines;
    assert t.Runnable(moved[0]) && t.Runnable(moved[1]);
  }

  /** The worker releases the waiter that has waited longest among those on unblocked ports. */
  lemma OldestWaiterFirst(s: State)
    requires Inv(s) && s.Pc(s.self) == Looping(Releasing) && s.Unblockable() != {}
    ensures var i, t := First(s.collateral, s.Unblockable()), AfterCollateralRelease(s);
      && i < |s.collateral| && t.self == s.collateral[i] && t.Runnable(t.self)
      && (forall k :: 0 <= k < i ==> s.At(s.collateral[k]).port !in s.unblocked)
      && t.unblocked == s.unblocked && t.collateral == RemoveAt(s.collateral, i)
  {
    var w :| w in s.Unblockable();
    var k :| 0 <= k < |s.collateral| && s.collateral[k] == w;
    var i := First(s.collateral, s.Unblockable());
    assert s.collateral[k] in s.Unblockable();
    WaiterKnown(s, i);
    assert s.collateral[i] in s.collateral;
  }

  /** The relayed waiters go to the end of `coroutines` newest first, so that the oldest of them
      is the one at the back; the others keep their order. */
  lemma OldestRelayAtBack(s: State, c: nat)
    requires s.Relayable(c) != {}
    ensures var t, i := Relay(s, s.Relayable(c)), First(s.collateral, s.Relayable(c));
      && t.coroutines == s.coroutines + Reverse(Within(s.collateral, s.Relayable(c)))
      && i < |s.collateral| && t.coroutines[|t.coroutines| - 1] == s.collateral[i]
      && t.collateral == Without(s.collateral, s.Relayable(c))
  {
    var out := s.Relayable(c);
    var w :| w in out;
    assert w in s.collateral && w in Within(s.collateral, out);
    FirstWithin(s.collateral, out);
  }

  lemma {:induction false} FirstWithin(s: seq<nat>, keep: set<nat>)
    requires Within(s, keep) != []
    ensures First(s, keep) < |s| && Within(s, keep)[0] == s[First(s, keep)]
    ensures var r := Reverse(Within(s, keep)); r[|r| - 1] == s[First(s, keep)]
  {
    if s[0] !in keep {
      FirstWithin(s[1..], keep);
    }
  }

  /** What one step can do to waiter `w`: leave it, re-target it to the port of a blocked
      coroutine, or, when its port was released, make it the runnable one. */
  ghost predicate Kept(s: State, a: Action, t: State, w: nat) {
    || (w in t.collateral && t.At(w).port == s.At(w).port)
    || (w in t.collateral && a.BlockCommit? && s.At(w).port in s.unblocked && BlockedOn(t, t.At(w).port))
    || (w in t.coroutines && t.self == w && s.At(w).port in s.unblocked)
  }

  lemma WaiterAcrossRelease(s: State, w: nat)
    requires Lists(s) && Baton(s) && w in s.collateral
    ensures Kept(s, CollateralRelease, AfterCollateralRelease(s), w)
    ensures forall p :: p in s.unblocked && p !in AfterCollateralRelease(s).unblocked ==>
              forall v :: v in s.collateral ==> s.At(v).port !in s.unblocked
  {
    var i := First(s.collateral, s.Unblockable());
    if i < |s.collateral| {
      RemoveAtMembers(s.collateral, i);
    } else {
      forall v | v in s.collateral ensures s.At(v).port !in s.unblocked {
        var k :| 0 <= k < |s.collateral| && s.collateral[k] == v;
        assert s.collateral[k] !in s.Unblockable();
      }
    }
  }

  lemma WaiterAcrossCommit(s: State, w: nat)
    requires Inv(s) && Committing(s) && w in s.collateral
    requires FallsThrough(s) || AtMostOneRelay(s, Top(s).component)
    ensures Kept(s, BlockCommit, AfterBlockCommit(s), w)
    ensures AfterBlockCommit(s).unblocked == s.unblocked
  {
    if !FallsThrough(s) {
      var r := PortSet(s);
      var c, port := Top(s).component, Top(s).port;
      PortSetSuspends(s);
      SameRelays(s);
      assert r.At(w) == s.At(w);
      WaiterAcrossYield(r, c, port, s.self, w);
    }
  }

  lemma WaiterAcrossYield(s: State, c: nat, port: Pointer, b: nat, w: nat)
    requires Suspended(s) && w in s.collateral && |Within(s.collateral, s.Relayable(c))| <= 1
    requires b in s.coroutines && s.At(b).port == port
    ensures Kept(s, BlockCommit, Yield(s, c, port), w)
    ensures Yield(s, c, port).unblocked == s.unblocked
  {
    var t := Yield(s, c, port);
    var moved := Within(s.collateral, s.Relayable(c));
    YieldIs(s, c, port);
    if moved != [] {
      RelayMembers(s, s.Relayable(c), moved[0]);
      hide Suspended, Within, Without, Reverse, Cleared, Yield;
      assert t.At(w) == Relay(s, s.Relayable(c)).At(w);
    } else {
      hide Within, Yield;
      WaiterRetargeted(s, port, b, w);
    }
  }

  lemma WaiterRetargeted(s: State, port: nat, b: nat, w: nat)
    requires Lists(s) && w in s.collateral && b in s.coroutines && s.At(b).port == port
    ensures var r := Retarget(s, port); Kept(s, BlockCommit, Create(r).(self := r.current + 1), w)
    ensures Retarget(s, port).unblocked == s.unblocked
  {
    var r := Retarget(s, port);
    var t := Create(r).(self := r.current + 1);
    var i := First(s.collateral, s.Unblockable());
    assert w in s.co && b in s.co;
    hide First, Lists;
    assert t.At(w) == r.At(w) && t.At(b) == s.At(b);
    if i < |s.collateral| && s.collateral[i] == w {
      assert t.At(b).port == t.At(w).port;
    }
  }

  /** No waiter is forgotten: a step keeps it, re-targets it or resumes it, and unblocked ports
      are dropped only when no waiter waits on any of them. */
  lemma WaitersNotForgotten(s: State, a: Action, w: nat)
    requires Inv(s) && Enabled(s, a) && w in s.collateral
    ensures Kept(s, a, Apply(s, a), w)
    ensures forall p :: p in s.unblocked && p !in Apply(s, a).unblocked ==>
              a.CollateralRelease? && forall v :: v in s.collateral ==> s.At(v).port !in s.unblocked
  {
    WaiterKnownAs(s, w);
    hide Inv, Lists, Baton, Kept, FallsThrough, AtMostOneRelay, OwnerBlocked, NotPending, Enabled, Apply;
    if Local(a) {
      WaiterAcrossLocal(s, a, w);
    } else {
      WaiterAcrossOther(s, a, w);
    }
  }

  lemma WaiterAcrossOther(s: State, a: Action, w: nat)
    requires Inv(s) && Enabled(s, a) && !Local(a) && w in s.collateral && Lists(s) && Baton(s)
    ensures Kept(s, a, Apply(s, a), w)
    ensures a.CollateralRelease? || forall p :: p in s.unblocked ==> p in Apply(s, a).unblocked
    ensures a.CollateralRelease? ==> forall p :: p in s.unblocked && p !in Apply(s, a).unblocked ==>
              forall v :: v in s.collateral ==> s.At(v).port !in s.unblocked
  {
    hide Inv, Lists, Baton, Kept, AfterCollateralRelease, AfterBlockCommit, AfterBlockResume, AfterCollateralBlock,
         AfterContextSwitch;
    match a
    case CollateralRelease => WaiterAcrossRelease(s, w);
    case BlockCommit => WaiterAcrossCommit(s, w);
    case BlockResume => WaiterAcrossResume(s, w);
    case CollateralBlock(c) => WaiterAcrossCollateral(s, c, w);
    case ContextSwitch => WaiterAcrossSwitch(s, w);
  }

  lemma WaiterAcrossResume(s: State, w: nat)
    requires Inv(s) && s.Pc(s.self).Blocking? && w in s.collateral
    ensures Kept(s, BlockResume, AfterBlockResume(s), w) && AfterBlockResume(s).unblocked == s.unblocked
  {
    BlockResumeMembers(s);
  }

  lemma WaiterAcrossCollateral(s: State, c: nat, w: nat)
    requires Inv(s) && s.Pc(s.self).Executing? && w in s.collateral
    ensures Kept(s, CollateralBlock(c), AfterCollateralBlock(s, c), w)
    ensures AfterCollateralBlock(s, c).unblocked == s.unblocked
  {
    WaiterKnownAs(s, w);
    assert AfterCollateralBlock(s, c).At(w) == s.At(w);
  }

  lemma WaiterAcrossSwitch(s: State, w: nat)
    requires Inv(s) && w in s.collateral
    ensures Kept(s, ContextSwitch, AfterContextSwitch(s), w)
    ensures forall p :: p in s.unblocked ==> p in AfterContextSwitch(s).unblocked
  {
    WaiterKnownAs(s, w);
  }

  lemma WaiterAcrossLocal(s: State, a: Action, w: nat)
    requires Enabled(s, a) && Local(a) && w in s.collateral
    ensures Kept(s, a, Apply(s, a), w) && Apply(s, a).unblocked == s.unblocked
  {
    LocalSameLists(s, a);
    hide Apply, Enabled;
  }

  lemma WaiterKnownAs(s: State, w: nat)
    requires Inv(s) && w in s.collateral
    ensures Lists(s) && Baton(s) && w != s.self && w <= s.current && w !in s.switches
  {
  }
}
