/** What the state of the pump says about the steps that led to it. */
module PumpHistory {
  import opened Sequences
  import opened PumpModel
  import opened PumpProofs
  import opened PumpTheorems

  // the event queue

  /** The posted event that the coroutine in control executes, if any. */
  function Carried(s: State): seq<nat> {
    match s.Pc(s.self)
    case Executing(w, _, _) => if w.Posted? then [w.id] else []
    case _ => []
  }

  function PostedBy(steps: seq<Action>): seq<nat> {
    if steps == [] then [] else (if steps[0].Post? then [steps[0].event] else []) + PostedBy(steps[1..])
  }

  /** The events that run, in the order in which they begin. */
  ghost function Begun(s: State, steps: seq<Action>): seq<nat>
    decreases |steps|
  {
    if steps == [] || !Enabled(s, steps[0]) then []
    else BegunBy(s, steps[0]) + Begun(Apply(s, steps[0]), steps[1..])
  }

  ghost function BegunBy(s: State, a: Action): seq<nat>
    requires Enabled(s, a)
  {
    if a.TakeQueued? then Carried(Apply(s, a)) else []
  }

  /** The events that end, in that order. */
  ghost function Ended(s: State, steps: seq<Action>): seq<nat>
    decreases |steps|
  {
    if steps == [] || !Enabled(s, steps[0]) then []
    else (if steps[0].EndWork? then Carried(s) else []) + Ended(Apply(s, steps[0]), steps[1..])
  }

  // what a step that moves control can touch

  lemma YieldTouches(s: State, c: nat, port: nat)
    ensures var t := Yield(s, c, port);
      t == s.(coroutines := t.coroutines, collateral := t.collateral, co := t.co, current := t.current,
              where := t.where, self := t.self)
  {
    YieldIs(s, c, port);
    hide Within, First;
  }

  lemma CommitTouches(s: State)
    requires Committing(s)
    ensures var t, c := AfterBlockCommit(s), Top(s).component;
      t == s.(handling := s.handling[c := 0], skip := if FallsThrough(s) then s.skip[c := 0] else s.skip,
              coroutines := t.coroutines, collateral := t.collateral, co := t.co, current := t.current,
              where := t.where, self := t.self)
  {
    YieldTouches(PortSet(s), Top(s).component, Top(s).port);
    hide Yield;
  }

  lemma ReleaseTouches(s: State)
    ensures var t := AfterCollateralRelease(s);
      t == s.(unblocked := t.unblocked, coroutines := t.coroutines, collateral := t.collateral, co := t.co,
              where := t.where, self := t.self)
  {
    hide First, RemoveAt;
  }

  lemma SwitchTouches(s: State)
    ensures var t := AfterContextSwitch(s);
      t == s.(unblocked := t.unblocked, switches := t.switches, co := t.co, where := t.where, self := t.self)
  {
  }

  /** What all the steps that are about to move control, or may, do to the rest of the state. */
  lemma OtherTouches(s: State, a: Action)
    requires Enabled(s, a) && !Local(a)
    ensures var t, c := Apply(s, a), if Committing(s) then Top(s).component else 0;
      && t.queue == s.queue && t.completed == s.completed && t.posted == s.posted
      && (a.BlockResume? ==>
            && s.Pc(s.self).Blocking?
            && t.skip == s.skip[s.Pc(s.self).component := 0] && t.blockedBy == s.blockedBy[s.Pc(s.self).component := 0]
            && t.handling == s.handling)
      && (!a.BlockResume? ==> t.blockedBy == s.blockedBy)
      && (a.BlockCommit? ==>
            && Committing(s) && t.handling == s.handling[c := 0]
            && t.skip == if FallsThrough(s) then s.skip[c := 0] else s.skip)
      && (!a.BlockCommit? && !a.BlockResume? ==> t.skip == s.skip && t.handling == s.handling)
  {
    hide AfterBlockCommit, AfterCollateralRelease, AfterContextSwitch, AtMostOneRelay, OwnerBlocked, FallsThrough;
    match a
    case CollateralRelease => ReleaseTouches(s);
    case ContextSwitch => SwitchTouches(s);
    case BlockCommit => CommitTouches(s);
    case _ =>
  }

  /** What the steps on the spot do to the bookkeeping. */
  lemma TakeTouches(s: State)
    ensures var t := AfterTakeQueued(s); t == s.(queue := t.queue, where := t.where)
  {
  }

  lemma EndTouches(s: State)
    requires s.Pc(s.self).Executing?
    ensures var t := AfterEndWork(s); t == s.(completed := t.completed, where := t.where)
  {
  }

  lemma EnterTouches(s: State, c: nat, port: Pointer)
    requires s.Pc(s.self).Executing?
    ensures var t := AfterBlockEnter(s, c, port);
      t == s.(handling := s.handling[c := s.self], blockedBy := s.blockedBy[c := s.self], where := t.where)
  {
  }

  lemma PortTouches(s: State, c: nat, port: Pointer)
    ensures var t := AfterRelease(s, c, port); t == s.(skip := s.skip[c := port], switches := t.switches)
  {
    hide First;
  }

  lemma LocalTouches(s: State, a: Action)
    requires Enabled(s, a) && Local(a)
    ensures var t := Apply(s, a);
      match a
      case TakeQueued => t == s.(queue := t.queue, where := t.where)
      case EndWork => t == s.(completed := t.completed, where := t.where)
      case BlockEnter(c, _) =>
        t == s.(handling := s.handling[c := s.self], blockedBy := s.blockedBy[c := s.self], where := t.where)
      case Release(c, p) => t == s.(skip := s.skip[c := p], switches := t.switches)
      case Post(e) => t == s.(queue := t.queue, posted := t.posted)
      case EnterCall(c, id) => t == s.(handling := s.handling[c := id])
      case LeaveCall(c) => t == s.(handling := s.handling[c := 0])
      case ResetSkip(c) => t == s.(skip := s.skip[c := 0])
      case _ => t == s.(where := t.where)
  {
    hide AfterTakeQueued, AfterEndWork, AfterBlockEnter, AfterRelease, NotPending;
    match a
    case TakeQueued => TakeTouches(s);
    case EndWork => EndTouches(s);
    case BlockEnter(c, p) => EnterTouches(s, c, p);
    case Release(c, p) => PortTouches(s, c, p);
    case _ =>
  }

  lemma StepQueue(s: State, a: Action)
    requires Enabled(s, a)
    ensures s.queue + (if a.Post? then [a.event] else []) == BegunBy(s, a) + Apply(s, a).queue
  {
    hide First;
    if !Local(a) {
      OtherTouches(s, a);
      hide Apply, Enabled;
    }
  }

  lemma StepCompleted(s: State, a: Action)
    requires Enabled(s, a)
    ensures Apply(s, a).completed == s.completed + if a.EndWork? then Carried(s) else []
  {
    hide First;
    if !Local(a) {
      OtherTouches(s, a);
      hide Apply, Enabled;
    }
  }

  lemma Regroup(q: seq<nat>, p: seq<nat>, ps: seq<nat>, b: seq<nat>, bs: seq<nat>, r: seq<nat>, u: seq<nat>)
    requires q + p == b + r && r + ps == bs + u
    ensures q + (p + ps) == (b + bs) + u
  {
    assert q + (p + ps) == (q + p) + ps;
    assert (b + r) + ps == b + (r + ps);
    assert b + (bs + u) == (b + bs) + u;
  }

  /** Events run in the order in which they were posted. */
  lemma {:induction false} EventsRunInOrder(s: State, steps: seq<Action>, t: State)
    requires Runs(s, steps, t)
    ensures s.queue + PostedBy(steps) == Begun(s, steps) + t.queue
    decreases |steps|
  {
    if steps != [] {
      var a, r := steps[0], Apply(s, steps[0]);
      StepQueue(s, a);
      EventsRunInOrder(r, steps[1..], t);
      Regroup(s.queue, if a.Post? then [a.event] else [], PostedBy(steps[1..]), BegunBy(s, a), Begun(r, steps[1..]),
              r.queue, t.queue);
      hide Apply, Enabled, BegunBy, Runs;
    }
  }

  /** The completed events are those that ended, in that order. */
  lemma {:induction false} CompletedInOrder(s: State, steps: seq<Action>, t: State)
    requires Runs(s, steps, t)
    ensures t.completed == s.completed + Ended(s, steps)
    decreases |steps|
  {
    hide Apply, Enabled, Carried;
    if steps != [] {
      StepCompleted(s, steps[0]);
      CompletedInOrder(Apply(s, steps[0]), steps[1..], t);
    }
  }

  // unblocked ports

  /** Control goes to another coroutine. */
  ghost predicate Moves(s: State, a: Action)
    requires Enabled(s, a)
  {
    Apply(s, a).self != s.self
  }

  ghost function OpenAfter(s: State, a: Action, open: seq<nat>): seq<nat>
    requires Enabled(s, a)
  {
    if a.ContextSwitch? && Moves(s, a) then open + [s.At(Apply(s, a).self).port]
    else if a.CollateralRelease? && !Moves(s, a) then []
    else open
  }

  /** The ports of the blocked coroutines that were resumed since a coroutine last found no waiter
      to resume. */
  ghost function Open(s: State, steps: seq<Action>, open: seq<nat>): seq<nat>
    decreases |steps|
  {
    if steps == [] || !Enabled(s, steps[0]) then open
    else Open(Apply(s, steps[0]), steps[1..], OpenAfter(s, steps[0], open))
  }

  lemma SwitchOpens(s: State)
    requires Inv(s) && Enabled(s, ContextSwitch)
    ensures Apply(s, ContextSwitch).unblocked == OpenAfter(s, ContextSwitch, s.unblocked)
  {
    if s.switches != [] {
      SwitchHead(s);
      hide Inv;
    }
  }

  lemma ReleaseCloses(s: State)
    requires Inv(s) && Enabled(s, CollateralRelease)
    ensures Apply(s, CollateralRelease).unblocked == OpenAfter(s, CollateralRelease, s.unblocked)
  {
    hide Inv, First, RemoveAt;
    var i := First(s.collateral, s.Unblockable());
    if i < |s.collateral| {
      WaiterKnown(s, i);
    }
  }

  lemma StepOpen(s: State, a: Action)
    requires Inv(s) && Enabled(s, a)
    ensures Apply(s, a).unblocked == OpenAfter(s, a, s.unblocked)
  {
    hide Inv, AfterBlockCommit, AfterCollateralRelease, AfterContextSwitch, First, Within, Without, AtMostOneRelay,
         NotPending, OwnerBlocked;
    match a
    case ContextSwitch => SwitchOpens(s);
    case CollateralRelease => ReleaseCloses(s);
    case BlockCommit => CommitTouches(s);
    case _ =>
  }

  lemma {:induction false} RunOpen(s: State, steps: seq<Action>, t: State)
    requires Inv(s) && Runs(s, steps, t)
    ensures t.unblocked == Open(s, steps, s.unblocked)
    decreases |steps|
  {
    if steps != [] {
      StepOpen(s, steps[0]);
      StepKeeps(s, steps[0]);
      hide Inv, Apply, Enabled, OpenAfter;
      RunOpen(Apply(s, steps[0]), steps[1..], t);
    }
  }

  /** A port is unblocked exactly when a coroutine blocked on it was resumed since a coroutine last
      found no waiter to resume. */
  lemma UnblockedExactly(steps: seq<Action>, t: State)
    requires Runs(START, steps, t)
    ensures t.unblocked == Open(START, steps, [])
  {
    StartInv();
    RunOpen(START, steps, t);
  }

  /** A waiter gets control only because of such a release. */
  lemma WaitersResumedForReleases(steps: seq<Action>, s: State, a: Action)
    requires Runs(START, steps, s) && Enabled(s, a) && Apply(s, a).self in s.collateral
    ensures s.At(Apply(s, a).self).port in Open(START, steps, [])
  {
    StartInv();
    RunKeeps(START, steps, s);
    UnblockedExactly(steps, s);
    WaitersNotForgotten(s, a, Apply(s, a).self);
    ListsKnown(Apply(s, a)) by { StepKeeps(s, a); }
    BatonKnown(Apply(s, a)) by { StepKeeps(s, a); }
  }

  lemma BatonKnown(s: State)
    requires Inv(s)
    ensures s.self in s.coroutines && s.self !in s.collateral
  {
  }

  // releases that a block skips, and who owns a component

  /** The coroutine in control is in a `block` of component `c` that has just been resumed. */
  predicate Resumes(s: State, a: Action, c: nat) {
    a.BlockResume? && s.Pc(s.self).Blocking? && s.Pc(s.self).component == c
  }

  /** The flush in a `block` of component `c` has come to its end. */
  predicate Flushed(s: State, a: Action, c: nat) {
    a.BlockCommit? && Committing(s) && Top(s).component == c
  }

  ghost function SkipAfter(s: State, a: Action, c: nat, skip: nat): nat
    requires Enabled(s, a)
  {
    if a.Release? && a.component == c then a.port
    else if a == ResetSkip(c) || Resumes(s, a, c) || (Flushed(s, a, c) && !Moves(s, a)) then 0
    else skip
  }

  /** The port that component `c` released last, if no block of `c` was resumed or skipped, and the
      skip was not reset, since then. */
  ghost function Skip(s: State, steps: seq<Action>, c: nat, skip: nat): nat
    decreases |steps|
  {
    if steps == [] || !Enabled(s, steps[0]) then skip
    else Skip(Apply(s, steps[0]), steps[1..], c, SkipAfter(s, steps[0], c, skip))
  }

  /** A block moves control exactly if it does not fall through. */
  lemma CommitMoves(s: State)
    requires Inv(s) && Enabled(s, BlockCommit)
    ensures Moves(s, BlockCommit) <==> !FallsThrough(s)
  {
    if !FallsThrough(s) {
      CommitStep(s);
      var t := AfterBlockCommit(s);
      PortSetSuspends(s);
      YieldFrom(PortSet(s), Top(s).component, Top(s).port);
    }
  }

  /** Control does not stay with a blocked coroutine. */
  lemma YieldFrom(s: State, c: nat, port: nat)
    requires Suspended(s) && s.self in s.coroutines
    ensures Yield(s, c, port).self != s.self
  {
    YieldIs(s, c, port);
    var relayed := s.Relayable(c);
    if Within(s.collateral, relayed) != [] {
      OldestRelayAtBack(s, c) by { assert Within(s.collateral, relayed)[0] in relayed; }
      var i := First(s.collateral, relayed);
      assert s.collateral[i] in s.collateral;
    } else {
      assert s.self in s.co;
    }
  }

  lemma LocalSkip(s: State, a: Action, c: nat)
    requires Enabled(s, a) && Local(a)
    ensures Lookup(Apply(s, a).skip, c) == SkipAfter(s, a, c, Lookup(s.skip, c))
  {
    LocalTouches(s, a);
    hide Apply, Enabled, Moves;
  }

  lemma OtherSkip(s: State, a: Action, c: nat)
    requires Inv(s) && Enabled(s, a) && !Local(a)
    ensures Lookup(Apply(s, a).skip, c) == SkipAfter(s, a, c, Lookup(s.skip, c))
  {
    OtherTouches(s, a);
    if a.BlockCommit? {
      CommitMoves(s);
    }
    hide Inv, Apply, Enabled, Moves, FallsThrough;
  }

  lemma StepSkip(s: State, a: Action, c: nat)
    requires Inv(s) && Enabled(s, a)
    ensures Lookup(Apply(s, a).skip, c) == SkipAfter(s, a, c, Lookup(s.skip, c))
  {
    hide Inv, Apply, Enabled, SkipAfter;
    if Local(a) {
      LocalSkip(s, a, c);
    } else {
      OtherSkip(s, a, c);
    }
  }

  lemma {:induction false} RunSkip(s: State, steps: seq<Action>, t: State, c: nat)
    requires Inv(s) && Runs(s, steps, t)
    ensures Lookup(t.skip, c) == Skip(s, steps, c, Lookup(s.skip, c))
    decreases |steps|
  {
    if steps != [] {
      StepSkip(s, steps[0], c);
      StepKeeps(s, steps[0]);
      hide Inv, Apply, Enabled, SkipAfter, Lookup;
      RunSkip(Apply(s, steps[0]), steps[1..], t, c);
    }
  }

  /** A block falls through exactly if its component released that port, and neither a block of it
      was resumed or skipped nor its skip reset since then. */
  lemma FallsThroughExactly(steps: seq<Action>, t: State)
    requires Runs(START, steps, t) && Enabled(t, BlockCommit)
    ensures Moves(t, BlockCommit) <==> Skip(START, steps, Top(t).component, 0) != Top(t).port
  {
    StartInv();
    RunKeeps(START, steps, t);
    RunSkip(START, steps, t, Top(t).component);
    CommitMoves(t);
  }

  ghost function HandlerAfter(s: State, a: Action, c: nat, id: nat): nat
    requires Enabled(s, a)
  {
    if a.EnterCall? && a.component == c then a.id
    else if a.BlockEnter? && a.component == c then s.self
    else if a == LeaveCall(c) || Flushed(s, a, c) then 0
    else id
  }

  /** The coroutine that entered a call or a block of component `c` last, until the call is left or
      the flush of the block ends. */
  ghost function Handler(s: State, steps: seq<Action>, c: nat, id: nat): nat
    decreases |steps|
  {
    if steps == [] || !Enabled(s, steps[0]) then id
    else Handler(Apply(s, steps[0]), steps[1..], c, HandlerAfter(s, steps[0], c, id))
  }

  ghost function BlockerAfter(s: State, a: Action, c: nat, id: nat): nat
    requires Enabled(s, a)
  {
    if a.BlockEnter? && a.component == c then s.self else if Resumes(s, a, c) then 0 else id
  }

  /** The coroutine that entered a block of component `c` last, until a block of `c` is resumed. */
  ghost function Blocker(s: State, steps: seq<Action>, c: nat, id: nat): nat
    decreases |steps|
  {
    if steps == [] || !Enabled(s, steps[0]) then id
    else Blocker(Apply(s, steps[0]), steps[1..], c, BlockerAfter(s, steps[0], c, id))
  }

  lemma LocalHandler(s: State, a: Action, c: nat)
    requires Enabled(s, a) && Local(a)
    ensures Lookup(Apply(s, a).handling, c) == HandlerAfter(s, a, c, Lookup(s.handling, c))
  {
    LocalTouches(s, a);
    hide Apply, Enabled;
  }

  lemma StepHandler(s: State, a: Action, c: nat)
    requires Enabled(s, a)
    ensures Lookup(Apply(s, a).handling, c) == HandlerAfter(s, a, c, Lookup(s.handling, c))
  {
    if Local(a) {
      hide Apply, Enabled, HandlerAfter;
      LocalHandler(s, a, c);
    } else {
      OtherTouches(s, a);
      hide Apply, Enabled, FallsThrough;
    }
  }

  lemma StepBlocker(s: State, a: Action, c: nat)
    requires Enabled(s, a)
    ensures Lookup(Apply(s, a).blockedBy, c) == BlockerAfter(s, a, c, Lookup(s.blockedBy, c))
  {
    hide First;
    if !Local(a) {
      OtherTouches(s, a);
      hide Apply, Enabled;
    }
  }

  lemma {:induction false} RunOwners(s: State, steps: seq<Action>, t: State, c: nat)
    requires Runs(s, steps, t)
    ensures Lookup(t.handling, c) == Handler(s, steps, c, Lookup(s.handling, c))
    ensures Lookup(t.blockedBy, c) == Blocker(s, steps, c, Lookup(s.blockedBy, c))
    decreases |steps|
  {
    if steps != [] {
      StepHandler(s, steps[0], c);
      StepBlocker(s, steps[0], c);
      hide Apply, Enabled, HandlerAfter, BlockerAfter, Lookup;
      RunOwners(Apply(s, steps[0]), steps[1..], t, c);
    }
  }

  /** A coroutine that waits for component `c` takes the port of the coroutine that handles `c`, or
      else of the one that entered a block of it last; it is not accepted if that one is not blocked. */
  lemma OwnerExactly(steps: seq<Action>, s: State, c: nat)
    requires Runs(START, steps, s) && s.Pc(s.self).Executing?
    ensures var h := Handler(START, steps, c, 0);
      var owner := if h != 0 then h else Blocker(START, steps, c, 0);
      && (Enabled(s, CollateralBlock(c)) <==> owner in s.coroutines && owner != s.self && s.At(owner).port != 0)
      && (Enabled(s, CollateralBlock(c)) ==>
            var t := Apply(s, CollateralBlock(c));
            && t.At(s.self) == Coroutine(c, s.At(owner).port, false)
            && forall id :: id in s.co && id != s.self ==> t.At(id) == s.At(id))
  {
    StartInv();
    RunKeeps(START, steps, s);
    RunOwners(START, steps, s, c);
    hide Inv, Runs, Handler, Blocker;
    Parks(s, c, Handler(START, steps, c, 0), Blocker(START, steps, c, 0));
  }

  lemma Parks(s: State, c: nat, h: nat, b: nat)
    requires Inv(s) && s.Pc(s.self).Executing? && Lookup(s.handling, c) == h && Lookup(s.blockedBy, c) == b
    ensures var owner := if h != 0 then h else b;
      && (Enabled(s, CollateralBlock(c)) <==> owner in s.coroutines && owner != s.self && s.At(owner).port != 0)
      && (Enabled(s, CollateralBlock(c)) ==>
            var t := Apply(s, CollateralBlock(c));
            && t.At(s.self) == Coroutine(c, s.At(owner).port, false)
            && forall id :: id in s.co && id != s.self ==> t.At(id) == s.At(id))
  {
    hide Inv, AfterCollateralBlock, Lookup;
    if OwnerBlocked(s, c) {
      ParkEffect(s, c);
      ParkApplied(s, c);
    }
  }

  lemma ParkApplied(s: State, c: nat)
    requires Enabled(s, CollateralBlock(c))
    ensures s.Pc(s.self).Executing? && Apply(s, CollateralBlock(c)) == AfterCollateralBlock(s, c)
  {
    hide AfterCollateralBlock;
  }

  lemma ParkEffect(s: State, c: nat)
    requires Inv(s) && s.Pc(s.self).Executing? && OwnerBlocked(s, c)
    ensures var t := AfterCollateralBlock(s, c);
      && t.At(s.self) == Coroutine(c, s.At(s.Owner(c)).port, false)
      && forall id :: id in s.co && id != s.self ==> t.At(id) == s.At(id)
  {
    assert s.current + 1 !in s.co && s.self in s.co && s.Runnable(s.self);
    hide Inv, Without;
  }
}
