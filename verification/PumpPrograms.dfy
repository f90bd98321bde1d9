/** At which point of its program each coroutine of the pump is. */
module PumpPrograms {
  import opened Sequences
  import opened PumpModel
  import opened PumpProofs
  import opened PumpTheorems
  import opened PumpHistory
  import opened PumpPlaces
  import opened Wrappers

  /** What the loop of a coroutine does next, the work that it is in, and the blocks it is in there. */
  datatype Program = Program(stage: Stage, work: Option<Work>, frames: seq<Frame>)

  function ProgramOf(w: Where): Program {
    match w
    case Looping(stage) => Program(stage, None, [])
    case Executing(work, next, frames) => Program(next, Some(work), frames)
    case Blocking(work, next, frames, _) => Program(next, Some(work), frames)
    case Waiting(work, next, frames) => Program(next, Some(work), frames)
    case Gone => FRESH
  }

  /** A new coroutine looks for a pending switch first. */
  const FRESH := Program(Switching, None, [])

  /** A coroutine looks for a posted event, for a deferred closure, for expired timers one by one, for
      a waiter to release and for a pending switch, and so on; a block ends before those around it. */
  ghost function ProgramAfter(s: State, a: Action, p: Program): Program
    requires Enabled(s, a)
  {
    match a
    case TakeQueued => Program(Deferring, if s.queue == [] then None else Some(Posted(s.queue[0])), [])
    case TakeDeferred(closure) => Program(Timing, Some(Deferred(closure)), [])
    case NoDeferred => Program(Timing, None, [])
    case TakeTimer(closure) => Program(Timing, Some(Timed(closure)), [])
    case NoTimer => Program(Releasing, None, [])
    case EndWork => Program(p.stage, None, [])
    case CollateralRelease => FRESH
    case ContextSwitch => if Moves(s, a) then FRESH else Program(Queueing, None, [])
    case BlockEnter(c, port) => p.(frames := p.frames + [Frame(c, port)])
    case BlockCommit => p.(frames := if p.frames == [] then [] else p.frames[..|p.frames| - 1])
    case _ => p
  }

  /** The program of coroutine `id` goes on only by its own steps. */
  ghost function ProgramBy(s: State, steps: seq<Action>, id: nat, p: Program): Program
    decreases |steps|
  {
    if steps == [] || !Enabled(s, steps[0]) then p
    else ProgramBy(Apply(s, steps[0]), steps[1..], id, if id == s.self then ProgramAfter(s, steps[0], p) else p)
  }

  /** The step of the coroutine in control, in the terms of programs. */
  ghost predicate Steps(s: State, a: Action, t: State)
    requires Enabled(s, a)
  {
    && ProgramOf(t.Pc(s.self)) == ProgramAfter(s, a, ProgramOf(s.Pc(s.self)))
    && forall id :: id != s.self ==> ProgramOf(t.Pc(id)) == ProgramOf(s.Pc(id))
  }

  lemma SelfSteps(s: State, a: Action, t: State, w: Where)
    requires Enabled(s, a) && t.where == s.where[s.self := w]
    requires ProgramOf(w) == ProgramAfter(s, a, ProgramOf(s.Pc(s.self)))
    ensures Steps(s, a, t)
  {
    hide Enabled, ProgramAfter, ProgramOf;
    assert forall id :: id != s.self ==> t.Pc(id) == s.Pc(id);
  }

  lemma NewSteps(s: State, a: Action, t: State, w: Where, n: nat)
    requires Enabled(s, a) && n !in s.where && n != s.self
    requires t.where == s.where[s.self := w][n := Looping(Switching)]
    requires ProgramOf(w) == ProgramAfter(s, a, ProgramOf(s.Pc(s.self)))
    ensures Steps(s, a, t)
  {
    hide Enabled, ProgramAfter;
    assert forall id :: id != s.self && id != n ==> t.Pc(id) == s.Pc(id);
  }

  /** Where the moving steps leave the coroutines. */
  lemma ReleaseSteps(s: State)
    requires Inv(s) && Enabled(s, CollateralRelease)
    ensures Steps(s, CollateralRelease, AfterCollateralRelease(s))
  {
    hide Inv, AfterCollateralRelease;
    ReleaseWhere(s);
    var t := AfterCollateralRelease(s);
    SelfSteps(s, CollateralRelease, t, t.Pc(s.self));
  }

  lemma ReleaseWhere(s: State)
    ensures var t := AfterCollateralRelease(s);
      t.where == s.where[s.self := Looping(Switching)] || t.where == s.where[s.self := Gone]
  {
    hide First, RemoveAt, YieldToWaiter;
    var i := First(s.collateral, s.Unblockable());
    if i < |s.collateral| {
      WaiterWhere(s, i);
    }
  }

  lemma WaiterWhere(s: State, i: nat)
    requires i < |s.collateral|
    ensures YieldToWaiter(s, i).where == s.where[s.self := Gone]
  {
    hide RemoveAt;
  }

  lemma SwitchSteps(s: State)
    requires Inv(s) && Enabled(s, ContextSwitch)
    ensures Steps(s, ContextSwitch, AfterContextSwitch(s))
  {
    hide Inv;
    if s.switches != [] {
      SwitchHead(s);
    }
    var t := AfterContextSwitch(s);
    SelfSteps(s, ContextSwitch, t, t.Pc(s.self));
  }

  lemma ParkSteps(s: State, c: nat)
    requires Inv(s) && Enabled(s, CollateralBlock(c))
    ensures Steps(s, CollateralBlock(c), AfterCollateralBlock(s, c))
  {
    hide Inv, Without, OwnerBlocked;
    var t, pc := AfterCollateralBlock(s, c), s.Pc(s.self);
    NewWhere(s);
    NewSteps(s, CollateralBlock(c), t, Waiting(pc.work, pc.next, pc.frames), s.current + 1);
  }

  lemma NewWhere(s: State)
    requires Inv(s)
    ensures s.current + 1 !in s.where && s.current + 1 != s.self && s.self in s.where && s.self in s.co
  {
    var n: nat := s.current + 1;
    assert n !in s.where;
  }

  lemma CommitSteps(s: State)
    requires Inv(s) && Enabled(s, BlockCommit)
    ensures Steps(s, BlockCommit, AfterBlockCommit(s))
  {
    hide Inv, First, Within, Without, FallsThrough, AtMostOneRelay, Yield, AfterBlockCommit, PortSet;
    NewWhere(s);
    CommitFields(s);
    var t, pc, top := AfterBlockCommit(s), s.Pc(s.self), Top(s);
    var outer := pc.frames[..|pc.frames| - 1];
    if FallsThrough(s) {
      SelfSteps(s, BlockCommit, t, Executing(pc.work, pc.next, outer));
    } else {
      var w := Blocking(pc.work, pc.next, outer, top.component);
      YieldWhere(PortSet(s), top.component, top.port);
      if t.where == PortSet(s).where {
        SelfSteps(s, BlockCommit, t, w);
      } else {
        NewSteps(s, BlockCommit, t, w, s.current + 1);
      }
    }
  }

  lemma YieldWhere(s: State, c: nat, port: nat)
    ensures var t := Yield(s, c, port);
      t.where == s.where || t.where == s.where[s.current + 1 := Looping(Switching)]
  {
    YieldIs(s, c, port);
    hide Within, First;
  }

  lemma ResumeSteps(s: State)
    requires Inv(s) && Enabled(s, BlockResume)
    ensures Steps(s, BlockResume, AfterBlockResume(s))
  {
    hide Inv, Without;
    GoneWhere(s);
    var t := AfterBlockResume(s);
    forall id | id != s.self ensures ProgramOf(t.Pc(id)) == ProgramOf(s.Pc(id)) {
      if id in s.Finished() {
        assert s.Pc(id) == Gone && t.Pc(id) == Gone;
      } else {
        assert t.Pc(id) == s.Pc(id);
      }
    }
  }

  lemma GoneWhere(s: State)
    requires Inv(s)
    ensures forall id :: id in s.Finished() ==> s.Pc(id) == Gone
  {
  }

  lemma TakeProgram(s: State)
    ensures ProgramOf(AfterTakeQueued(s).Pc(s.self))
      == Program(Deferring, if s.queue == [] then None else Some(Posted(s.queue[0])), [])
  {
  }

  lemma EndProgram(s: State)
    requires s.Pc(s.self).Executing?
    ensures ProgramOf(AfterEndWork(s).Pc(s.self)) == Program(s.Pc(s.self).next, None, [])
  {
  }

  lemma EnterProgram(s: State, c: nat, port: Pointer)
    requires s.Pc(s.self).Executing?
    ensures var p := ProgramOf(s.Pc(s.self));
      ProgramOf(AfterBlockEnter(s, c, port).Pc(s.self)) == p.(frames := p.frames + [Frame(c, port)])
  {
  }

  lemma LocalProgram(s: State, a: Action)
    requires Enabled(s, a) && Local(a)
    ensures ProgramOf(Apply(s, a).Pc(s.self)) == ProgramAfter(s, a, ProgramOf(s.Pc(s.self)))
  {
    hide NotPending, First, OwnerBlocked, AfterTakeQueued, AfterEndWork, AfterBlockEnter, AfterRelease;
    match a
    case TakeQueued => TakeProgram(s);
    case EndWork => EndProgram(s);
    case BlockEnter(c, p) => EnterProgram(s, c, p);
    case Release(c, p) => PortTouches(s, c, p);
    case _ =>
  }

  lemma LocalSteps(s: State, a: Action)
    requires Inv(s) && Enabled(s, a) && Local(a)
    ensures Steps(s, a, Apply(s, a))
  {
    hide Inv, Apply, Enabled, ProgramOf, ProgramAfter, Local;
    NewWhere(s);
    LocalProgram(s, a);
    LocalSameLists(s, a);
    var t := Apply(s, a);
    assert forall id :: id != s.self ==> t.Pc(id) == s.Pc(id);
  }

  lemma StepProgram(s: State, a: Action)
    requires Inv(s) && Enabled(s, a)
    ensures Steps(s, a, Apply(s, a))
  {
    hide Inv, Steps, AfterContextSwitch, AfterCollateralRelease, AfterCollateralBlock, AfterBlockCommit,
         AfterBlockResume;
    match a
    case ContextSwitch => SwitchSteps(s);
    case CollateralRelease => ReleaseSteps(s);
    case CollateralBlock(c) => ParkSteps(s, c);
    case BlockCommit => CommitSteps(s);
    case BlockResume => ResumeSteps(s);
    case _ => LocalSteps(s, a);
  }

  lemma {:induction false} RunProgram(s: State, steps: seq<Action>, t: State, id: nat)
    requires Inv(s) && Runs(s, steps, t)
    ensures ProgramOf(t.Pc(id)) == ProgramBy(s, steps, id, ProgramOf(s.Pc(id)))
    decreases |steps|
  {
    if steps != [] {
      StepProgram(s, steps[0]);
      StepKeeps(s, steps[0]);
      hide Inv, Apply, Enabled, ProgramAfter, ProgramOf;
      RunProgram(Apply(s, steps[0]), steps[1..], t, id);
    }
  }

  /** In every run a coroutine is where its own steps have led it, whatever others did while it was
      blocked or waited. */
  lemma CoroutinesKeepTheirPlace(steps: seq<Action>, t: State, id: nat)
    requires Runs(START, steps, t)
    ensures ProgramOf(t.Pc(id)) == ProgramBy(START, steps, id, FRESH)
  {
    StartInv();
    RunProgram(START, steps, t, id);
    hide Inv, Runs, ProgramBy;
  }

  // pending switches come first

  ghost predicate InTurn(s: State) {
    && (forall id :: id != s.self ==> ProgramOf(s.Pc(id)).stage != Queueing)
    && (forall id :: ProgramOf(s.Pc(id)).work.Some? ==>
          ProgramOf(s.Pc(id)).stage == Deferring || ProgramOf(s.Pc(id)).stage == Timing)
    && (ProgramOf(s.Pc(s.self)).stage == Queueing ==> s.switches == [])
  }

  /** Only a release stores a switch. */
  lemma SwitchesGrow(s: State, a: Action)
    requires Enabled(s, a) && s.switches == []
    ensures Apply(s, a).switches == [] || a.Release?
  {
    StepSwitches(s, a);
    hide Apply, Enabled;
    assert FoundBy(s, a) == [] || a.Release?;
  }

  /** A coroutine comes to the queue only from a look for switches that found none. */
  lemma ProgramTurns(s: State, a: Action, p: Program)
    requires Enabled(s, a) && p == ProgramOf(s.Pc(s.self))
    requires p.work.Some? ==> p.stage == Deferring || p.stage == Timing
    ensures var q := ProgramAfter(s, a, p);
      && (q.work.Some? ==> q.stage == Deferring || q.stage == Timing)
      && (q.stage == Queueing ==> (p.stage == Queueing && !a.Release?) || (a.ContextSwitch? && !Moves(s, a)))
      && (Moves(s, a) ==> q.stage != Queueing)
  {
    EmptySwitches(s, a);
    hide Apply, AtMostOneRelay, NotPending, OwnerBlocked, Moves;
  }

  lemma StepInTurn(s: State, a: Action)
    requires Inv(s) && Enabled(s, a) && InTurn(s)
    ensures InTurn(Apply(s, a))
  {
    hide Inv, Apply, Enabled, ProgramOf, ProgramAfter;
    StepProgram(s, a);
    EmptySwitches(s, a);
    if s.switches == [] {
      SwitchesGrow(s, a);
    } else {
      SwitchHead(s);
    }
    ProgramTurns(s, a, ProgramOf(s.Pc(s.self)));
  }

  lemma EmptySwitches(s: State, a: Action)
    requires Enabled(s, a)
    ensures a.ContextSwitch? && !Moves(s, a) ==> s.switches == [] || s.switches[0] == s.self
    ensures a.ContextSwitch? && !Moves(s, a) && s.switches == [] ==> Apply(s, a).switches == []
    ensures Moves(s, a) ==> a.ContextSwitch? || a.CollateralRelease? || a.CollateralBlock? || a.BlockCommit?
  {
    if Local(a) {
      LocalSameLists(s, a);
    }
  }

  lemma {:induction false} RunInTurn(s: State, steps: seq<Action>, t: State)
    requires Inv(s) && InTurn(s) && Runs(s, steps, t)
    ensures InTurn(t)
    decreases |steps|
  {
    hide Inv, Apply, Enabled, InTurn;
    if steps != [] {
      StepKeeps(s, steps[0]);
      StepInTurn(s, steps[0]);
      RunInTurn(Apply(s, steps[0]), steps[1..], t);
    }
  }

  /** In every run the pump takes a posted event only when no released coroutine waits for its switch. */
  lemma EventsWaitForReleases(steps: seq<Action>, t: State)
    requires Runs(START, steps, t) && Enabled(t, TakeQueued)
    ensures t.switches == []
  {
    StartInv();
    hide Inv, Runs;
    RunInTurn(START, steps, t);
    assert ProgramOf(t.Pc(t.self)).stage == Queueing;
  }
}
