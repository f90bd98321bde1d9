/** The state of the coroutine pump (runtime/c++/pump.cc) between two transfers of control,
    the steps that change it, and what every run keeps.

    Coroutines are known by their number.  Ports, components and numbers use 0 for the
    null pointer.  `where` and `self` say what the machine knows from program counters and
    stacks: where each coroutine is suspended, and which one has control. */
module PumpModel {
  import opened Sequences

  /** A pointer that is not null. */
  type Pointer = p: nat | p != 0 witness 1

  /** The fields of a coroutine that the pump edits. */
  datatype Coroutine = Coroutine(component: nat, port: nat, finished: bool)

  /** A closure that the worker executes. */
  datatype Work = Posted(id: nat) | Deferred(id: nat) | Timed(id: nat)

  /** What the loop of a coroutine does next. */
  datatype Stage = Queueing | Deferring | Timing | Releasing | Switching

  /** A call of `block` whose flush of the component queue has not ended. */
  datatype Frame = Frame(component: nat, port: Pointer)

  datatype Where =
    | Looping(stage: Stage)
    | Executing(work: Work, next: Stage, frames: seq<Frame>)
    | Blocking(work: Work, next: Stage, frames: seq<Frame>, component: nat)
    | Waiting(work: Work, next: Stage, frames: seq<Frame>)
    | Gone
  {
    /** The coroutine is executing work, or is suspended in the middle of it. */
    predicate Busy() {
      Executing? || Blocking? || Waiting?
    }

    predicate Carries(e: nat) {
      Busy() && work == Posted(e)
    }
  }

  datatype State = State(
    coroutines: seq<nat>,
    collateral: seq<nat>,
    co: map<nat, Coroutine>,
    unblocked: seq<nat>,
    switches: seq<nat>,
    queue: seq<nat>,
    current: nat,
    handling: map<nat, nat>,
    blockedBy: map<nat, nat>,
    skip: map<nat, nat>,
    self: nat,
    where: map<nat, Where>,
    posted: set<nat>,
    completed: seq<nat>)
  {
    function At(id: nat): Coroutine {
      if id in co then co[id] else Coroutine(0, 0, false)
    }

    function Pc(id: nat): Where {
      if id in where then where[id] else Gone
    }

    predicate Runnable(id: nat) {
      At(id).port == 0 && !At(id).finished
    }

    /** The collaterally blocked coroutines that wait on an unblocked port. */
    function Unblockable(): set<nat> {
      set id | id in collateral && At(id).port in unblocked
    }

    /** Those of them that wait to enter component `c`. */
    function Relayable(c: nat): set<nat> {
      set id | id in collateral && At(id).component == c && At(id).port in unblocked
    }

    function Finished(): set<nat> {
      set id | id in coroutines && At(id).finished
    }

    /** The coroutine that `collateral_block` looks for: the one handling `c`, else the one
        recorded as blocked in it. */
    function Owner(c: nat): nat {
      if Lookup(handling, c) != 0 then Lookup(handling, c) else Lookup(blockedBy, c)
    }

    /** The index in `coroutines` that `find_blocked` returns. */
    function FindBlocked(port: nat): nat {
      First(coroutines, set id | id in coroutines && At(id).port == port)
    }
  }

  function Lookup(m: map<nat, nat>, k: nat): nat {
    if k in m then m[k] else 0
  }

  datatype Action =
    | Post(event: nat)
    | TakeQueued
    | TakeDeferred(closure: nat)
    | NoDeferred
    | TakeTimer(closure: nat)
    | NoTimer
    | EndWork
    | CollateralRelease
    | ContextSwitch
    | EnterCall(component: nat, id: nat)
    | LeaveCall(component: nat)
    | ResetSkip(component: nat)
    | CollateralBlock(component: nat)
    | CollateralResume
    | BlockEnter(component: nat, port: Pointer)
    | BlockCommit
    | BlockResume
    | Release(component: nat, port: Pointer)

  /** The coroutine in control is inside a `block`. */
  predicate Committing(s: State) {
    s.Pc(s.self).Executing? && s.Pc(s.self).frames != []
  }

  /** The component and port of the innermost `block` whose flush is running. */
  function Top(s: State): Frame
    requires Committing(s)
  {
    var fs := s.Pc(s.self).frames;
    fs[|fs| - 1]
  }

  predicate FallsThrough(s: State)
    requires Committing(s)
  {
    Lookup(s.skip, Top(s).component) == Top(s).port
  }

  predicate Enabled(s: State, a: Action) {
    var pc := s.Pc(s.self);
    match a
    case Post(e) => e !in s.posted
    case TakeQueued => pc == Looping(Queueing)
    case TakeDeferred(_) => pc == Looping(Deferring) && s.queue == []
    case NoDeferred => pc == Looping(Deferring)
    case TakeTimer(_) => pc == Looping(Timing)
    case NoTimer => pc == Looping(Timing)
    case EndWork => pc.Executing? && pc.frames == []
    case CollateralRelease => pc == Looping(Releasing)
    case ContextSwitch => pc == Looping(Switching)
    case EnterCall(_, _) => pc.Executing?
    case LeaveCall(_) => pc.Executing?
    case ResetSkip(_) => pc.Executing?
    case CollateralBlock(c) => pc.Executing? && OwnerBlocked(s, c)
    case CollateralResume => pc.Waiting?
    case BlockEnter(_, _) => pc.Executing?
    case BlockCommit =>
      && Committing(s)
      && (FallsThrough(s) || AtMostOneRelay(s, Top(s).component))
    case BlockResume => pc.Blocking?
    case Release(_, p) => pc.Executing? && NotPending(s, p)
  }

  /** `collateral_block` finds the blocking port; otherwise it throws. */
  predicate OwnerBlocked(s: State, c: nat) {
    s.Owner(c) in s.coroutines && s.Owner(c) != s.self && s.At(s.Owner(c)).port != 0
  }

  /** Assumed of the environment: a blocking component has at most one waiter to relay. */
  predicate AtMostOneRelay(s: State, c: nat) {
    |Within(s.collateral, s.Relayable(c))| <= 1
  }

  /** Assumed of the environment: a port with a pending switch is not released again. */
  predicate NotPending(s: State, port: nat) {
    var i := s.FindBlocked(port);
    i < |s.coroutines| ==> s.coroutines[i] !in s.switches
  }

  function Apply(s: State, a: Action): State
    requires Enabled(s, a)
  {
    var pc := s.Pc(s.self);
    match a
    case Post(e) => s.(queue := s.queue + [e], posted := s.posted + {e})
    case TakeQueued => AfterTakeQueued(s)
    case TakeDeferred(d) => Goto(s, Executing(Deferred(d), Timing, []))
    case NoDeferred => Goto(s, Looping(Timing))
    case TakeTimer(t) => Goto(s, Executing(Timed(t), Timing, []))
    case NoTimer => Goto(s, Looping(Releasing))
    case EndWork => AfterEndWork(s)
    case CollateralRelease => AfterCollateralRelease(s)
    case ContextSwitch => AfterContextSwitch(s)
    case EnterCall(c, id) => s.(handling := s.handling[c := id])
    case LeaveCall(c) => s.(handling := s.handling[c := 0])
    case ResetSkip(c) => s.(skip := s.skip[c := 0])
    case CollateralBlock(c) => AfterCollateralBlock(s, c)
    case CollateralResume => Goto(s, Executing(pc.work, pc.next, pc.frames))
    case BlockEnter(c, p) => AfterBlockEnter(s, c, p)
    case BlockCommit => AfterBlockCommit(s)
    case BlockResume => AfterBlockResume(s)
    case Release(c, p) => AfterRelease(s, c, p)
  }

  /** The coroutine in control moves to another point of its program. */
  function Goto(s: State, w: Where): State {
    s.(where := s.where[s.self := w])
  }

  function AfterTakeQueued(s: State): State {
    if s.queue == [] then Goto(s, Looping(Deferring))
    else Goto(s, Executing(Posted(s.queue[0]), Deferring, [])).(queue := s.queue[1..])
  }

  function AfterEndWork(s: State): State
    requires s.Pc(s.self).Executing?
  {
    var pc := s.Pc(s.self);
    var r := Goto(s, Looping(pc.next));
    if pc.work.Posted? then r.(completed := s.completed + [pc.work.id]) else r
  }

  /** `block` up to the flush of the component queue. */
  function AfterBlockEnter(s: State, c: nat, port: Pointer): State
    requires s.Pc(s.self).Executing?
  {
    var pc := s.Pc(s.self);
    Goto(s, Executing(pc.work, pc.next, pc.frames + [Frame(c, port)]))
      .(blockedBy := s.blockedBy[c := s.self], handling := s.handling[c := s.self])
  }

  function AfterRelease(s: State, c: nat, port: Pointer): State {
    var i := s.FindBlocked(port);
    var r := s.(skip := s.skip[c := port]);
    if i < |s.coroutines| then r.(switches := s.switches + [s.coroutines[i]]) else r
  }

  /** `create_context`: a fresh coroutine at the end of the list. */
  function Create(s: State): State {
    var n := s.current + 1;
    s.(current := n, coroutines := s.coroutines + [n],
       co := s.co[n := Coroutine(0, 0, false)],
       where := s.where[n := Looping(Switching)])
  }

  /** Control goes to a fresh coroutine. */
  function YieldToNew(s: State): State {
    Create(s).(self := s.current + 1)
  }

  function AfterContextSwitch(s: State): State {
    if s.switches == [] then Goto(s, Looping(Queueing)) else YieldToBlocked(s)
  }

  /** The closure that `release` stored: the coroutine it names is no longer blocked; the
      coroutine in control finishes for it. */
  function YieldToBlocked(s: State): State
    requires s.switches != []
  {
    var b := s.switches[0];
    s.(switches := s.switches[1..],
       unblocked := s.unblocked + [s.At(b).port],
       co := s.co[b := s.At(b).(component := 0, port := 0)][s.self := s.At(s.self).(finished := true)],
       where := s.where[s.self := Gone],
       self := b)
  }

  function AfterCollateralRelease(s: State): State {
    var i := First(s.collateral, s.Unblockable());
    if s.unblocked == [] then Goto(s, Looping(Switching))
    else if i == |s.collateral| then Goto(s, Looping(Switching)).(unblocked := [])
    else YieldToWaiter(s, i)
  }

  /** The waiter at index `i` becomes runnable; the coroutine in control finishes for it. */
  function YieldToWaiter(s: State, i: nat): State
    requires i < |s.collateral|
  {
    var w := s.collateral[i];
    s.(collateral := RemoveAt(s.collateral, i),
       coroutines := s.coroutines + [w],
       co := s.co[w := s.At(w).(port := 0)][s.self := s.At(s.self).(finished := true)],
       where := s.where[s.self := Gone],
       self := w)
  }

  /** `s` after `collateral_block` has moved the coroutine in control to the waiters. */
  function Parked(s: State, c: nat): State
    requires s.Pc(s.self).Executing?
  {
    var pc := s.Pc(s.self);
    s.(coroutines := Without(s.coroutines, {s.self}),
       collateral := s.collateral + [s.self],
       co := s.co[s.self := Coroutine(c, s.At(s.Owner(c)).port, s.At(s.self).finished)],
       where := s.where[s.self := Waiting(pc.work, pc.next, pc.frames)])
  }

  function AfterCollateralBlock(s: State, c: nat): State
    requires s.Pc(s.self).Executing?
  {
    YieldToNew(Parked(s, c))
  }

  /** `s` after `block` has set the port of the coroutine in control. */
  function PortSet(s: State): State
    requires Committing(s)
  {
    var pc := s.Pc(s.self);
    var top := Top(s);
    s.(handling := s.handling[top.component := 0],
       co := s.co[s.self := s.At(s.self).(port := top.port)],
       where := s.where[s.self := Blocking(pc.work, pc.next, pc.frames[..|pc.frames| - 1], top.component)])
  }

  /** The rest of `block` once the component queue has been flushed. */
  function AfterBlockCommit(s: State): State
    requires Committing(s)
  {
    var pc := s.Pc(s.self);
    var top := Top(s);
    if FallsThrough(s) then
      Goto(s, Executing(pc.work, pc.next, pc.frames[..|pc.frames| - 1]))
        .(handling := s.handling[top.component := 0], skip := s.skip[top.component := 0])
    else
      Yield(PortSet(s), top.component, top.port)
  }

  /** `block` gives control away: to the waiter it relays, else to a fresh coroutine, after
      re-targeting the first unblockable waiter to the port of this block. */
  function Yield(s: State, c: nat, port: nat): State {
    var relayed := s.Relayable(c);
    if Within(s.collateral, relayed) != [] then YieldToLast(Relay(s, relayed))
    else YieldToNew(Retarget(s, port))
  }

  function YieldToLast(s: State): State
    requires s.coroutines != []
  {
    s.(self := s.coroutines[|s.coroutines| - 1])
  }

  /** What `collateral_release_skip_block` leaves behind. */
  function Relay(s: State, relayed: set<nat>): (r: State)
    ensures Within(s.collateral, relayed) != [] ==> r.coroutines != []
  {
    s.(collateral := Without(s.collateral, relayed),
       coroutines := s.coroutines + Reverse(Within(s.collateral, relayed)),
       co := Cleared(s.co, relayed))
  }

  /** The coroutines `ids` wait for nothing any more. */
  function Cleared(co: map<nat, Coroutine>, ids: set<nat>): map<nat, Coroutine> {
    map id | id in co :: if id in ids then co[id].(component := 0, port := 0) else co[id]
  }

  function Retarget(s: State, port: nat): State {
    var i := First(s.collateral, s.Unblockable());
    if i == |s.collateral| then s
    else s.(co := s.co[s.collateral[i] := s.At(s.collateral[i]).(port := port)])
  }

  function AfterBlockResume(s: State): State
    requires s.Pc(s.self).Blocking?
  {
    var pc := s.Pc(s.self);
    var gone := s.Finished();
    s.(coroutines := Without(s.coroutines, gone),
       co := s.co - gone,
       where := (s.where - gone)[s.self := Executing(pc.work, pc.next, pc.frames)],
       skip := s.skip[pc.component := 0],
       blockedBy := s.blockedBy[pc.component := 0])
  }

  /** The pump has made its first coroutine. */
  const START := State([1], [], map[1 := Coroutine(0, 0, false)], [], [], [], 1, map[], map[], map[],
                       1, map[1 := Looping(Switching)], {}, [])

  /** `t` is reached from `s` by the steps `steps`. */
  ghost predicate Runs(s: State, steps: seq<Action>, t: State)
    decreases |steps|
  {
    if steps == [] then s == t
    else Enabled(s, steps[0]) && Runs(Apply(s, steps[0]), steps[1..], t)
  }
}
