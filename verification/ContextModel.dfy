/** The thread-backed contexts of runtime/c++/dzn/context.hh as an interleaving of steps, one for
    each time a thread takes or gives up a mutex.

    Context 0 is the one of the main thread; every other context has a thread of its own, with the
    same number.  All contexts share one baton: the thread that has it may run user code. */
module ContextModel {
  import opened Wrappers

  datatype Mode = INITIAL | RELEASED | BLOCKED | FINAL

  /** Where a thread is. */
  datatype Pc =
    | Run                               // user code
    // yield
    | LockSelf(to: nat)                 // about to lock its own mutex
    | LockTarget(to: nat)               // holds its own, about to lock the mutex of the target
    | InRelease(to: nat)                // holds both, about to release the target
    | Blocking                          // holds its own, about to block
    | Waiting(woken: bool)              // in the wait of `do_block` or `call`
    | Woken                             // holds its own again, about to look at its state
    // the constructor of context `of`, on the thread that calls it
    | CreatorLock(of: nat)
    | CreatorTest(of: nat)              // holds the mutex of the new context
    | CreatorWait(of: nat, woken: bool)
    // the new thread
    | Starting                          // about to lock its own mutex
    // call
    | CallLock(to: nat)
    | CallRelease(to: nat)              // holds the mutex of the target
    | CallLockSelf(to: nat)             // the same, and the target is released
    | CallBlock(to: nat)                // holds both
    | CallWait                          // holds its own, and its state is blocked
    // the end of the work: release a context, and return from it
    | ExitLock(to: nat)
    | ExitRelease(to: nat)              // holds the mutex of the target
    | Leaving                           // about to lock its own mutex, after the work
    // finish
    | FinishLock(of: nat)
    | FinishSet(of: nat)                // holds the mutex of the finished context
    | FinishNotify(of: nat)
    | FinishJoin(of: nat)               // waits for the thread to end
    | Done
    | Thrown                            // `do_release` found a context that is not blocked

  /** Who has the baton is history: it changes when a context is released. */
  datatype Sys = Sys(mode: seq<Mode>, owner: seq<Option<nat>>, pc: seq<Pc>, baton: nat)

  /** What user code may ask for. */
  datatype Request = YieldTo(to: nat) | Create | CallTo(to: nat) | Exit(to: nat) | Finish(of: nat)

  /** A thread starts a request, a thread goes on, or a wait ends without a reason.  Going on may
      notify: one of the waiting threads is picked. */
  datatype Step = Ask(t: nat, request: Request) | Go(t: nat, pick: nat) | Spurious(t: nat)

  const START := Sys([INITIAL], [None], [Run], 0)

  predicate Shaped(s: Sys) {
    |s.mode| == |s.owner| == |s.pc| && s.baton < |s.pc|
  }

  function At(s: Sys, t: nat, pc: Pc): Sys
    requires Shaped(s) && t < |s.pc|
  {
    s.(pc := s.pc[t := pc])
  }

  predicate Free(s: Sys, m: nat) {
    m < |s.owner| && s.owner[m] == None
  }

  function Lock(s: Sys, t: nat, m: nat, pc: Pc): Sys
    requires Shaped(s) && t < |s.pc| && m < |s.pc|
  {
    At(s, t, pc).(owner := s.owner[m := Some(t)])
  }

  function Unlock(s: Sys, t: nat, m: nat, pc: Pc): Sys
    requires Shaped(s) && t < |s.pc| && m < |s.pc|
  {
    At(s, t, pc).(owner := s.owner[m := None])
  }

  function SetMode(s: Sys, m: nat, mode: Mode): Sys
    requires Shaped(s) && m < |s.pc|
  {
    s.(mode := s.mode[m := mode])
  }

  /** Thread `t` waits on the condition of context `m` and was not notified yet. */
  predicate Sleeps(s: Sys, t: nat, m: nat) {
    t < |s.pc| && ((s.pc[t] == Waiting(false) && t == m) || s.pc[t] == CreatorWait(m, false))
  }

  function Awake(pc: Pc): Pc {
    match pc
    case Waiting(_) => Waiting(true)
    case CreatorWait(k, _) => CreatorWait(k, true)
    case _ => pc
  }

  /** `notify_one` on the condition of context `m`. */
  function Notify(s: Sys, m: nat, pick: nat): Sys
    requires Shaped(s)
  {
    if Sleeps(s, pick, m) then At(s, pick, Awake(s.pc[pick])) else s
  }

  /** `notify_one` wakes somebody if anybody waits. */
  ghost predicate Picked(s: Sys, m: nat, pick: nat) {
    (exists t: nat :: Sleeps(s, t, m)) ==> Sleeps(s, pick, m)
  }

  /** Context `k` may be yielded to, called, or released at the end of some work: it exists, is not
      the own one nor finished, and its thread is not on the way out of its work. */
  predicate Ready(s: Sys, t: nat, k: nat)
    requires Shaped(s)
  {
    k < |s.pc| && k != t && s.mode[k] != FINAL && s.pc[k] != Leaving
  }

  /** Only the main thread calls, only other threads have work that ends, and the context of the
      main thread is not finished by others. */
  predicate Asks(s: Sys, t: nat, request: Request)
    requires Shaped(s)
  {
    && t < |s.pc| && s.pc[t] == Run
    && match request
       case YieldTo(to) => Ready(s, t, to)
       case Create => true
       case CallTo(to) => t == 0 && Ready(s, t, to)
       case Exit(to) => t != 0 && Ready(s, t, to)
       case Finish(k) => k < |s.pc| && k != t && k != 0 && s.mode[k] != FINAL
  }

  function AfterAsk(s: Sys, t: nat, request: Request): Sys
    requires Shaped(s) && Asks(s, t, request)
  {
    match request
    case YieldTo(to) => At(s, t, LockSelf(to))
    case Create => Grown(At(s, t, CreatorLock(|s.pc|)))
    case CallTo(to) => At(s, t, CallLock(to))
    case Exit(to) => At(s, t, ExitLock(to))
    case Finish(k) => At(s, t, FinishLock(k))
  }

  function Grown(s: Sys): Sys {
    Sys(s.mode + [INITIAL], s.owner + [None], s.pc + [Starting], s.baton)
  }

  /** The thread has something to do that is not for user code to decide. */
  ghost predicate CanGo(s: Sys, t: nat, pick: nat)
    requires Shaped(s)
  {
    && t < |s.pc|
    && match s.pc[t]
       case Run | Done | Thrown => false
       case LockSelf(_) | Starting | Leaving => Free(s, t)
       case Waiting(woken) => woken && Free(s, t)
       case LockTarget(to) => Free(s, to)
       case InRelease(to) => to < |s.pc| && Picked(s, to, pick)
       case Blocking => Picked(s, t, pick)
       case Woken => true
       case CreatorLock(k) => Free(s, k)
       case CreatorTest(k) => k < |s.pc|
       case CreatorWait(k, woken) => woken && Free(s, k)
       case CallLock(to) => Free(s, to)
       case CallRelease(to) => to < |s.pc| && Picked(s, to, pick)
       case CallLockSelf(to) => Free(s, t)
       case CallBlock(to) => to < |s.pc|
       case CallWait => true
       case ExitLock(to) => Free(s, to)
       case ExitRelease(to) => to < |s.pc| && Picked(s, to, pick)
       case FinishLock(k) => Free(s, k)
       case FinishSet(k) => k < |s.pc|
       case FinishNotify(k) => k < |s.pc| && Picked(s, k, pick)
       case FinishJoin(k) => k < |s.pc| && s.pc[k] == Done
  }

  /** `do_release` by thread `t`, which goes on at `pc`. */
  function Release(s: Sys, t: nat, to: nat, pick: nat, pc: Pc): Sys
    requires Shaped(s) && t < |s.pc| && to < |s.pc|
  {
    if s.mode[to] != BLOCKED then At(s, t, Thrown)
    else At(Notify(SetMode(s, to, RELEASED), to, pick), t, pc).(baton := to)
  }

  /** `do_block` up to its wait. */
  function Block(s: Sys, t: nat, pick: nat): Sys
    requires Shaped(s) && t < |s.pc|
  {
    Unlock(Notify(SetMode(s, t, BLOCKED), t, pick), t, t, Waiting(false))
  }

  function AfterGo(s: Sys, t: nat, pick: nat): Sys
    requires Shaped(s) && CanGo(s, t, pick)
  {
    match s.pc[t]
    case Run | Done | Thrown => s
    case LockSelf(to) => Lock(s, t, t, LockTarget(to))
    case LockTarget(to) => Lock(s, t, to, InRelease(to))
    case InRelease(to) =>
      var r := Release(s, t, to, pick, Blocking);
      Unlock(r, t, to, r.pc[t])
    case Blocking => Block(s, t, pick)
    case Waiting(_) => Lock(s, t, t, Woken)
    case Woken =>
      Unlock(s, t, t, if s.mode[t] == BLOCKED then Waiting(false) else if s.mode[t] == FINAL then Done else Run)
    case Starting | Leaving => if s.mode[t] == FINAL then At(s, t, Done) else Lock(s, t, t, Blocking)
    case CreatorLock(k) => Lock(s, t, k, CreatorTest(k))
    case CreatorTest(k) => Unlock(s, t, k, if s.mode[k] == BLOCKED then Run else CreatorWait(k, false))
    case CreatorWait(k, _) => Lock(s, t, k, CreatorTest(k))
    case CallLock(to) => Lock(s, t, to, CallRelease(to))
    case CallRelease(to) => Release(s, t, to, pick, CallLockSelf(to))
    case CallLockSelf(to) => Lock(s, t, t, CallBlock(to))
    case CallBlock(to) => Unlock(SetMode(s, t, BLOCKED), t, to, CallWait)
    case CallWait => Unlock(s, t, t, Waiting(false))
    case ExitLock(to) => Lock(s, t, to, ExitRelease(to))
    case ExitRelease(to) =>
      var r := Release(s, t, to, pick, Leaving);
      Unlock(r, t, to, r.pc[t])
    case FinishLock(k) => Lock(s, t, k, FinishSet(k))
    case FinishSet(k) => Unlock(SetMode(s, k, FINAL), t, k, FinishNotify(k))
    case FinishNotify(k) => At(Notify(s, k, pick), t, FinishJoin(k))
    case FinishJoin(k) => At(s, t, Run)
  }

  ghost predicate Enabled(s: Sys, step: Step)
    requires Shaped(s)
  {
    match step
    case Ask(t, request) => Asks(s, t, request)
    case Go(t, pick) => CanGo(s, t, pick)
    case Spurious(t) => exists m: nat :: Sleeps(s, t, m)
  }

  lemma AskShaped(s: Sys, t: nat, request: Request)
    requires Shaped(s) && Asks(s, t, request)
    ensures Shaped(AfterAsk(s, t, request))
  {
  }

  lemma GoShaped(s: Sys, t: nat, pick: nat)
    requires Shaped(s) && CanGo(s, t, pick)
    ensures Shaped(AfterGo(s, t, pick))
  {
  }

  ghost function After(s: Sys, step: Step): (r: Sys)
    requires Shaped(s) && Enabled(s, step)
    ensures Shaped(r)
  {
    hide AfterAsk, AfterGo, Asks, CanGo;
    match step
    case Ask(t, request) =>
      AskShaped(s, t, request);
      AfterAsk(s, t, request)
    case Go(t, pick) =>
      GoShaped(s, t, pick);
      AfterGo(s, t, pick)
    case Spurious(t) => At(s, t, Awake(s.pc[t]))
  }

  ghost predicate Runs(s: Sys, steps: seq<Step>, r: Sys)
    requires Shaped(s)
    decreases |steps|
  {
    if steps == [] then s == r
    else Enabled(s, steps[0]) && Runs(After(s, steps[0]), steps[1..], r)
  }
}
