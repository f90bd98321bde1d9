/** A context whose work has released another one is not blocked yet when that runs.  Releasing it in
    that state throws, so user code has to stay away from it. */
module ContextLeaving {
  import opened ContextModel
  import opened Wrappers

  lemma {:induction false} RunsOn(s: Sys, steps: seq<Step>, m: Sys, step: Step)
    requires Shaped(s) && Shaped(m) && Runs(s, steps, m) && Enabled(m, step)
    ensures Runs(s, steps + [step], After(m, step))
    decreases |steps|
  {
    if steps == [] {
      assert [step][1..] == [];
    } else {
      assert (steps + [step])[1..] == steps[1..] + [step];
      hide Enabled, After;
      RunsOn(After(s, steps[0]), steps[1..], m, step);
    }
  }

  function Both(a: Mode, b: Mode, m: Option<nat>, n: Option<nat>, p: Pc, q: Pc, baton: nat): (s: Sys)
    requires baton < 2
    ensures Shaped(s)
  {
    Sys([a, b], [m, n], [p, q], baton)
  }

  // the main thread creates context 1

  const CREATING := Both(INITIAL, INITIAL, None, None, CreatorLock(1), Starting, 0)
  const STARTED := Both(INITIAL, INITIAL, None, Some(1), CreatorLock(1), Blocking, 0)
  const BLOCKS := Both(INITIAL, BLOCKED, None, None, CreatorLock(1), Waiting(false), 0)
  const TESTS := Both(INITIAL, BLOCKED, None, Some(0), CreatorTest(1), Waiting(false), 0)
  const CREATED := Both(INITIAL, BLOCKED, None, None, Run, Waiting(false), 0)

  // and calls it

  const CALLING := Both(INITIAL, BLOCKED, None, None, CallLock(1), Waiting(false), 0)
  const LOCKED := Both(INITIAL, BLOCKED, None, Some(0), CallRelease(1), Waiting(false), 0)
  const RELEASES := Both(INITIAL, RELEASED, None, Some(0), CallLockSelf(1), Waiting(true), 1)
  const HOLDS := Both(INITIAL, RELEASED, Some(0), Some(0), CallBlock(1), Waiting(true), 1)
  const SLEEPS := Both(BLOCKED, RELEASED, Some(0), None, CallWait, Waiting(true), 1)
  const ASLEEP := Both(BLOCKED, RELEASED, None, None, Waiting(false), Waiting(true), 1)
  const AWAKE := Both(BLOCKED, RELEASED, None, Some(1), Waiting(false), Woken, 1)
  const CALLED := Both(BLOCKED, RELEASED, None, None, Waiting(false), Run, 1)

  // its work releases context 0 and returns

  const EXITS := Both(BLOCKED, RELEASED, None, None, Waiting(false), ExitLock(0), 1)
  const GRABS := Both(BLOCKED, RELEASED, Some(1), None, Waiting(false), ExitRelease(0), 1)
  const LEAVES := Both(RELEASED, RELEASED, None, None, Waiting(true), Leaving, 0)
  const RETURNS := Both(RELEASED, RELEASED, Some(0), None, Woken, Leaving, 0)
  const LEFT := Both(RELEASED, RELEASED, None, None, Run, Leaving, 0)

  // and is called again at once

  const AGAIN := Both(RELEASED, RELEASED, None, None, CallLock(1), Leaving, 0)
  const GRABBED := Both(RELEASED, RELEASED, None, Some(0), CallRelease(1), Leaving, 0)
  const THROWN := Both(RELEASED, RELEASED, None, Some(0), Thrown, Leaving, 0)

  lemma Do(s: Sys, steps: seq<Step>, m: Sys, step: Step, r: Sys) returns (more: seq<Step>)
    requires Shaped(s) && Shaped(m) && Runs(s, steps, m) && Enabled(m, step) && r == After(m, step)
    ensures Runs(s, more, r)
  {
    RunsOn(s, steps, m, step);
    more := steps + [step];
  }

  lemma Creation() returns (steps: seq<Step>)
    ensures Runs(START, steps, STARTED)
  {
    steps := [];
    assert Runs(START, steps, START);
    hide Runs;
    steps := Do(START, steps, START, Ask(0, Create), CREATING);
    steps := Do(START, steps, CREATING, Go(1, 0), STARTED);
  }

  lemma Created(before: seq<Step>) returns (steps: seq<Step>)
    requires Runs(START, before, STARTED)
    ensures Runs(START, steps, CREATED)
  {
    hide Runs;
    steps := before;
    steps := Do(START, steps, STARTED, Go(1, 0), BLOCKS);
    steps := Do(START, steps, BLOCKS, Go(0, 0), TESTS);
    steps := Do(START, steps, TESTS, Go(0, 0), CREATED);
  }

  lemma FirstHalf(before: seq<Step>) returns (steps: seq<Step>)
    requires Runs(START, before, CREATED)
    ensures Runs(START, steps, HOLDS)
  {
    hide Runs;
    steps := before;
    steps := Do(START, steps, CREATED, Ask(0, CallTo(1)), CALLING);
    steps := Do(START, steps, CALLING, Go(0, 0), LOCKED);
    assert Sleeps(LOCKED, 1, 1);
    steps := Do(START, steps, LOCKED, Go(0, 1), RELEASES);
    steps := Do(START, steps, RELEASES, Go(0, 0), HOLDS);
  }

  lemma SecondHalf(before: seq<Step>) returns (steps: seq<Step>)
    requires Runs(START, before, HOLDS)
    ensures Runs(START, steps, CALLED)
  {
    hide Runs;
    steps := before;
    steps := Do(START, steps, HOLDS, Go(0, 0), SLEEPS);
    steps := Do(START, steps, SLEEPS, Go(0, 0), ASLEEP);
    steps := Do(START, steps, ASLEEP, Go(1, 0), AWAKE);
    steps := Do(START, steps, AWAKE, Go(1, 0), CALLED);
  }

  lemma Exits(before: seq<Step>) returns (steps: seq<Step>)
    requires Runs(START, before, CALLED)
    ensures Runs(START, steps, LEAVES)
  {
    hide Runs;
    steps := before;
    steps := Do(START, steps, CALLED, Ask(1, Exit(0)), EXITS);
    steps := Do(START, steps, EXITS, Go(1, 0), GRABS);
    assert Sleeps(GRABS, 0, 0);
    steps := Do(START, steps, GRABS, Go(1, 0), LEAVES);
  }

  lemma Returns(before: seq<Step>) returns (steps: seq<Step>)
    requires Runs(START, before, LEAVES)
    ensures Runs(START, steps, LEFT)
  {
    hide Runs;
    steps := before;
    steps := Do(START, steps, LEAVES, Go(0, 0), RETURNS);
    steps := Do(START, steps, RETURNS, Go(0, 0), LEFT);
  }

  lemma Throws() returns (steps: seq<Step>)
    ensures At(LEFT, 0, CallLock(1)) == AGAIN && Runs(AGAIN, steps, THROWN)
  {
    steps := [];
    assert Runs(AGAIN, steps, AGAIN);
    hide Runs;
    steps := Do(AGAIN, steps, AGAIN, Go(0, 0), GRABBED);
    steps := Do(AGAIN, steps, GRABBED, Go(0, 0), THROWN);
  }

  /** A state is reached in which the main thread runs and the other context is on the way out of its
      work.  It may not be called then; a call made all the same throws. */
  lemma LeavingIsReachable() returns (steps: seq<Step>, more: seq<Step>)
    ensures Runs(START, steps, LEFT) && LEFT.baton == 0 && LEFT.pc[0] == Run && LEFT.pc[1] == Leaving
    ensures !Asks(LEFT, 0, CallTo(1)) && Runs(At(LEFT, 0, CallLock(1)), more, THROWN) && THROWN.pc[0] == Thrown
  {
    steps := Creation();
    steps := Created(steps);
    steps := FirstHalf(steps);
    steps := SecondHalf(steps);
    steps := Exits(steps);
    steps := Returns(steps);
    more := Throws();
    hide Runs;
  }
}
