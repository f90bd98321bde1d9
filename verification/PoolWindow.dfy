/** The window between `assign` and `pop`: a worker can finish the work it was just given and wait
    for the pool, with its task locked and still in the queue of idle tasks. */
module PoolWindow {
  import opened PoolModel
  import opened Wrappers

  lemma {:induction false} RunsOn(s: Pool, steps: seq<Step>, m: Pool, step: Step)
    requires Runs(s, steps, m) && Enabled(m, step)
    ensures Runs(s, steps + [step], After(m, step))
    decreases |steps|
  {
    if steps == [] {
      assert [step][1..] == [];
    } else {
      assert (steps + [step])[1..] == steps[1..] + [step];
      RunsOn(After(s, steps[0]), steps[1..], m, step);
    }
  }

  /** The pool of one client after one piece of work: its task is idle. */
  const RESTED := Pool(None, [0], [Task(None, None, Some(0), Waiting(false))], [Out], 1, [0], [0], [0])

  /** The same pool, with the second piece of work assigned and done. */
  const WINDOW := Pool(Some(Client(0)), [0], [Task(Some(Worker(0)), None, Some(1), Returning(1))],
                       [Popping(1, 0, false)], 2, [0, 1], [0, 1], [0])

  /** The same pool when its first call is over: the new task has work. */
  const ASSIGNED := Pool(None, [], [Task(None, Some(0), Some(0), Starting)], [Out], 1, [0], [], [])

  // the pools on the way

  const CALLED := Pool(None, [], [], [WantPool(0)], 1, [], [], [])
  const ENTERED := Pool(Some(Client(0)), [], [], [HasPool(0)], 1, [], [], [])
  const MADE := Pool(Some(Client(0)), [], [NEW], [WantTask(0, 0, true)], 1, [], [], [])
  const LOCKED := Pool(Some(Client(0)), [], [Task(Some(Client(0)), None, None, Starting)],
                       [HasTask(0, 0, true)], 1, [], [], [])
  const GIVEN := Pool(Some(Client(0)), [], [Task(None, Some(0), Some(0), Starting)],
                      [Popping(0, 0, true)], 1, [0], [], [])
  const AWAKE := Pool(None, [], [Task(Some(Worker(0)), Some(0), Some(0), Holding)], [Out], 1, [0], [], [])
  const RUNS := Pool(None, [], [Task(None, None, Some(0), Running(0, Out))], [Out], 1, [0], [], [])
  const ENDED := Pool(None, [], [Task(None, None, Some(0), Relocking(0))], [Out], 1, [0], [0], [])
  const RETURNS := Pool(None, [], [Task(Some(Worker(0)), None, Some(0), Returning(0))],
                        [Out], 1, [0], [0], [])
  const PUSHES := Pool(Some(Worker(0)), [], [Task(Some(Worker(0)), None, Some(0), Pushing(0))],
                       [Out], 1, [0], [0], [])
  const PUSHED := Pool(None, [0], [Task(Some(Worker(0)), None, Some(0), Setting(0))], [Out], 1, [0], [0], [])
  const ANSWERED := Pool(None, [0], [Task(Some(Worker(0)), None, Some(0), Holding)], [Out], 1, [0], [0], [0])
  const CALLED2 := Pool(None, [0], [Task(None, None, Some(0), Waiting(false))],
                        [WantPool(1)], 2, [0], [0], [0])
  const ENTERED2 := Pool(Some(Client(0)), [0], [Task(None, None, Some(0), Waiting(false))],
                         [HasPool(1)], 2, [0], [0], [0])
  const CHOSEN2 := Pool(Some(Client(0)), [0], [Task(None, None, Some(0), Waiting(false))],
                        [WantTask(1, 0, false)], 2, [0], [0], [0])
  const LOCKED2 := Pool(Some(Client(0)), [0], [Task(Some(Client(0)), None, Some(0), Waiting(false))],
                        [HasTask(1, 0, false)], 2, [0], [0], [0])
  const GIVEN2 := Pool(Some(Client(0)), [0], [Task(None, Some(1), Some(1), Waiting(true))],
                       [Popping(1, 0, false)], 2, [0, 1], [0], [0])
  const AWAKE2 := Pool(Some(Client(0)), [0], [Task(Some(Worker(0)), Some(1), Some(1), Holding)],
                       [Popping(1, 0, false)], 2, [0, 1], [0], [0])
  const RUNS2 := Pool(Some(Client(0)), [0], [Task(None, None, Some(1), Running(1, Out))],
                      [Popping(1, 0, false)], 2, [0, 1], [0], [0])
  const ENDED2 := Pool(Some(Client(0)), [0], [Task(None, None, Some(1), Relocking(1))],
                       [Popping(1, 0, false)], 2, [0, 1], [0, 1], [0])

  lemma Do(s: Pool, steps: seq<Step>, m: Pool, step: Step, r: Pool) returns (more: seq<Step>)
    requires Runs(s, steps, m) && Enabled(m, step) && r == After(m, step)
    ensures Runs(s, more, r)
  {
    RunsOn(s, steps, m, step);
    more := steps + [step];
  }

  lemma FirstCall1(before: seq<Step>) returns (steps: seq<Step>)
    requires Runs(Start(1), before, Start(1))
    ensures Runs(Start(1), steps, MADE)
  {
    hide Runs;
    assert Start(1).clients == [Out];
    steps := before;
    steps := Do(Start(1), steps, Start(1), Ask(Client(0)), CALLED);
    steps := Do(Start(1), steps, CALLED, Go(Client(0)), ENTERED);
    steps := Do(Start(1), steps, ENTERED, Go(Client(0)), MADE);
  }

  lemma FirstCall2(before: seq<Step>) returns (steps: seq<Step>)
    requires Runs(Start(1), before, MADE)
    ensures Runs(Start(1), steps, ASSIGNED)
  {
    hide Runs;
    steps := before;
    steps := Do(Start(1), steps, MADE, Go(Client(0)), LOCKED);
    steps := Do(Start(1), steps, LOCKED, Go(Client(0)), GIVEN);
    steps := Do(Start(1), steps, GIVEN, Go(Client(0)), ASSIGNED);
  }

  lemma FirstWork1(before: seq<Step>) returns (steps: seq<Step>)
    requires Runs(Start(1), before, ASSIGNED)
    ensures Runs(Start(1), steps, ENDED)
  {
    hide Runs;
    steps := before;
    steps := Do(Start(1), steps, ASSIGNED, Go(Worker(0)), AWAKE);
    steps := Do(Start(1), steps, AWAKE, Go(Worker(0)), RUNS);
    steps := Do(Start(1), steps, RUNS, End(0), ENDED);
  }

  lemma FirstWork2(before: seq<Step>) returns (steps: seq<Step>)
    requires Runs(Start(1), before, ENDED)
    ensures Runs(Start(1), steps, PUSHED)
  {
    hide Runs;
    steps := before;
    steps := Do(Start(1), steps, ENDED, Go(Worker(0)), RETURNS);
    steps := Do(Start(1), steps, RETURNS, Go(Worker(0)), PUSHES);
    steps := Do(Start(1), steps, PUSHES, Go(Worker(0)), PUSHED);
  }

  lemma FirstWork3(before: seq<Step>) returns (steps: seq<Step>)
    requires Runs(Start(1), before, PUSHED)
    ensures Runs(Start(1), steps, RESTED)
  {
    hide Runs;
    steps := before;
    steps := Do(Start(1), steps, PUSHED, Go(Worker(0)), ANSWERED);
    steps := Do(Start(1), steps, ANSWERED, Go(Worker(0)), RESTED);
  }

  lemma SecondCall1(before: seq<Step>) returns (steps: seq<Step>)
    requires Runs(Start(1), before, RESTED)
    ensures Runs(Start(1), steps, CHOSEN2)
  {
    hide Runs;
    steps := before;
    steps := Do(Start(1), steps, RESTED, Ask(Client(0)), CALLED2);
    steps := Do(Start(1), steps, CALLED2, Go(Client(0)), ENTERED2);
    steps := Do(Start(1), steps, ENTERED2, Go(Client(0)), CHOSEN2);
  }

  lemma SecondCall2(before: seq<Step>) returns (steps: seq<Step>)
    requires Runs(Start(1), before, CHOSEN2)
    ensures Runs(Start(1), steps, AWAKE2)
  {
    hide Runs;
    steps := before;
    steps := Do(Start(1), steps, CHOSEN2, Go(Client(0)), LOCKED2);
    steps := Do(Start(1), steps, LOCKED2, Go(Client(0)), GIVEN2);
    steps := Do(Start(1), steps, GIVEN2, Go(Worker(0)), AWAKE2);
  }

  lemma SecondCall3(before: seq<Step>) returns (steps: seq<Step>)
    requires Runs(Start(1), before, AWAKE2)
    ensures Runs(Start(1), steps, WINDOW)
  {
    hide Runs;
    steps := before;
    steps := Do(Start(1), steps, AWAKE2, Go(Worker(0)), RUNS2);
    steps := Do(Start(1), steps, RUNS2, End(0), ENDED2);
    steps := Do(Start(1), steps, ENDED2, Go(Worker(0)), WINDOW);
  }

  /** In a reachable state the caller holds the pool, and the worker of the task at the front of
      the queue holds its task and waits for the pool.  The caller needs no more than the pool. */
  lemma WindowIsReachable() returns (steps: seq<Step>)
    ensures Runs(Start(1), steps, WINDOW)
    ensures 0 in WINDOW.idle && WINDOW.tasks[0].pc.Returning? && WINDOW.tasks[0].owner == Some(Worker(0))
    ensures WINDOW.owner == Some(Client(0))
  {
    steps := [];
    assert Runs(Start(1), steps, Start(1));
    hide Runs;
    steps := FirstCall1(steps);
    steps := FirstCall2(steps);
    steps := FirstWork1(steps);
    steps := FirstWork2(steps);
    steps := FirstWork3(steps);
    steps := SecondCall1(steps);
    steps := SecondCall2(steps);
    steps := SecondCall3(steps);
  }
}
