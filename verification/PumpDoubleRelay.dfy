/** A run that leads `block` to relay two waiters at once: component 1 blocks, two other events
    wait collaterally for it, the port is released, and component 1 blocks again. */
module PumpDoubleRelay {
  import opened Sequences
  import opened PumpModel
  import opened PumpProofs
  import opened PumpTheorems

  lemma {:induction false} RunsThen(s: State, first: seq<Action>, t: State, then_: seq<Action>, u: State)
    requires Runs(s, first, t) && Runs(t, then_, u)
    ensures Runs(s, first + then_, u)
    decreases |first|
  {
    hide Apply, Enabled;
    if first == [] {
      assert first + then_ == then_;
    } else {
      assert (first + then_)[1..] == first[1..] + then_;
      RunsThen(Apply(s, first[0]), first[1..], t, then_, u);
    }
  }

  const NEW := Coroutine(0, 0, false)
  const BLOCKED := Coroutine(0, 9, false)
  const PARKED := Coroutine(1, 9, false)
  const IN_BLOCK := Blocking(Posted(1), Deferring, [], 1)

  /** Coroutine 1 executes event 1 and flushes the queue of component 1 before blocking. */
  const IN_FLUSH := State([1], [], map[1 := NEW], [], [], [], 1, map[1 := 1], map[1 := 1], map[],
                          1, map[1 := Executing(Posted(1), Deferring, [Frame(1, 9)])], {1}, [])

  /** Coroutine 1 is blocked on port 9 in component 1. */
  const S1 := State([1, 2], [], map[1 := BLOCKED, 2 := NEW], [], [], [], 2, map[1 := 0], map[1 := 1], map[],
                    2, map[1 := IN_BLOCK, 2 := Looping(Switching)], {1}, [])

  lemma BlockFromIdle()
    ensures Runs(START, [ContextSwitch, Post(1), TakeQueued, BlockEnter(1, 9)], IN_FLUSH)
  {
    PickUp(START, 1);
    var c := Picked(START, 1);
    var d := Apply(c, BlockEnter(1, 9));
    assert [] + [Frame(1, 9)] == [Frame(1, 9)];
    assert d.where == IN_FLUSH.where && d.co == IN_FLUSH.co && d.posted == IN_FLUSH.posted;
    assert d.handling == IN_FLUSH.handling && d.blockedBy == IN_FLUSH.blockedBy;
    assert d == IN_FLUSH;
    assert Runs(c, [BlockEnter(1, 9)], d);
    hide Runs, Apply, Enabled;
    RunsThen(START, [ContextSwitch, Post(1), TakeQueued], c, [BlockEnter(1, 9)], IN_FLUSH);
    assert [ContextSwitch, Post(1), TakeQueued] + [BlockEnter(1, 9)]
        == [ContextSwitch, Post(1), TakeQueued, BlockEnter(1, 9)];
  }

  lemma FirstBlock()
    ensures Enabled(IN_FLUSH, BlockCommit) && Apply(IN_FLUSH, BlockCommit) == S1
  {
    var e := Apply(IN_FLUSH, BlockCommit);
    assert e.where == S1.where && e.co == S1.co && e.coroutines == S1.coroutines;
    assert e.handling == S1.handling;
  }

  /** `s` after the coroutine in control has taken event `e` from an empty queue. */
  function Picked(s: State, e: nat): State {
    Goto(s, Executing(Posted(e), Deferring, [])).(posted := s.posted + {e})
  }

  lemma PickUp(s: State, e: nat)
    requires s.Pc(s.self) == Looping(Switching) && s.switches == [] && s.queue == [] && e !in s.posted
    ensures Runs(s, [ContextSwitch, Post(e), TakeQueued], Picked(s, e))
  {
    var a := Goto(s, Looping(Queueing));
    var b := a.(queue := a.queue + [e], posted := a.posted + {e});
    assert Enabled(s, ContextSwitch) && Apply(s, ContextSwitch) == a;
    assert Enabled(a, Post(e)) && Apply(a, Post(e)) == b;
    TakeUp(s, e, b);
    hide Apply, Enabled;
    assert Runs(a, [Post(e), TakeQueued], Picked(s, e));
  }

  lemma TakeUp(s: State, e: nat, b: State)
    requires s.queue == []
    requires b == Goto(s, Looping(Queueing)).(queue := [] + [e], posted := s.posted + {e})
    ensures Runs(b, [TakeQueued], Picked(s, e))
  {
    assert b.queue == [e] && [e][1..] == [];
    var c := AfterTakeQueued(b);
    assert c.where == Picked(s, e).where;
    assert c == Picked(s, e);
    assert Enabled(b, TakeQueued) && Apply(b, TakeQueued) == c;
    hide Apply, Enabled;
  }

  /** Event `n` on coroutine `n` waits for component 1. */
  function Waiter(n: nat): Where {
    Waiting(Posted(n), Deferring, [])
  }

  lemma WithoutSecond(x: nat, y: nat)
    requires x != y
    ensures Without([x, y], {y}) == [x]
  {
    assert [x, y][1..] == [y] && [y][1..] == [];
    assert Without([y], {y}) == Without([], {y});
  }

  const S2 := State([1, 3], [2], map[1 := BLOCKED, 2 := PARKED, 3 := NEW], [], [], [], 3, map[1 := 0],
                    map[1 := 1], map[], 3, map[1 := IN_BLOCK, 2 := Waiter(2), 3 := Looping(Switching)],
                    {1, 2}, [])

  lemma SecondWaits()
    ensures Enabled(Picked(S1, 2), CollateralBlock(1)) && Apply(Picked(S1, 2), CollateralBlock(1)) == S2
  {
    var s := Picked(S1, 2);
    var t := Apply(s, CollateralBlock(1));
    assert s.where == map[1 := IN_BLOCK, 2 := Executing(Posted(2), Deferring, [])];
    WithoutSecond(1, 2);
    assert t.coroutines == [1, 3] && t.collateral == [2];
    assert t.co == S2.co && t.where == S2.where && t.posted == S2.posted;
  }

  const S3 := State([1, 4], [2, 3], map[1 := BLOCKED, 2 := PARKED, 3 := PARKED, 4 := NEW], [], [], [], 4,
                    map[1 := 0], map[1 := 1], map[], 4,
                    map[1 := IN_BLOCK, 2 := Waiter(2), 3 := Waiter(3), 4 := Looping(Switching)],
                    {1, 2, 3}, [])

  lemma ThirdWaits()
    ensures Enabled(Picked(S2, 3), CollateralBlock(1)) && Apply(Picked(S2, 3), CollateralBlock(1)) == S3
  {
    var s := Picked(S2, 3);
    var t := Apply(s, CollateralBlock(1));
    assert s.where == map[1 := IN_BLOCK, 2 := Waiter(2), 3 := Executing(Posted(3), Deferring, [])];
    WithoutSecond(1, 3);
    assert t.coroutines == [1, 4] && t.collateral == [2, 3];
    assert t.co == S3.co && t.where == S3.where && t.posted == S3.posted;
  }

  const S4 := State([1, 4], [2, 3], map[1 := BLOCKED, 2 := PARKED, 3 := PARKED, 4 := NEW], [], [1], [], 4,
                    map[1 := 0], map[1 := 1], map[1 := 9], 4,
                    map[1 := IN_BLOCK, 2 := Waiter(2), 3 := Waiter(3), 4 := Executing(Posted(4), Deferring, [])],
                    {1, 2, 3, 4}, [])

  lemma PortReleased()
    ensures Enabled(Picked(S3, 4), Release(1, 9)) && Apply(Picked(S3, 4), Release(1, 9)) == S4
  {
    var s := Picked(S3, 4);
    assert s.where == S4.where && s.posted == S4.posted;
    FirstIs(s.coroutines, set id | id in s.coroutines && s.At(id).port == 9, 0);
    assert s.FindBlocked(9) == 0;
    assert Apply(s, Release(1, 9)).skip == S4.skip;
  }

  lemma WorkEnds(s: State, e: nat)
    requires s.Pc(s.self) == Executing(Posted(e), Deferring, [])
    ensures Runs(s, [EndWork, NoDeferred, NoTimer], Goto(s, Looping(Releasing)).(completed := s.completed + [e]))
  {
    var a := AfterEndWork(s);
    var b := Goto(a, Looping(Timing));
    var c := Goto(b, Looping(Releasing));
    assert c.where == Goto(s, Looping(Releasing)).where;
    assert c == Goto(s, Looping(Releasing)).(completed := s.completed + [e]);
    assert Runs(b, [NoTimer], c);
    assert Runs(a, [NoDeferred, NoTimer], c);
  }

  lemma LoopEnds(c: State)
    requires c.Pc(c.self) == Looping(Releasing) && c.unblocked == [] && c.switches != []
    ensures Runs(c, [CollateralRelease, ContextSwitch], YieldToBlocked(Goto(c, Looping(Switching))))
  {
    var d := Goto(c, Looping(Switching));
    assert AfterCollateralRelease(c) == d;
    assert Runs(d, [ContextSwitch], YieldToBlocked(d));
  }

  /** The rest of the loop of a coroutine whose event has ended, up to a pending switch. */
  lemma WindDown(s: State, e: nat)
    requires s.Pc(s.self) == Executing(Posted(e), Deferring, []) && s.unblocked == [] && s.switches != []
    ensures Runs(s, [EndWork, NoDeferred, NoTimer, CollateralRelease, ContextSwitch],
                 YieldToBlocked(Goto(s, Looping(Switching)).(completed := s.completed + [e])))
  {
    var c := Goto(s, Looping(Releasing)).(completed := s.completed + [e]);
    var d := Goto(s, Looping(Switching)).(completed := s.completed + [e]);
    assert Goto(c, Looping(Switching)).where == d.where;
    assert Goto(c, Looping(Switching)) == d;
    WorkEnds(s, e);
    LoopEnds(c);
    hide Runs;
    RunsThen(s, [EndWork, NoDeferred, NoTimer], c, [CollateralRelease, ContextSwitch], YieldToBlocked(d));
    assert [EndWork, NoDeferred, NoTimer] + [CollateralRelease, ContextSwitch]
        == [EndWork, NoDeferred, NoTimer, CollateralRelease, ContextSwitch];
  }

  /** Coroutine 1 has control again, and flushes before it blocks on port 10. */
  const S5 := State([1], [2, 3], map[1 := NEW, 2 := PARKED, 3 := PARKED], [9], [], [], 4,
                    map[1 := 1], map[1 := 1], map[1 := 0], 1,
                    map[1 := Executing(Posted(1), Deferring, [Frame(1, 10)]), 2 := Waiter(2), 3 := Waiter(3)],
                    {1, 2, 3, 4}, [4])

  const RESUMED := State([1, 4], [2, 3],
                         map[1 := NEW, 2 := PARKED, 3 := PARKED, 4 := Coroutine(0, 0, true)], [9], [], [], 4,
                         map[1 := 0], map[1 := 1], map[1 := 9], 1,
                         map[1 := IN_BLOCK, 2 := Waiter(2), 3 := Waiter(3), 4 := Gone], {1, 2, 3, 4}, [4])

  /** The fourth event has ended. */
  const ENDED := State([1, 4], [2, 3], map[1 := BLOCKED, 2 := PARKED, 3 := PARKED, 4 := NEW], [], [1], [], 4,
                       map[1 := 0], map[1 := 1], map[1 := 9], 4,
                       map[1 := IN_BLOCK, 2 := Waiter(2), 3 := Waiter(3), 4 := Looping(Switching)],
                       {1, 2, 3, 4}, [4])

  lemma Ends()
    ensures Goto(S4, Looping(Switching)).(completed := [] + [4]) == ENDED
  {
    assert S4.where[4 := Looping(Switching)] == ENDED.where;
  }

  lemma ResumesEnded()
    ensures YieldToBlocked(ENDED) == RESUMED
  {
    var t := YieldToBlocked(ENDED);
    assert t.co == RESUMED.co && t.where == RESUMED.where;
    assert t.switches == [] && t.unblocked == [9];
  }

  lemma Resumes()
    ensures YieldToBlocked(Goto(S4, Looping(Switching)).(completed := [] + [4])) == RESUMED
  {
    Ends();
    ResumesEnded();
    hide *;
  }

  /** Coroutine 1 after its block. */
  const AWAKE := State([1], [2, 3], map[1 := NEW, 2 := PARKED, 3 := PARKED], [9], [], [], 4, map[1 := 0],
                       map[1 := 0], map[1 := 0], 1,
                       map[1 := Executing(Posted(1), Deferring, []), 2 := Waiter(2), 3 := Waiter(3)],
                       {1, 2, 3, 4}, [4])

  lemma Awakes()
    ensures AfterBlockResume(RESUMED) == AWAKE
  {
    assert RESUMED.Finished() == {4};
    WithoutSecond(1, 4);
    hide Without;
    var t := AfterBlockResume(RESUMED);
    assert t.co == AWAKE.co;
    assert t.where == AWAKE.where;
    assert t.skip == AWAKE.skip && t.blockedBy == AWAKE.blockedBy;
  }

  lemma EntersAgain(t: State)
    requires t == AWAKE
    ensures Enabled(t, BlockEnter(1, 10)) && Apply(t, BlockEnter(1, 10)) == S5
  {
    var u := Apply(t, BlockEnter(1, 10));
    assert [] + [Frame(1, 10)] == [Frame(1, 10)];
    assert u.where == S5.where && u.handling == S5.handling && u.blockedBy == S5.blockedBy && u.skip == S5.skip;
  }

  lemma BlocksAgain()
    ensures Runs(RESUMED, [BlockResume, BlockEnter(1, 10)], S5)
  {
    Awakes();
    EntersAgain(AWAKE);
    hide AfterBlockResume, AfterBlockEnter;
    assert Runs(AWAKE, [BlockEnter(1, 10)], S5);
  }

  lemma TwoMatch()
    ensures Committing(S5) && !FallsThrough(S5) && Top(S5) == Frame(1, 10) && !AtMostOneRelay(S5, 1)
  {
    assert S5.Relayable(1) == {2, 3};
    assert Within([2, 3], {2, 3}) == [2, 3] by {
      assert [2, 3][1..] == [3] && [3][1..] == [];
      assert Within([3], {2, 3}) == [3] + Within([], {2, 3});
    }
  }

  /** A step appended to a run. */
  lemma RunsOne(s: State, steps: seq<Action>, t: State, a: Action)
    requires Runs(s, steps, t) && Enabled(t, a)
    ensures Runs(s, steps + [a], Apply(t, a))
  {
    assert Runs(t, [a], Apply(t, a));
    RunsThen(s, steps, t, [a], Apply(t, a));
  }

  lemma Extend(steps: seq<Action>, s: State, more: seq<Action>, t: State, a: Action) returns (all: seq<Action>)
    requires Runs(START, steps, s) && (Runs(s, more, t) || (more == [] && s == t)) && Enabled(t, a)
    ensures Runs(START, all, Apply(t, a))
  {
    RunsThen(START, steps, s, more, t);
    RunsOne(START, steps + more, t, a);
    all := steps + more + [a];
  }

  lemma ReachesS1() returns (steps: seq<Action>)
    ensures Runs(START, steps, S1)
  {
    BlockFromIdle();
    FirstBlock();
    hide Apply, Enabled, Runs;
    steps := Extend([ContextSwitch, Post(1), TakeQueued, BlockEnter(1, 9)], IN_FLUSH, [], IN_FLUSH, BlockCommit);
  }

  lemma ReachesS2() returns (steps: seq<Action>)
    ensures Runs(START, steps, S2)
  {
    steps := ReachesS1();
    PickUp(S1, 2);
    SecondWaits();
    hide Apply, Enabled, Runs;
    steps := Extend(steps, S1, [ContextSwitch, Post(2), TakeQueued], Picked(S1, 2), CollateralBlock(1));
  }

  lemma ReachesS3() returns (steps: seq<Action>)
    ensures Runs(START, steps, S3)
  {
    steps := ReachesS2();
    PickUp(S2, 3);
    ThirdWaits();
    hide Apply, Enabled, Runs;
    steps := Extend(steps, S2, [ContextSwitch, Post(3), TakeQueued], Picked(S2, 3), CollateralBlock(1));
  }

  lemma ReachesS4() returns (steps: seq<Action>)
    ensures Runs(START, steps, S4)
  {
    steps := ReachesS3();
    PickUp(S3, 4);
    PortReleased();
    hide Apply, Enabled, Runs;
    steps := Extend(steps, S3, [ContextSwitch, Post(4), TakeQueued], Picked(S3, 4), Release(1, 9));
  }

  lemma ReachesS5() returns (steps: seq<Action>)
    ensures Runs(START, steps, S5)
  {
    steps := ReachesS4();
    WindDown(S4, 4);
    Resumes();
    BlocksAgain();
    hide Apply, Enabled, Runs;
    RunsThen(START, steps, S4, [EndWork, NoDeferred, NoTimer, CollateralRelease, ContextSwitch], RESUMED);
    steps := steps + [EndWork, NoDeferred, NoTimer, CollateralRelease, ContextSwitch];
    RunsThen(START, steps, RESUMED, [BlockResume, BlockEnter(1, 10)], S5);
    steps := steps + [BlockResume, BlockEnter(1, 10)];
  }

  /** A run of the pump does lead to a state in which the release of a port that has a pending
      switch already would store a second switch for the same coroutine. */
  lemma SecondReleaseIsReachable() returns (steps: seq<Action>)
    ensures Runs(START, steps, S4) && S4.Pc(S4.self).Executing?
    ensures !NotPending(S4, 9) && !Pending(AfterRelease(S4, 1, 9))
  {
    steps := ReachesS4();
    assert S4.At(1).port == 9 && S4.FindBlocked(9) == 0;
    assert !NotPending(S4, 9);
    hide Runs, AfterRelease, NotPending;
    StartInv();
    RunKeeps(START, steps, S4);
    ReleaseKeepsPending(S4, 1, 9);
  }

  /** A run of the pump does lead to a block with two waiters to relay, which then leaves two
      runnable coroutines. */
  lemma TwoRelaysAreReachable() returns (steps: seq<Action>, t: State)
    ensures Runs(START, steps, t) && Committing(t) && !FallsThrough(t)
    ensures !Baton(AfterBlockCommit(t))
  {
    t := S5;
    steps := ReachesS5();
    TwoMatch();
    hide Runs, AfterBlockCommit;
    StartInv();
    RunKeeps(START, steps, S5);
    BatonAfterBlock(S5);
  }
}
