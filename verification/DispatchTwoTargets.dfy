/** With two flush targets for one component the two runtimes differ: the iterative one leaves
    an event in a queue.  Component 0 posts to component 1, which posts to 0 and then to 2; the
    one slot of component 1 remembers only 2. */
module DispatchTwoTargets {
  import opened DispatchModel
  import opened DispatchTheorems
  import opened Wrappers
  import C = DispatchC
  import Cs = DispatchCs

  const LATE := Event(4, [])
  const LAST := Event(5, [])
  const FORK := Event(3, [Post(false, 0, LATE), Post(false, 2, LAST)])
  const SECOND := Event(2, [Post(false, 1, FORK)])
  const FIRST := Event(1, [Post(true, 0, SECOND)])

  function I(deferred: Option<nat>, q: seq<Event>): Info {
    Info(false, true, deferred, q)
  }

  const CLEAN := I(None, [])
  const REST := Sys([CLEAN, CLEAN, CLEAN], [], [[], [], []])

  const L1 := [Ran(0, 1, false)]
  const L2 := [Ran(0, 1, false), Ran(0, 2, true)]
  const L3 := [Ran(0, 1, false), Ran(0, 2, true), Ran(1, 3, true)]
  const L4 := [Ran(0, 1, false), Ran(0, 2, true), Ran(1, 3, true), Ran(2, 5, true)]

  /** The body of `FIRST` has run. */
  const F0 := Sys([I(None, [SECOND]), CLEAN, CLEAN], L1, [[2], [], []])
  /** The body of `SECOND` has run. */
  const F1 := Sys([I(Some(1), []), I(None, [FORK]), CLEAN], L2, [[2], [3], []])
  const F2 := Sys([CLEAN, I(None, [FORK]), CLEAN], L2, [[2], [3], []])
  /** The body of `FORK` has run. */
  const F3 := Sys([I(None, [LATE]), I(Some(2), []), I(None, [LAST])], L3, [[2, 4], [3], [5]])
  const F4 := Sys([I(None, [LATE]), CLEAN, I(None, [LAST])], L3, [[2, 4], [3], [5]])
  /** The body of `LAST` has run; `LATE` is still queued for component 0. */
  const F5 := Sys([I(None, [LATE]), CLEAN, CLEAN], L4, [[2, 4], [3], [5]])

  /** A posted event goes to the queue of its target. */
  lemma BodyPushes(s: Sys, c: nat, p: Post)
    requires Wired(s) && c < |s.infos| && TargetsAll([p], |s.infos|) && p.tgt < |s.infos|
    requires !AtOnce(s, Source(c, p), p.tgt) && Targets(p.event, |s.infos|)
    ensures C.Body(s, c, [p]) == Pushed(s, Source(c, p), p.tgt, p.event)
    ensures Cs.Body(s, c, [p]) == Pushed(s, Source(c, p), p.tgt, p.event)
  {
    assert [p][1..] == [];
    var t := Pushed(s, Source(c, p), p.tgt, p.event);
    PushedKeeps(s, Source(c, p), p.tgt, p.event);
    assert C.Enqueue(s, Source(c, p), p.tgt, p.event) == t;
    assert Cs.Enqueue(s, Source(c, p), p.tgt, p.event) == t;
    assert C.Body(t, c, []) == t && Cs.Body(t, c, []) == t;
  }

  lemma Single<T>(x: T)
    ensures [] + [x] == [x]
  {
  }

  lemma TreeIsWired()
    ensures Targets(LATE, 3) && Targets(LAST, 3) && Targets(FORK, 3) && Targets(SECOND, 3) && Targets(FIRST, 3)
    ensures TargetsAll(FIRST.posts, 3) && TargetsAll(SECOND.posts, 3) && TargetsAll(FORK.posts, 3)
  {
    assert FORK.posts[1..] == [Post(false, 2, LAST)] && FORK.posts[1..][1..] == [];
    assert PostTargets(FORK.posts[0], 3) && PostTargets(FORK.posts[1], 3);
    assert TargetsAll(FORK.posts[1..], 3);
    assert TargetsAll(FORK.posts, 3);
    assert SECOND.posts[1..] == [] && FIRST.posts[1..] == [];
    assert PostTargets(SECOND.posts[0], 3);
    assert TargetsAll(SECOND.posts, 3);
    assert PostTargets(FIRST.posts[0], 3);
  }

  lemma StatesAreWired()
    ensures Wired(REST) && Wired(F0) && Wired(F1) && Wired(F2) && Wired(F3) && Wired(F4) && Wired(F5)
  {
    TreeIsWired();
    EarlyWired();
    LateWired();
  }

  lemma EarlyWired()
    ensures Wired(REST) && Wired(F0) && Wired(F1) && Wired(F2)
  {
    TreeIsWired();
    hide Targets, TargetsAll;
  }

  lemma LateWired()
    ensures Wired(F3) && Wired(F4) && Wired(F5)
  {
    TreeIsWired();
    hide Targets, TargetsAll;
  }

  lemma FirstBody()
    ensures Wired(REST) && Targets(FIRST, 3)
    ensures var a := Start(REST, 0, 1, false);
      && Wired(a) && TargetsAll(FIRST.posts, 3)
      && Stop(C.Body(a, 0, FIRST.posts), 0) == F0 && Stop(Cs.Body(a, 0, FIRST.posts), 0) == F0
  {
    TreeIsWired();
    StatesAreWired();
    StartKeeps(REST, 0, 1, false);
    var a := Start(REST, 0, 1, false);
    BodyPushes(a, 0, FIRST.posts[0]);
    var b := Pushed(a, None, 0, SECOND);
    Single(SECOND);
    Single<nat>(2);
    assert b.infos == [Info(true, true, None, [SECOND]), CLEAN, CLEAN];
    assert b.sent == [[2], [], []] && b.log == L1;
  }

  lemma SecondBody()
    ensures Wired(Popped(F0, 0)) && Targets(SECOND, 3)
    ensures var a := Start(Popped(F0, 0), 0, 2, true);
      && Wired(a) && TargetsAll(SECOND.posts, 3)
      && Stop(C.Body(a, 0, SECOND.posts), 0) == F1 && Stop(Cs.Body(a, 0, SECOND.posts), 0) == F1
  {
    TreeIsWired();
    StatesAreWired();
    PoppedKeeps(F0, 0);
    StartKeeps(Popped(F0, 0), 0, 2, true);
    var a := Start(Popped(F0, 0), 0, 2, true);
    BodyPushes(a, 0, SECOND.posts[0]);
    var b := Pushed(a, Some(0), 1, FORK);
    Single(FORK);
    Single<nat>(3);
    assert a.infos == [Info(true, true, None, []), CLEAN, CLEAN];
    assert b.infos == [Info(true, true, Some(1), []), I(None, [FORK]), CLEAN];
    assert b.sent == [[2], [3], []] && b.log == L2;
  }

  lemma ForkBody()
    ensures Wired(Popped(F2, 1)) && Targets(FORK, 3)
    ensures var a := Start(Popped(F2, 1), 1, 3, true);
      && Wired(a) && TargetsAll(FORK.posts, 3)
      && Stop(C.Body(a, 1, FORK.posts), 1) == F3 && Stop(Cs.Body(a, 1, FORK.posts), 1) == F3
  {
    TreeIsWired();
    StatesAreWired();
    PoppedKeeps(F2, 1);
    StartKeeps(Popped(F2, 1), 1, 3, true);
    var a := Start(Popped(F2, 1), 1, 3, true);
    assert FORK.posts[1..] == [Post(false, 2, LAST)];
    var m := Pushed(a, Some(1), 0, LATE);
    PushedKeeps(a, Some(1), 0, LATE);
    assert C.Body(a, 1, FORK.posts) == C.Body(m, 1, [Post(false, 2, LAST)]);
    assert Cs.Body(a, 1, FORK.posts) == Cs.Body(m, 1, [Post(false, 2, LAST)]);
    BodyPushes(m, 1, Post(false, 2, LAST));
    var b := Pushed(m, Some(1), 2, LAST);
    ForkPushes(a, m, b);
  }

  lemma ForkPushes(a: Sys, m: Sys, b: Sys)
    requires Known(F2, 1) && a == Start(Popped(F2, 1), 1, 3, true)
    requires Known(a, 1) && m == Pushed(a, Some(1), 0, LATE) && b == Pushed(m, Some(1), 2, LAST)
    ensures Stop(b, 1) == F3
  {
    Single(LATE);
    Single(LAST);
    Single<nat>(5);
    assert [2] + [4] == [2, 4] && [FORK][1..] == [];
    assert a.infos == [CLEAN, Info(true, true, None, []), CLEAN] && a.log == L3;
    assert m.infos == [I(None, [LATE]), Info(true, true, Some(0), []), CLEAN];
    assert m.sent == [[2, 4], [3], []];
    assert b.infos == [I(None, [LATE]), Info(true, true, Some(2), []), I(None, [LAST])];
    assert b.sent == [[2, 4], [3], [5]];
  }

  /** A queued event that posts nothing, on a component that owes nothing. */
  lemma LeafHandled(s: Sys, c: nat, e: Event)
    requires Wired(s) && c < |s.infos| && Idle(s, c) && e.posts == [] && Targets(e, |s.infos|)
    requires s.infos[c].q == [] && s.infos[c].deferred == None
    ensures var t := s.(log := s.log + [Ran(c, e.id, true)]);
      C.Handle(s, c, e, true) == t && Cs.Handle(s, c, e, true) == t
  {
    StartKeeps(s, c, e.id, true);
    var a := Start(s, c, e.id, true);
    StopKeeps(a, c);
    var t := Stop(a, c);
    assert t.infos == s.infos;
    assert C.Drain(t, c) == t && Cs.Drain(t, c) == t;
  }

  /** Both runtimes agree up to here: component 1 has been flushed, and component 2 after it. */
  lemma LastFlush()
    ensures Wired(F4) && C.Flush(F4, 2) == F5 && Cs.Flush(F4, 2) == F5
  {
    TreeIsWired();
    StatesAreWired();
    PoppedKeeps(F4, 2);
    var p := Popped(F4, 2);
    assert [LAST][1..] == [];
    assert p.infos == F5.infos;
    LeafHandled(p, 2, LAST);
    assert L3 + [Ran(2, 5, true)] == L4;
    IterativeFlush(F4, 2);
    assert C.Drain(F5, 2) == F5;
  }

  lemma ForkFlush()
    ensures Wired(F2) && C.Flush(F2, 1) == F5 && Cs.Flush(F2, 1) == F5
  {
    TreeIsWired();
    StatesAreWired();
    PoppedKeeps(F2, 1);
    ForkBody();
    LastFlush();
    assert Cleared(F3, 1).infos == F4.infos;
    FlushPasses(F3, 1, 2);
    IterativeFlush(F2, 1);
    assert C.Handle(Popped(F2, 1), 1, FORK, true) == F5;
    assert C.Drain(F5, 1) == F5;
  }

  lemma SecondHandled()
    ensures Wired(Popped(F0, 0)) && Targets(SECOND, 3)
    ensures C.Handle(Popped(F0, 0), 0, SECOND, true) == F5 && Cs.Handle(Popped(F0, 0), 0, SECOND, true) == F5
  {
    SecondBody();
    SecondPasses();
    var p := Popped(F0, 0);
    hide *;
    HandleIs(p, 0, SECOND, F1);
    ForkFlush();
  }

  lemma SecondPasses()
    ensures Wired(F1) && |F1.infos| == 3
    ensures Known(Popped(F0, 0), 0) && Idle(Popped(F0, 0), 0) && |Popped(F0, 0).infos| == 3
    ensures Known(F1, 0) && Idle(F1, 0) && SECOND.id == 2 && Wired(F2) && Idle(F2, 1)
    ensures C.Flush(F1, 0) == C.Flush(F2, 1) && Cs.Flush(F1, 0) == Cs.Flush(F2, 1)
  {
    StatesAreWired();
    assert Cleared(F1, 0).infos == F2.infos;
    FlushPasses(F1, 0, 1);
  }

  /** When the body of an event leaves the system in state `f`, its handling is the flush of `f`. */
  lemma HandleIs(s: Sys, c: nat, e: Event, f: Sys)
    requires Wired(s) && Known(s, c) && Idle(s, c) && Targets(e, |s.infos|)
    requires var a := Start(s, c, e.id, true);
      && Wired(a) && TargetsAll(e.posts, |s.infos|)
      && Stop(C.Body(a, c, e.posts), c) == f && Stop(Cs.Body(a, c, e.posts), c) == f
    requires Wired(f) && Known(f, c) && Idle(f, c)
    ensures C.Handle(s, c, e, true) == C.Flush(f, c) && Cs.Handle(s, c, e, true) == Cs.Flush(f, c)
  {
  }

  /** The recursive runtime is back in the loop over the queue of component 0, and runs `LATE`. */
  lemma LateRuns()
    ensures Wired(F5) && C.Drain(F5, 0).infos == [CLEAN, CLEAN, CLEAN]
  {
    TreeIsWired();
    StatesAreWired();
    PoppedKeeps(F5, 0);
    var p := Popped(F5, 0);
    assert [LATE][1..] == [];
    assert p.infos == [CLEAN, CLEAN, CLEAN];
    LeafHandled(p, 0, LATE);
    var t := C.Handle(p, 0, LATE, true);
    assert C.Drain(t, 0) == t;
  }

  lemma RecursiveFlush()
    ensures Wired(F0) && C.Flush(F0, 0).infos[0].q == []
  {
    TreeIsWired();
    StatesAreWired();
    SecondHandled();
    LateRuns();
    PoppedKeeps(F0, 0);
    hide Wired, Targets, TargetsAll, C.Handle, C.Body;
    assert C.Drain(F0, 0) == C.Drain(F5, 0);
  }

  lemma RecursiveResult()
    ensures Wired(REST) && Targets(FIRST, 3) && C.Handle(REST, 0, FIRST, false).infos[0].q == []
  {
    FirstBody();
    StatesAreWired();
    RecursiveFlush();
    hide TargetsAll, C.Body, C.Flush;
    assert C.Handle(REST, 0, FIRST, false) == C.Flush(F0, 0);
  }

  lemma IterativeResult()
    ensures Wired(REST) && Targets(FIRST, 3) && Cs.Handle(REST, 0, FIRST, false).infos[0].q == [LATE]
  {
    FirstBody();
    StatesAreWired();
    SecondHandled();
    PoppedKeeps(F0, 0);
    IterativeFlush(F0, 0);
    hide TargetsAll, Cs.Body, Cs.Flush;
    assert Cs.Handle(REST, 0, FIRST, false) == Cs.Flush(F0, 0);
  }

  /** The iterative runtime forgets the event, the recursive one does not. */
  lemma TwoTargetsDiffer()
    ensures Wired(REST) && AtRest(REST) && Targets(FIRST, 3)
    ensures C.Handle(REST, 0, FIRST, false).infos[0].q == []
    ensures Cs.Handle(REST, 0, FIRST, false).infos[0].q == [LATE]
  {
    RecursiveResult();
    IterativeResult();
  }
}
