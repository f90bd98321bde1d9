/** When dispatch runs every tree to completion: exactly when no flushing component has two flush
    targets. */
module DispatchExactly {
  import opened DispatchModel
  import opened DispatchProofs
  import opened DispatchTheorems
  import opened Wrappers
  import C = DispatchC
  import Cs = DispatchCs

  /** Who flushes, and which components each flushing component may post to. */
  datatype Plan = Plan(flushes: seq<bool>, targets: seq<set<nat>>)

  predicate MayPost(e: Event, c: nat, p: Plan)
    decreases e, 1
  {
    MayPostAll(e.posts, c, p)
  }

  predicate MayPostAll(posts: seq<Post>, c: nat, p: Plan)
    decreases posts, 0
  {
    posts == [] || (MayPostOne(posts[0], c, p) && MayPostAll(posts[1..], c, p))
  }

  predicate MayPostOne(q: Post, c: nat, p: Plan)
    decreases q, 2
  {
    && q.tgt < |p.flushes|
    && (!q.external && c < |p.flushes| == |p.targets| && p.flushes[c] ==> q.tgt in p.targets[c])
    && MayPost(q.event, q.tgt, p)
  }

  /** The system is at rest, and the tree of event `e` of component `c` is one the plan allows. */
  ghost predicate Allows(p: Plan, s: Sys, c: nat, e: Event) {
    && Wired(s) && AtRest(s) && |p.flushes| == |p.targets| == |s.infos| && c < |s.infos|
    && (forall x :: 0 <= x < |s.infos| ==> s.infos[x].flushes == p.flushes[x])
    && Targets(e, |s.infos|) && MayPost(e, c, p)
  }

  /** The recursive runtime runs every allowed tree to completion. */
  ghost predicate CompletesC(p: Plan) {
    forall s: Sys, c: nat, e: Event :: Allows(p, s, c, e) ==> AtRest(C.Handle(s, c, e, false))
  }

  /** So does the iterative one. */
  ghost predicate CompletesCs(p: Plan) {
    forall s: Sys, c: nat, e: Event :: Allows(p, s, c, e) ==> AtRest(Cs.Handle(s, c, e, false))
  }

  ghost predicate OneTarget(p: Plan) {
    forall c: nat, x: nat, y: nat :: TwoOf(p, c, x, y) ==> x == y
  }

  /** Component `c` flushes and may post to `x` and to `y`. */
  predicate TwoOf(p: Plan, c: nat, x: nat, y: nat) {
    && c < |p.flushes| == |p.targets| && p.flushes[c]
    && x < |p.flushes| && y < |p.flushes| && x in p.targets[c] && y in p.targets[c]
  }

  // one target suffices

  ghost function Target(p: Plan, c: nat): nat
    requires c < |p.targets|
  {
    if exists x: nat :: x in p.targets[c] && x < |p.flushes| then
      var x: nat :| x in p.targets[c] && x < |p.flushes|; x
    else 0
  }

  ghost function WiringOf(p: Plan): Wiring {
    Wiring(p.flushes, seq(|p.targets|, c requires 0 <= c < |p.targets| => Target(p, c)))
  }

  lemma {:induction false} MayPostFits(e: Event, c: nat, p: Plan)
    requires OneTarget(p) && MayPost(e, c, p) && |p.flushes| == |p.targets|
    ensures Fits(e, c, WiringOf(p))
    decreases e, 1
  {
    MayPostAllFits(e.posts, c, p);
  }

  lemma {:induction false} MayPostAllFits(posts: seq<Post>, c: nat, p: Plan)
    requires OneTarget(p) && MayPostAll(posts, c, p) && |p.flushes| == |p.targets|
    ensures FitsAll(posts, c, WiringOf(p))
    decreases posts, 0
  {
    if posts != [] {
      MayPostOneFits(posts[0], c, p);
      MayPostAllFits(posts[1..], c, p);
    }
  }

  lemma {:induction false} MayPostOneFits(q: Post, c: nat, p: Plan)
    requires OneTarget(p) && MayPostOne(q, c, p) && |p.flushes| == |p.targets|
    ensures FitsPost(q, c, WiringOf(p))
    decreases q, 2
  {
    MayPostFits(q.event, q.tgt, p);
    if !q.external && c < |p.flushes| && p.flushes[c] {
      assert TwoOf(p, c, q.tgt, Target(p, c));
    }
  }

  lemma OneTargetCompletes(p: Plan, s: Sys, c: nat, e: Event)
    requires OneTarget(p) && Allows(p, s, c, e)
    ensures AtRest(C.Handle(s, c, e, false)) && AtRest(Cs.Handle(s, c, e, false))
  {
    var w := WiringOf(p);
    MayPostFits(e, c, p);
    assert Fitting(s, w);
    RunsToCompletion(s, c, e, w);
  }

  // two targets do not

  const LEAF := Event(1, [])

  /** An event that posts to `x`, and then to `y`. */
  function Fork(x: nat, y: nat): Event {
    Event(0, [Post(false, x, LEAF), Post(false, y, LEAF)])
  }

  lemma ForkTargets(x: nat, y: nat, n: nat)
    requires x < n && y < n
    ensures Targets(LEAF, n) && Targets(Fork(x, y), n)
    ensures var posts := Fork(x, y).posts;
      posts[1..] == [Post(false, y, LEAF)] && posts[1..][1..] == [] && TargetsAll(posts[1..], n) && TargetsAll(posts, n)
  {
    var posts := Fork(x, y).posts;
    assert posts[1..] == [Post(false, y, LEAF)] && posts[1..][1..] == [];
    assert PostTargets(posts[0], n) && PostTargets(posts[1], n);
    assert TargetsAll(posts[1..], n);
  }

  /** The system after the body of the fork. */
  function Forked(s: Sys, c: nat, x: nat, y: nat): Sys
    requires Known(s, c) && Idle(s, c) && x < |s.infos| && y < |s.infos|
  {
    Stop(Pushed(Pushed(Start(s, c, 0, false), Some(c), x, LEAF), Some(c), y, LEAF), c)
  }

  lemma ForkBody(s: Sys, c: nat, x: nat, y: nat)
    requires Wired(s) && c < |s.infos| && Idle(s, c) && s.infos[c].flushes && x < |s.infos| && y < |s.infos|
    ensures Targets(Fork(x, y), |s.infos|) && Wired(Forked(s, c, x, y))
    ensures C.Handle(s, c, Fork(x, y), false) == C.Flush(Forked(s, c, x, y), c)
    ensures Cs.Handle(s, c, Fork(x, y), false) == Cs.Flush(Forked(s, c, x, y), c)
  {
    var n, posts := |s.infos|, Fork(x, y).posts;
    ForkTargets(x, y, n);
    StartKeeps(s, c, 0, false);
    var a := Start(s, c, 0, false);
    var m, b := Pushed(a, Some(c), x, LEAF), Pushed(Pushed(a, Some(c), x, LEAF), Some(c), y, LEAF);
    PushedKeeps(a, Some(c), x, LEAF);
    PushedKeeps(m, Some(c), y, LEAF);
    StopKeeps(b, c);
    BodyOfPost(a, c, posts);
    BodyOfPost(m, c, posts[1..]);
    assert C.Body(b, c, []) == b && Cs.Body(b, c, []) == b;
    hide C.Body, Cs.Body, C.Flush, Cs.Flush;
    assert C.Handle(s, c, Fork(x, y), false) == C.Flush(Stop(C.Body(a, c, posts), c), c);
  }

  /** A post of a flushing component is queued. */
  lemma BodyOfPost(s: Sys, c: nat, posts: seq<Post>)
    requires Wired(s) && c < |s.infos| && s.infos[c].flushes && posts != [] && TargetsAll(posts, |s.infos|)
    requires !posts[0].external
    ensures posts[0].tgt < |s.infos| && Targets(posts[0].event, |s.infos|)
    ensures var t := Pushed(s, Some(c), posts[0].tgt, posts[0].event);
      && Wired(t) && |t.infos| == |s.infos|
      && C.Body(s, c, posts) == C.Body(t, c, posts[1..]) && Cs.Body(s, c, posts) == Cs.Body(t, c, posts[1..])
  {
    var q := posts[0];
    assert PostTargets(q, |s.infos|);
    PushedKeeps(s, Some(c), q.tgt, q.event);
    assert !AtOnce(s, Some(c), q.tgt);
    assert C.Enqueue(s, Some(c), q.tgt, q.event) == Pushed(s, Some(c), q.tgt, q.event);
    assert Cs.Enqueue(s, Some(c), q.tgt, q.event) == Pushed(s, Some(c), q.tgt, q.event);
  }

  lemma ForkedInfos(s: Sys, c: nat, x: nat, y: nat)
    requires Wired(s) && AtRest(s) && c < |s.infos| && x < |s.infos| && y < |s.infos| && x != y && x != c
    ensures var d := Forked(s, c, x, y);
      && |d.infos| == |s.infos| && d.infos[x].q == [LEAF] && d.infos[c].deferred == Some(y)
      && (forall z :: 0 <= z < |s.infos| ==>
            !d.infos[z].handling && (z != c ==> d.infos[z].deferred == None)
            && (z != x ==> d.infos[z].q == if z == y then [LEAF] else []))
  {
  }

  /** A leaf in the queue of a component that owes nothing, or a flush of itself, is run, and
      nothing else happens. */
  lemma LeafFlushed(d: Sys, y: nat, x: nat)
    requires Wired(d) && y < |d.infos| && x < |d.infos| && x != y && Idle(d, y) && d.infos[y].q == [LEAF]
    requires d.infos[y].deferred == None || d.infos[y].deferred == Some(y)
    ensures C.Flush(d, y).infos[x] == d.infos[x] && Cs.Flush(d, y).infos[x] == d.infos[x]
  {
    PoppedKeeps(d, y);
    var p := Popped(d, y);
    assert p.infos[y].q == [];
    LeafRun(p, y);
    var t := p.(log := p.log + [Ran(y, 1, true)]);
    NothingQueued(t, y);
    assert Cs.Drain(d, y) == t;
    var u := C.Flush(t, y);
    assert C.Handle(p, y, LEAF, true) == u;
    assert C.Drain(d, y) == C.Drain(u, y);
  }

  lemma LeafRun(p: Sys, y: nat)
    requires Wired(p) && y < |p.infos| && Idle(p, y)
    ensures Wired(Start(p, y, 1, true)) && Targets(LEAF, |p.infos|)
    ensures Stop(C.Body(Start(p, y, 1, true), y, []), y) == p.(log := p.log + [Ran(y, 1, true)])
    ensures Stop(Cs.Body(Start(p, y, 1, true), y, []), y) == p.(log := p.log + [Ran(y, 1, true)])
  {
    StartKeeps(p, y, 1, true);
    assert Stop(Start(p, y, 1, true), y).infos == p.infos;
  }

  /** A flush without queued events, by a component that owes at most a flush of itself. */
  lemma NothingQueued(t: Sys, y: nat)
    requires Wired(t) && y < |t.infos| && Idle(t, y) && t.infos[y].q == []
    requires t.infos[y].deferred == None || t.infos[y].deferred == Some(y)
    ensures var u := if t.infos[y].deferred == None then t else Cleared(t, y);
      C.Flush(t, y) == u && Cs.Flush(t, y) == u
  {
    if t.infos[y].deferred != None {
      ClearedKeeps(t, y);
      var u := Cleared(t, y);
      assert C.Drain(u, y) == u && Cs.Drain(u, y) == u;
    }
  }

  /** From rest, a flushing component that posts to `x` and then to another component leaves the
      first event in its queue, in both runtimes. */
  lemma ForgetsFirst(s: Sys, c: nat, x: nat, y: nat)
    requires Wired(s) && AtRest(s) && c < |s.infos| && s.infos[c].flushes
    requires x < |s.infos| && y < |s.infos| && x != y && x != c
    ensures Targets(Fork(x, y), |s.infos|)
    ensures C.Handle(s, c, Fork(x, y), false).infos[x].q == [LEAF]
    ensures Cs.Handle(s, c, Fork(x, y), false).infos[x].q == [LEAF]
  {
    ForkBody(s, c, x, y);
    ForkedInfos(s, c, x, y);
    var d := Forked(s, c, x, y);
    hide AtRest, Forked, C.Handle, Cs.Handle;
    if y == c {
      LeafFlushed(d, c, x);
    } else {
      ClearedKeeps(d, c);
      LeafFlushed(Cleared(d, c), y, x);
      FlushPasses(d, c, y);
    }
  }

  function CleanInfos(p: Plan): seq<Info> {
    seq(|p.flushes|, c requires 0 <= c < |p.flushes| => Info(false, p.flushes[c], None, []))
  }

  function Clean(p: Plan): Sys {
    Sys(CleanInfos(p), [], seq(|p.flushes|, _ => []))
  }

  lemma TwoTargetsForget(p: Plan, c: nat, x: nat, y: nat)
    requires TwoOf(p, c, x, y) && x != y && x != c
    ensures !CompletesC(p) && !CompletesCs(p)
  {
    var s := Clean(p);
    assert Wired(s) && AtRest(s);
    ForkTargets(x, y, |p.flushes|);
    var posts := Fork(x, y).posts;
    assert MayPostOne(posts[0], c, p) && MayPostOne(posts[1], c, p);
    assert MayPostAll(posts[1..], c, p);
    assert Allows(p, s, c, Fork(x, y));
    ForgetsFirst(s, c, x, y);
  }

  /** Each runtime runs every tree that a plan allows to completion if and only if no flushing
      component may post to two components. */
  lemma CompletesExactly(p: Plan)
    requires |p.flushes| == |p.targets|
    ensures CompletesC(p) <==> OneTarget(p)
    ensures CompletesCs(p) <==> OneTarget(p)
  {
    if OneTarget(p) {
      forall s: Sys, c: nat, e: Event | Allows(p, s, c, e)
        ensures AtRest(C.Handle(s, c, e, false)) && AtRest(Cs.Handle(s, c, e, false))
      {
        OneTargetCompletes(p, s, c, e);
      }
    } else {
      var c: nat, x: nat, y: nat :| TwoOf(p, c, x, y) && x != y;
      if x != c {
        TwoTargetsForget(p, c, x, y);
      } else {
        TwoTargetsForget(p, c, y, x);
      }
    }
  }
}
