/** Dispatch runs to completion, in queue order, and the two runtimes agree. */
module DispatchTheorems {
  import opened DispatchModel
  import opened DispatchProofs
  import opened Wrappers
  import C = DispatchC
  import Cs = DispatchCs

  // The recursive dispatcher and the iterative one

  lemma HandleAgrees(s: Sys, c: nat, e: Event, queued: bool, w: Wiring)
    requires Fitting(s, w) && c < |s.infos| && Idle(s, c) && Fits(e, c, w) && Targets(e, |s.infos|)
    requires SettledBut(s, c)
    ensures C.Handle(s, c, e, queued) == Cs.Handle(s, c, e, queued)
    decreases Weight(s.infos) + Size(e), 1, 0
  {
    StartKeeps(s, c, e.id, queued);
    StartSettles(s, c, e.id, queued, w);
    var a := Start(s, c, e.id, queued);
    FitsBody(e, c, w, |s.infos|);
    BodySettles(a, c, e.posts, w);
    BodyAgrees(a, c, e.posts, w);
    var b := C.Body(a, c, e.posts);
    StopKeeps(b, c);
    StopSettles(b, c, w);
    hide Fitting, Settled, SettledBut, Owed, Fits;
    FlushAgrees(Stop(b, c), c, w);
  }

  lemma BodyAgrees(s: Sys, c: nat, posts: seq<Post>, w: Wiring)
    requires Fitting(s, w) && c < |s.infos| && !Idle(s, c) && FitsAll(posts, c, w) && TargetsAll(posts, |s.infos|)
    requires Settled(s)
    ensures C.Body(s, c, posts) == Cs.Body(s, c, posts)
    decreases Weight(s.infos) + SizeAll(posts), 3, |posts|
  {
    if posts != [] {
      var p := posts[0];
      assert PostTargets(p, |s.infos|) && PostSize(p) == Size(p.event) && FitsPost(p, c, w);
      var src := Source(c, p);
      if AtOnce(s, src, p.tgt) {
        HandleAgrees(s, p.tgt, p.event, false, w);
      }
      EnqueueSettles(s, c, p, w);
      hide Fitting, Settled;
      BodyAgrees(C.Enqueue(s, src, p.tgt, p.event), c, posts[1..], w);
    }
  }

  lemma FlushAgrees(s: Sys, c: nat, w: Wiring)
    requires Fitting(s, w) && c < |s.infos| && Idle(s, c) && SettledBut(s, c)
    ensures C.Flush(s, c) == Cs.Flush(s, c)
    decreases Weight(s.infos), 5, Debts(s.infos)
  {
    if s.infos[c].q != [] {
      var e, p := s.infos[c].q[0], Popped(s, c);
      PoppedKeeps(s, c);
      assert e in s.infos[c].q;
      PopSettles(s, c, w);
      HandleSettles(p, c, e, true, w);
      FlushOfQueued(s, c, w);
      hide Fitting, Settled, SettledBut;
      HandleAgrees(p, c, e, true, w);
      IterativeFlush(s, c);
    } else if s.infos[c].deferred.Some? {
      var d, next := Cleared(s, c), s.infos[c].deferred.value;
      ClearedKeeps(s, c);
      ClearSettles(s, c, w);
      if Idle(d, next) {
        FlushAgrees(d, next, w);
      } else {
        assert C.Drain(d, c) == d;
      }
    }
  }

  /** Flushing a non-empty queue iteratively is handling its first event and flushing. */
  lemma IterativeFlush(s: Sys, c: nat)
    requires Wired(s) && c < |s.infos| && Idle(s, c) && s.infos[c].q != []
    requires Wired(Popped(s, c)) && Targets(s.infos[c].q[0], |s.infos|)
    ensures Cs.Flush(s, c) == Cs.Handle(Popped(s, c), c, s.infos[c].q[0], true)
  {
    PoppedKeeps(s, c);
    var e, p := s.infos[c].q[0], Popped(s, c);
    BodyStarts(p, c, e, true);
    var b := Cs.Body(Start(p, c, e.id, true), c, e.posts);
    BodyStops(p, c, e, true, b);
    DrainFirst(s, c, e, p, b);
    hide Cs.Body, Cs.Flush, Cs.Drain, Start, Stop, Popped, Wired, SameShape, Targets;
    SameDrain(s, Stop(b, c), c);
  }

  lemma DrainFirst(s: Sys, c: nat, e: Event, p: Sys, b: Sys)
    requires Wired(s) && c < |s.infos| && Idle(s, c) && s.infos[c].q != []
    requires e == s.infos[c].q[0] && p == Popped(s, c) && Idle(p, c) && TargetsAll(e.posts, |s.infos|)
    requires Wired(Start(p, c, e.id, true)) && b == Cs.Body(Start(p, c, e.id, true), c, e.posts)
    requires Wired(Stop(b, c)) && Known(Stop(b, c), c) && Idle(Stop(b, c), c)
    ensures Cs.Drain(s, c) == Cs.Drain(Stop(b, c), c)
  {
  }

  lemma SameDrain(s: Sys, t: Sys, c: nat)
    requires Wired(s) && Wired(t) && c < |s.infos| && c < |t.infos| && Idle(s, c) && Idle(t, c)
    requires Cs.Drain(s, c) == Cs.Drain(t, c)
    ensures Cs.Flush(s, c) == Cs.Flush(t, c)
  {
  }

  /** With nothing queued, a flush passes to the component that is due, if that is idle. */
  lemma FlushPasses(s: Sys, c: nat, next: nat)
    requires Wired(s) && c < |s.infos| && Idle(s, c) && s.infos[c].q == [] && s.infos[c].deferred == Some(next)
    requires Wired(Cleared(s, c)) && next < |s.infos| && Idle(s, next)
    ensures Known(Cleared(s, c), next) && Idle(Cleared(s, c), next)
    ensures C.Flush(s, c) == C.Flush(Cleared(s, c), next) && Cs.Flush(s, c) == Cs.Flush(Cleared(s, c), next)
  {
    FlushDeferred(s, c);
    assert Cs.Drain(s, c) == s;
  }

  // Completion

  /** Nothing is running, queued or deferred. */
  ghost predicate AtRest(s: Sys) {
    forall c :: 0 <= c < |s.infos| ==>
      !s.infos[c].handling && s.infos[c].q == [] && s.infos[c].deferred == None
  }

  /** From rest, the outermost call handles the whole tree: afterwards no event is queued and no
      flush is owed, and both runtimes have run the same bodies in the same order. */
  lemma RunsToCompletion(s: Sys, c: nat, e: Event, w: Wiring)
    requires Fitting(s, w) && AtRest(s) && c < |s.infos| && Fits(e, c, w)
    ensures Targets(e, |s.infos|)
    ensures AtRest(C.Handle(s, c, e, false))
    ensures C.Handle(s, c, e, false) == Cs.Handle(s, c, e, false)
  {
    FitsTargets(e, c, w);
    HandleSettles(s, c, e, false, w);
    HandleAgrees(s, c, e, false, w);
    var t := C.Handle(s, c, e, false);
    forall x: nat | x < |t.infos| ensures t.infos[x].q == [] {
      assert !Pending(s, x);
      assert !Pending(t, x);
    }
  }

  // Queue order

  function Ids(q: seq<Event>): seq<nat> {
    if q == [] then [] else [q[0].id] + Ids(q[1..])
  }

  /** The events that ran out of the queue of component `c`, in the order they ran. */
  function QueuedRuns(log: seq<Ran>, c: nat): seq<nat> {
    if log == [] then []
    else
      var last := log[|log| - 1];
      QueuedRuns(log[..|log| - 1], c) + if last.component == c && last.queued then [last.id] else []
  }

  /** What was ever queued for a component is what ran from its queue, then `taken` (an event
      of component `c` that has left the queue and is about to run), then what is queued. */
  ghost predicate InOrderBut(s: Sys, c: nat, taken: seq<nat>) {
    && |s.sent| == |s.infos|
    && forall x: nat :: x < |s.infos| ==>
         QueuedRuns(s.log, x) + (if x == c then taken else []) + Ids(s.infos[x].q) == s.sent[x]
  }

  ghost predicate InOrder(s: Sys) {
    && |s.sent| == |s.infos|
    && forall x: nat :: x < |s.infos| ==> QueuedRuns(s.log, x) + Ids(s.infos[x].q) == s.sent[x]
  }

  lemma {:induction false} IdsAppend(q: seq<Event>, e: Event)
    ensures Ids(q + [e]) == Ids(q) + [e.id]
  {
    if q == [] {
      assert [e][1..] == [];
    } else {
      assert (q + [e])[1..] == q[1..] + [e];
      IdsAppend(q[1..], e);
    }
  }

  lemma StartOrder(s: Sys, c: nat, id: nat, queued: bool)
    requires Known(s, c) && Idle(s, c) && InOrderBut(s, c, if queued then [id] else [])
    ensures InOrder(Start(s, c, id, queued))
  {
    var t := Start(s, c, id, queued);
    assert t.log[..|t.log| - 1] == s.log;
    forall x: nat | x < |s.infos| ensures QueuedRuns(t.log, x) + Ids(t.infos[x].q) == t.sent[x] {
      assert QueuedRuns(t.log, x) == QueuedRuns(s.log, x) + if x == c && queued then [id] else [];
      assert t.infos[x].q == s.infos[x].q;
    }
  }

  lemma PushOrder(s: Sys, src: Option<nat>, tgt: nat, e: Event)
    requires InOrder(s) && tgt < |s.infos| && (src.Some? ==> src.value < |s.infos|)
    ensures InOrder(Pushed(s, src, tgt, e))
  {
    var t := Pushed(s, src, tgt, e);
    IdsAppend(s.infos[tgt].q, e);
    forall x: nat | x < |s.infos| ensures QueuedRuns(t.log, x) + Ids(t.infos[x].q) == t.sent[x] {
      assert t.infos[x].q == if x == tgt then s.infos[tgt].q + [e] else s.infos[x].q;
    }
  }

  lemma SameQueuesOrder(s: Sys, t: Sys)
    requires InOrder(s) && |t.infos| == |s.infos| && t.log == s.log && t.sent == s.sent
    requires forall x :: 0 <= x < |s.infos| ==> t.infos[x].q == s.infos[x].q
    ensures InOrder(t)
  {
  }

  lemma HandleInOrder(s: Sys, c: nat, e: Event, queued: bool)
    requires Wired(s) && c < |s.infos| && Idle(s, c) && Targets(e, |s.infos|)
    requires InOrderBut(s, c, if queued then [e.id] else [])
    ensures InOrder(C.Handle(s, c, e, queued))
    decreases Weight(s.infos) + Size(e), 1, 0
  {
    StartKeeps(s, c, e.id, queued);
    StartOrder(s, c, e.id, queued);
    var a := Start(s, c, e.id, queued);
    BodyInOrder(a, c, e.posts);
    var b := C.Body(a, c, e.posts);
    StopKeeps(b, c);
    SameQueuesOrder(b, Stop(b, c));
    hide InOrder, InOrderBut;
    FlushInOrder(Stop(b, c), c);
  }

  lemma BodyInOrder(s: Sys, c: nat, posts: seq<Post>)
    requires Wired(s) && c < |s.infos| && TargetsAll(posts, |s.infos|) && InOrder(s)
    ensures InOrder(C.Body(s, c, posts))
    decreases Weight(s.infos) + SizeAll(posts), 3, |posts|
  {
    if posts != [] {
      var p := posts[0];
      assert PostTargets(p, |s.infos|) && PostSize(p) == Size(p.event);
      var src := Source(c, p);
      PushOrder(s, src, p.tgt, p.event);
      if AtOnce(s, src, p.tgt) {
        HandleInOrder(s, p.tgt, p.event, false);
      }
      hide InOrder, InOrderBut;
      BodyInOrder(C.Enqueue(s, src, p.tgt, p.event), c, posts[1..]);
    }
  }

  lemma FlushInOrder(s: Sys, c: nat)
    requires Wired(s) && c < |s.infos| && Idle(s, c) && InOrder(s)
    ensures InOrder(C.Flush(s, c))
    decreases Weight(s.infos), 5, Debts(s.infos)
  {
    DrainInOrder(s, c);
    var d := C.Drain(s, c);
    if d.infos[c].deferred.Some? {
      ClearedKeeps(d, c);
      SameQueuesOrder(d, Cleared(d, c));
      var next := d.infos[c].deferred.value;
      FlushInOrder(Cleared(d, c), if Idle(Cleared(d, c), next) then next else c);
    }
  }

  lemma DrainInOrder(s: Sys, c: nat)
    requires Wired(s) && c < |s.infos| && Idle(s, c) && InOrder(s)
    ensures InOrder(C.Drain(s, c))
    decreases Weight(s.infos), 4, 0
  {
    if s.infos[c].q != [] {
      var e, p := s.infos[c].q[0], Popped(s, c);
      PoppedKeeps(s, c);
      assert InOrderBut(p, c, [e.id]) by {
        forall x: nat | x < |s.infos|
          ensures QueuedRuns(p.log, x) + (if x == c then [e.id] else []) + Ids(p.infos[x].q) == p.sent[x]
        {
          if x == c { assert Ids(s.infos[c].q) == [e.id] + Ids(p.infos[c].q); }
        }
      }
      HandleInOrder(p, c, e, true);
      hide InOrder, InOrderBut;
      DrainInOrder(C.Handle(p, c, e, true), c);
    }
  }

  /** Once the outermost call has returned, every event ever queued for a component has run, in
      the order in which it was queued. */
  lemma QueueOrder(s: Sys, c: nat, e: Event, w: Wiring, x: nat)
    requires Fitting(s, w) && AtRest(s) && InOrder(s) && c < |s.infos| && Fits(e, c, w) && x < |s.infos|
    ensures Targets(e, |s.infos|)
    ensures var t := C.Handle(s, c, e, false); QueuedRuns(t.log, x) == t.sent[x]
  {
    RunsToCompletion(s, c, e, w);
    HandleInOrder(s, c, e, false);
    var t := C.Handle(s, c, e, false);
    assert Ids(t.infos[x].q) == [];
  }
}
