/** When every flushing component posts to one flush target, dispatch runs to completion. */
module DispatchProofs {
  import opened DispatchModel
  import opened DispatchC
  import opened Wrappers

  /** Who flushes, and the one component that each flushing component posts to. */
  datatype Wiring = Wiring(flushes: seq<bool>, target: seq<nat>)

  predicate Fits(e: Event, c: nat, w: Wiring)
    decreases e, 1
  {
    FitsAll(e.posts, c, w)
  }

  predicate FitsAll(posts: seq<Post>, c: nat, w: Wiring)
    decreases posts, 0
  {
    posts == [] || (FitsPost(posts[0], c, w) && FitsAll(posts[1..], c, w))
  }

  /** A post by component `c`: its own posts go to its flush target when it flushes. */
  predicate FitsPost(p: Post, c: nat, w: Wiring)
    decreases p, 2
  {
    && p.tgt < |w.flushes|
    && (!p.external && c < |w.flushes| == |w.target| && w.flushes[c] ==> p.tgt == w.target[c])
    && Fits(p.event, p.tgt, w)
  }

  lemma {:induction false} FitsTargets(e: Event, c: nat, w: Wiring)
    requires Fits(e, c, w)
    ensures Targets(e, |w.flushes|)
    decreases e, 1
  {
    FitsAllTargets(e.posts, c, w);
  }

  lemma {:induction false} FitsAllTargets(posts: seq<Post>, c: nat, w: Wiring)
    requires FitsAll(posts, c, w)
    ensures TargetsAll(posts, |w.flushes|)
    decreases posts, 0
  {
    if posts != [] {
      FitsPostTargets(posts[0], c, w);
      FitsAllTargets(posts[1..], c, w);
    }
  }

  lemma {:induction false} FitsPostTargets(p: Post, c: nat, w: Wiring)
    requires FitsPost(p, c, w)
    ensures PostTargets(p, |w.flushes|)
    decreases p, 2
  {
    FitsTargets(p.event, p.tgt, w);
  }

  ghost predicate QueueFits(q: seq<Event>, c: nat, w: Wiring) {
    forall e :: e in q ==> Fits(e, c, w)
  }

  /** The state agrees with the wiring. */
  ghost predicate Fitting(s: Sys, w: Wiring) {
    && Wired(s) && |w.flushes| == |w.target| == |s.infos|
    && (forall c :: 0 <= c < |s.infos| ==> s.infos[c].flushes == w.flushes[c])
    && (forall c :: 0 <= c < |s.infos| ==> QueueFits(s.infos[c].q, c, w))
    && (forall c :: 0 <= c < |s.infos| && w.flushes[c] && s.infos[c].deferred.Some? ==>
          s.infos[c].deferred.value == w.target[c])
  }

  /** Component `c` is idle and has events waiting. */
  predicate Pending(s: Sys, c: nat) {
    c < |s.infos| && !s.infos[c].handling && s.infos[c].q != []
  }

  /** No idle component other than `c` owes a flush. */
  ghost predicate SettledBut(s: Sys, c: nat) {
    forall x :: 0 <= x < |s.infos| && x != c && !s.infos[x].handling ==> s.infos[x].deferred == None
  }

  ghost predicate Settled(s: Sys) {
    forall x :: 0 <= x < |s.infos| && !s.infos[x].handling ==> s.infos[x].deferred == None
  }

  /** Every component pending in `t` was pending in `s`, except `extra`. */
  ghost predicate NoNewPending(s: Sys, t: Sys, extra: Option<nat>) {
    forall x: nat :: Pending(t, x) ==> Pending(s, x) || extra == Some(x)
  }

  /** The flush that a flushing component owes. */
  function Owed(s: Sys, c: nat): Option<nat> {
    if c < |s.infos| && s.infos[c].flushes then s.infos[c].deferred else None
  }

  lemma StartSettles(s: Sys, c: nat, id: nat, queued: bool, w: Wiring)
    requires Fitting(s, w) && c < |s.infos| && Idle(s, c) && SettledBut(s, c)
    ensures var t := Start(s, c, id, queued);
      && Fitting(t, w) && Settled(t) && NoNewPending(s, t, None) && !Pending(t, c) && Owed(t, c) == Owed(s, c)
  {
    StartKeeps(s, c, id, queued);
  }

  lemma StopSettles(s: Sys, c: nat, w: Wiring)
    requires Fitting(s, w) && c < |s.infos| && Settled(s)
    ensures var t := Stop(s, c);
      && Fitting(t, w) && SettledBut(t, c) && NoNewPending(s, t, Some(c)) && Owed(t, c) == Owed(s, c)
  {
    StopKeeps(s, c);
  }

  lemma ClearSettles(s: Sys, c: nat, w: Wiring)
    requires Fitting(s, w) && c < |s.infos| && s.infos[c].deferred.Some? && SettledBut(s, c)
    ensures var t := Cleared(s, c);
      && Fitting(t, w) && Settled(t) && NoNewPending(s, t, None)
      && t.infos[c].q == s.infos[c].q && SettledBut(t, c) && forall x: nat :: SettledBut(t, x)
  {
    ClearedKeeps(s, c);
  }

  lemma FitsBody(e: Event, c: nat, w: Wiring, n: nat)
    requires Fits(e, c, w) && Targets(e, n)
    ensures FitsAll(e.posts, c, w) && TargetsAll(e.posts, n)
  {
  }

  lemma HandleSettles(s: Sys, c: nat, e: Event, queued: bool, w: Wiring)
    requires Fitting(s, w) && c < |s.infos| && Idle(s, c) && Fits(e, c, w) && Targets(e, |s.infos|)
    requires SettledBut(s, c)
    ensures var t := Handle(s, c, e, queued);
      && Fitting(t, w) && Settled(t) && NoNewPending(s, t, None) && !Pending(t, c)
      && (Owed(s, c).Some? ==> !Pending(t, Owed(s, c).value))
    decreases Weight(s.infos) + Size(e), 1, 0
  {
    StartKeeps(s, c, e.id, queued);
    StartSettles(s, c, e.id, queued, w);
    var a := Start(s, c, e.id, queued);
    FitsBody(e, c, w, |s.infos|);
    hide Fitting, Settled, SettledBut, Owed, Fits;
    BodySettles(a, c, e.posts, w);
    var b := Body(a, c, e.posts);
    StopKeeps(b, c);
    StopSettles(b, c, w);
    FlushSettles(Stop(b, c), c, w);
  }

  lemma BodySettles(s: Sys, c: nat, posts: seq<Post>, w: Wiring)
    requires Fitting(s, w) && c < |s.infos| && !Idle(s, c) && FitsAll(posts, c, w) && TargetsAll(posts, |s.infos|)
    requires Settled(s)
    ensures var t := Body(s, c, posts);
      && Fitting(t, w) && Settled(t) && NoNewPending(s, t, Owed(t, c))
      && (Owed(s, c).Some? ==> Owed(t, c) == Owed(s, c))
    decreases Weight(s.infos) + SizeAll(posts), 3, |posts|
  {
    if posts != [] {
      var p := posts[0];
      assert PostTargets(p, |s.infos|) && PostSize(p) == Size(p.event) && FitsPost(p, c, w);
      EnqueueSettles(s, c, p, w);
      BodySettles(Enqueue(s, Source(c, p), p.tgt, p.event), c, posts[1..], w);
    }
  }

  lemma EnqueueSettles(s: Sys, c: nat, p: Post, w: Wiring)
    requires Fitting(s, w) && c < |s.infos| && !Idle(s, c) && FitsPost(p, c, w) && PostTargets(p, |s.infos|)
    requires Settled(s)
    ensures var t := Enqueue(s, Source(c, p), p.tgt, p.event);
      && Fitting(t, w) && Settled(t) && NoNewPending(s, t, Owed(t, c))
      && (Owed(s, c).Some? ==> Owed(t, c) == Owed(s, c))
    decreases Weight(s.infos) + Size(p.event), 2, 0
  {
    var src := Source(c, p);
    if AtOnce(s, src, p.tgt) {
      HandleSettles(s, p.tgt, p.event, false, w);
      HandleFrame(s, p.tgt, p.event, false, c);
    } else {
      PushSettles(s, c, p, w);
    }
  }

  lemma PushSettles(s: Sys, c: nat, p: Post, w: Wiring)
    requires Fitting(s, w) && c < |s.infos| && !Idle(s, c) && FitsPost(p, c, w) && PostTargets(p, |s.infos|)
    requires Settled(s) && !AtOnce(s, Source(c, p), p.tgt)
    ensures var t := Pushed(s, Source(c, p), p.tgt, p.event);
      && Fitting(t, w) && Settled(t) && NoNewPending(s, t, Owed(t, c))
      && (Owed(s, c).Some? ==> Owed(t, c) == Owed(s, c))
  {
    PushedInfos(s, c, p);
    PushedKeeps(s, Source(c, p), p.tgt, p.event);
    PushFits(s, c, p, w);
    hide Pushed, Wired, Fitting, FitsPost;
  }

  /** What a push changes. */
  lemma PushedInfos(s: Sys, c: nat, p: Post)
    requires Wired(s) && c < |s.infos| && p.tgt < |s.infos|
    ensures var t := Pushed(s, Source(c, p), p.tgt, p.event);
      && |t.infos| == |s.infos|
      && forall x :: 0 <= x < |s.infos| ==>
           && t.infos[x].handling == s.infos[x].handling && t.infos[x].flushes == s.infos[x].flushes
           && t.infos[x].q == (if x == p.tgt then s.infos[x].q + [p.event] else s.infos[x].q)
           && t.infos[x].deferred == if x == c && !p.external then Some(p.tgt) else s.infos[x].deferred
  {
  }

  lemma PushFits(s: Sys, c: nat, p: Post, w: Wiring)
    requires Fitting(s, w) && c < |s.infos| && FitsPost(p, c, w) && PostTargets(p, |s.infos|)
    ensures Fitting(Pushed(s, Source(c, p), p.tgt, p.event), w)
  {
    PushedInfos(s, c, p);
    PushedKeeps(s, Source(c, p), p.tgt, p.event);
    hide Pushed, Wired, Fits;
  }

  lemma FlushSettles(s: Sys, c: nat, w: Wiring)
    requires Fitting(s, w) && c < |s.infos| && Idle(s, c)
    requires SettledBut(s, c)
    ensures var t := Flush(s, c);
      && Fitting(t, w) && Settled(t) && NoNewPending(s, t, None) && !Pending(t, c)
      && (Owed(s, c).Some? ==> !Pending(t, Owed(s, c).value))
    decreases Weight(s.infos), 5, Debts(s.infos)
  {
    if s.infos[c].q != [] {
      var p := Popped(s, c);
      PoppedKeeps(s, c);
      PopSettles(s, c, w);
      hide Fitting, SettledBut, Owed, Fits;
      HandleSettles(p, c, s.infos[c].q[0], true, w);
      FlushOfQueued(s, c, w);
      hide *;
      PendingOn(s, p, Flush(s, c), None);
    } else if s.infos[c].deferred.Some? {
      DeferredSettles(s, c, w);
    } else {
      FlushClean(s, c);
    }
  }

  lemma DeferredSettles(s: Sys, c: nat, w: Wiring)
    requires Fitting(s, w) && c < |s.infos| && Idle(s, c)
    requires SettledBut(s, c) && s.infos[c].q == [] && s.infos[c].deferred.Some?
    ensures var t := Flush(s, c);
      && Fitting(t, w) && Settled(t) && NoNewPending(s, t, None) && !Pending(t, c)
      && (Owed(s, c).Some? ==> !Pending(t, Owed(s, c).value))
    decreases Weight(s.infos), 5, Debts(s.infos), 0
  {
    var d, next := Cleared(s, c), s.infos[c].deferred.value;
    DeferredKnown(s, c);
    ClearedKeeps(s, c);
    ClearSettles(s, c, w);
    FlushDeferred(s, c);
    hide Fitting, Settled, SettledBut, NoNewPending, Cleared, Flush, Fits;
    var x := if Idle(d, next) then next else c;
    FlushSettles(d, x, w);
    PendingOn(s, d, Flush(d, x), None);
    NotPending(d, Flush(d, x), c);
    if !Idle(d, next) {
      NotPending(d, Flush(d, x), next);
    }
  }

  lemma FlushClean(s: Sys, c: nat)
    requires Wired(s) && c < |s.infos| && Idle(s, c) && s.infos[c].q == [] && s.infos[c].deferred == None
    ensures Flush(s, c) == s
  {
  }

  lemma FlushDeferred(s: Sys, c: nat)
    requires Wired(s) && c < |s.infos| && Idle(s, c) && s.infos[c].q == [] && s.infos[c].deferred.Some?
    requires var d, next := Cleared(s, c), s.infos[c].deferred.value;
      Wired(d) && next < |d.infos|
    ensures var d, next := Cleared(s, c), s.infos[c].deferred.value;
      Idle(d, c) && Flush(s, c) == Flush(d, if Idle(d, next) then next else c)
  {
    assert Drain(s, c) == s;
  }

  lemma PendingOn(s: Sys, t: Sys, u: Sys, extra: Option<nat>)
    requires NoNewPending(s, t, None) && NoNewPending(t, u, extra)
    ensures NoNewPending(s, u, extra)
  {
  }

  lemma NotPending(s: Sys, t: Sys, c: nat)
    requires NoNewPending(s, t, None) && !Pending(s, c)
    ensures !Pending(t, c)
  {
  }

  /** The first event leaves the queue. */
  lemma PopSettles(s: Sys, c: nat, w: Wiring)
    requires Fitting(s, w) && c < |s.infos| && Idle(s, c) && s.infos[c].q != [] && SettledBut(s, c)
    ensures var p := Popped(s, c);
      && Fitting(p, w) && SettledBut(p, c) && NoNewPending(s, p, None) && Owed(p, c) == Owed(s, c)
      && Known(p, c) && Idle(p, c) && |p.infos| == |s.infos|
    ensures Fits(s.infos[c].q[0], c, w)
  {
    PoppedKeeps(s, c);
    assert s.infos[c].q[0] in s.infos[c].q;
  }

  /** Handling the first queued event leaves nothing for the loops around it to do. */
  lemma FlushOfQueued(s: Sys, c: nat, w: Wiring)
    requires Fitting(s, w) && c < |s.infos| && Idle(s, c) && s.infos[c].q != []
    requires Targets(s.infos[c].q[0], |s.infos|) && Wired(Popped(s, c))
    requires var t := Handle(Popped(s, c), c, s.infos[c].q[0], true);
             Settled(t) && !Pending(t, c)
    ensures Flush(s, c) == Handle(Popped(s, c), c, s.infos[c].q[0], true)
  {
    var t := Handle(Popped(s, c), c, s.infos[c].q[0], true);
    assert t.infos[c].q == [];
    assert Drain(t, c) == t;
  }

  /** A call for component `c` leaves alone the deferred flush of a component `y` that is
      handling an event further down the stack. */
  lemma HandleFrame(s: Sys, c: nat, e: Event, queued: bool, y: nat)
    requires Wired(s) && c < |s.infos| && Idle(s, c) && Targets(e, |s.infos|)
    requires y < |s.infos| && !Idle(s, y)
    ensures Handle(s, c, e, queued).infos[y].deferred == s.infos[y].deferred
    decreases Weight(s.infos) + Size(e), 1, 0
  {
    StartKeeps(s, c, e.id, queued);
    var a := Start(s, c, e.id, queued);
    BodyFrame(a, c, e.posts, y);
    var b := Body(a, c, e.posts);
    StopKeeps(b, c);
    FlushFrame(Stop(b, c), c, y);
  }

  lemma BodyFrame(s: Sys, c: nat, posts: seq<Post>, y: nat)
    requires Wired(s) && c < |s.infos| && TargetsAll(posts, |s.infos|)
    requires y < |s.infos| && !Idle(s, y) && y != c
    ensures Body(s, c, posts).infos[y].deferred == s.infos[y].deferred
    decreases Weight(s.infos) + SizeAll(posts), 3, |posts|
  {
    if posts != [] {
      var p := posts[0];
      assert PostTargets(p, |s.infos|) && PostSize(p) == Size(p.event);
      if AtOnce(s, Source(c, p), p.tgt) {
        HandleFrame(s, p.tgt, p.event, false, y);
      }
      BodyFrame(Enqueue(s, Source(c, p), p.tgt, p.event), c, posts[1..], y);
    }
  }

  lemma FlushFrame(s: Sys, c: nat, y: nat)
    requires Wired(s) && c < |s.infos| && Idle(s, c)
    requires y < |s.infos| && !Idle(s, y)
    ensures Flush(s, c).infos[y].deferred == s.infos[y].deferred
    decreases Weight(s.infos), 5, Debts(s.infos)
  {
    DrainFrame(s, c, y);
    var d := Drain(s, c);
    if d.infos[c].deferred.Some? {
      ClearedKeeps(d, c);
      var next := d.infos[c].deferred.value;
      FlushFrame(Cleared(d, c), if Idle(Cleared(d, c), next) then next else c, y);
    }
  }

  lemma DrainFrame(s: Sys, c: nat, y: nat)
    requires Wired(s) && c < |s.infos| && Idle(s, c)
    requires y < |s.infos| && !Idle(s, y)
    ensures Drain(s, c).infos[y].deferred == s.infos[y].deferred
    decreases Weight(s.infos), 4, 0
  {
    if s.infos[c].q != [] {
      PoppedKeeps(s, c);
      HandleFrame(Popped(s, c), c, s.infos[c].q[0], true, y);
      DrainFrame(Handle(Popped(s, c), c, s.infos[c].q[0], true), c, y);
    }
  }
}
