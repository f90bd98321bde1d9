/** In which order the bodies of a tree of events run. */
module DispatchOrder {
  import opened DispatchModel
  import opened DispatchC
  import opened DispatchProofs
  import opened Wrappers

  // posts are made in order

  lemma {:induction false} TargetsBoth(ps: seq<Post>, qs: seq<Post>, n: nat)
    requires TargetsAll(ps + qs, n)
    ensures TargetsAll(ps, n) && TargetsAll(qs, n)
  {
    if ps == [] {
      assert ps + qs == qs;
    } else {
      assert (ps + qs)[1..] == ps[1..] + qs;
      TargetsBoth(ps[1..], qs, n);
    }
  }

  /** A body makes its first posts before the others. */
  lemma BodySplits(s: Sys, c: nat, ps: seq<Post>, qs: seq<Post>)
    requires Wired(s) && c < |s.infos| && TargetsAll(ps + qs, |s.infos|)
    ensures TargetsAll(ps, |s.infos|) && TargetsAll(qs, |s.infos|)
    ensures Body(s, c, ps + qs) == Body(Body(s, c, ps), c, qs)
    decreases |ps|
  {
    TargetsBoth(ps, qs, |s.infos|);
    if ps == [] {
      assert ps + qs == qs;
    } else {
      assert (ps + qs)[1..] == ps[1..] + qs && (ps + qs)[0] == ps[0];
      PostParts(ps + qs, |s.infos|);
      var b := Enqueue(s, Source(c, ps[0]), ps[0].tgt, ps[0].event);
      BodySplits(b, c, ps[1..], qs);
    }
  }

  // posts that are calls

  ghost function BusyOnes(s: Sys): set<nat> {
    set c: nat | c < |s.infos| && s.infos[c].handling
  }

  ghost function Flushing(s: Sys): set<nat> {
    set c: nat | c < |s.infos| && s.infos[c].flushes
  }

  /** In the tree below `e` nobody posts to a component that is handling an event, and nothing is
      posted by a component that flushes, unless as external. */
  predicate Calls(e: Event, c: nat, busy: set<nat>, flushing: set<nat>)
    decreases e, 1
  {
    c !in busy && CallsAll(e.posts, c, busy + {c}, flushing)
  }

  predicate CallsAll(posts: seq<Post>, c: nat, busy: set<nat>, flushing: set<nat>)
    decreases posts, 0
  {
    posts == [] || (CallsPost(posts[0], c, busy, flushing) && CallsAll(posts[1..], c, busy, flushing))
  }

  predicate CallsPost(p: Post, c: nat, busy: set<nat>, flushing: set<nat>)
    decreases p, 2
  {
    (p.external || c !in flushing) && Calls(p.event, p.tgt, busy, flushing)
  }

  /** Each event, then its posts from the first to the last. */
  function Preorder(e: Event, c: nat, queued: bool): seq<Ran>
    decreases e, 1
  {
    [Ran(c, e.id, queued)] + PreorderAll(e.posts)
  }

  function PreorderAll(posts: seq<Post>): seq<Ran>
    decreases posts, 0
  {
    if posts == [] then [] else PostPreorder(posts[0]) + PreorderAll(posts[1..])
  }

  function PostPreorder(p: Post): seq<Ran>
    decreases p, 2
  {
    Preorder(p.event, p.tgt, false)
  }

  /** No idle component has anything to do. */
  ghost predicate Quiet(s: Sys) {
    forall c :: 0 <= c < |s.infos| && !s.infos[c].handling ==> s.infos[c].q == [] && s.infos[c].deferred == None
  }

  function Logged(s: Sys, runs: seq<Ran>): Sys {
    s.(log := s.log + runs)
  }

  lemma LoggedSame(s: Sys, runs: seq<Ran>)
    requires Wired(s)
    ensures var t := Logged(s, runs);
      Wired(t) && Weight(t.infos) == Weight(s.infos) && BusyOnes(t) == BusyOnes(s) && Flushing(t) == Flushing(s)
      && (Quiet(s) ==> Quiet(t))
  {
  }

  lemma StartQuiet(s: Sys, c: nat, id: nat, queued: bool)
    requires Wired(s) && c < |s.infos| && Idle(s, c) && Quiet(s)
    ensures var t := Start(s, c, id, queued);
      Quiet(t) && BusyOnes(t) == BusyOnes(s) + {c} && Flushing(t) == Flushing(s)
  {
  }

  lemma StartStop(s: Sys, c: nat, id: nat, queued: bool, runs: seq<Ran>)
    requires Wired(s) && c < |s.infos| && Idle(s, c)
    ensures Stop(Logged(Start(s, c, id, queued), runs), c) == Logged(s, [Ran(c, id, queued)] + runs)
  {
    var t := Stop(Logged(Start(s, c, id, queued), runs), c);
    assert t.infos == s.infos;
    assert t.log == s.log + ([Ran(c, id, queued)] + runs);
  }

  lemma LoggedTwice(s: Sys, x: seq<Ran>, y: seq<Ran>)
    ensures Logged(Logged(s, x), y) == Logged(s, x + y)
  {
    assert s.log + x + y == s.log + (x + y);
  }

  /** Where all posts are calls, the bodies run in the order of calls, and afterwards everything is
      as it was. */
  lemma CallsRunInOrder(s: Sys, c: nat, e: Event, queued: bool)
    requires Wired(s) && c < |s.infos| && Idle(s, c) && Targets(e, |s.infos|) && Quiet(s)
    requires Calls(e, c, BusyOnes(s), Flushing(s))
    ensures Handle(s, c, e, queued) == Logged(s, Preorder(e, c, queued))
    decreases e, 1
  {
    var a := Start(s, c, e.id, queued);
    BodyStarts(s, c, e, queued);
    StartQuiet(s, c, e.id, queued);
    BodyCalls(a, c, e.posts);
    var t := Logged(s, Preorder(e, c, queued));
    StartStop(s, c, e.id, queued, PreorderAll(e.posts));
    LoggedSame(s, Preorder(e, c, queued));
    FlushClean(t, c);
  }

  lemma BodyCalls(s: Sys, c: nat, posts: seq<Post>)
    requires Wired(s) && c < |s.infos| && TargetsAll(posts, |s.infos|) && Quiet(s)
    requires CallsAll(posts, c, BusyOnes(s), Flushing(s))
    ensures Body(s, c, posts) == Logged(s, PreorderAll(posts))
    decreases posts, 0
  {
    if posts == [] {
      assert s.log + [] == s.log;
    } else {
      var p := posts[0];
      PostParts(posts, |s.infos|);
      PostCalls(s, c, p);
      var b := Logged(s, PostPreorder(p));
      LoggedSame(s, PostPreorder(p));
      BodyCalls(b, c, posts[1..]);
      LoggedTwice(s, PostPreorder(p), PreorderAll(posts[1..]));
    }
  }

  lemma PostCalls(s: Sys, c: nat, p: Post)
    requires Wired(s) && c < |s.infos| && p.tgt < |s.infos| && Targets(p.event, |s.infos|) && Quiet(s)
    requires CallsPost(p, c, BusyOnes(s), Flushing(s))
    ensures Enqueue(s, Source(c, p), p.tgt, p.event) == Logged(s, PostPreorder(p))
    decreases p, 2
  {
    CallsRunInOrder(s, p.tgt, p.event, false);
  }

  // posts that are queued

  /** All posts are made as the component's own and are meant for `tgt`. */
  predicate PostsTo(posts: seq<Post>, tgt: nat) {
    forall i :: 0 <= i < |posts| ==> !posts[i].external && posts[i].tgt == tgt
  }

  function EventsOf(posts: seq<Post>): seq<Event> {
    seq(|posts|, i requires 0 <= i < |posts| => posts[i].event)
  }

  function IdsOf(posts: seq<Post>): seq<nat> {
    seq(|posts|, i requires 0 <= i < |posts| => posts[i].event.id)
  }

  /** Events wait at the target, and component `c` remembers to flush it. */
  function Queued(s: Sys, c: nat, tgt: nat, events: seq<Event>, ids: seq<nat>): Sys
    requires Known(s, tgt) && c < |s.infos|
  {
    var r := Put(s, tgt, s.infos[tgt].(q := s.infos[tgt].q + events));
    Put(r, c, r.infos[c].(deferred := Some(tgt))).(sent := s.sent[tgt := s.sent[tgt] + ids])
  }

  lemma QueuedTwice(s: Sys, c: nat, tgt: nat, e: seq<Event>, i: seq<nat>, f: seq<Event>, j: seq<nat>)
    requires Known(s, tgt) && c < |s.infos|
    ensures Queued(Queued(s, c, tgt, e, i), c, tgt, f, j) == Queued(s, c, tgt, e + f, i + j)
  {
    var a := Queued(s, c, tgt, e, i);
    var x, y := Queued(a, c, tgt, f, j), Queued(s, c, tgt, e + f, i + j);
    assert s.infos[tgt].q + e + f == s.infos[tgt].q + (e + f) && s.sent[tgt] + i + j == s.sent[tgt] + (i + j);
    assert x.sent == y.sent;
    assert x.infos == y.infos;
  }

  lemma PushedIsQueued(s: Sys, c: nat, tgt: nat, e: Event)
    requires Known(s, tgt) && c < |s.infos|
    ensures Pushed(s, Some(c), tgt, e) == Queued(s, c, tgt, [e], [e.id])
  {
  }

  /** The body of a component that flushes leaves its posts with the target, in order, and runs none
      of them. */
  lemma {:induction false} PostsQueued(s: Sys, c: nat, tgt: nat, posts: seq<Post>)
    requires Wired(s) && c < |s.infos| && TargetsAll(posts, |s.infos|) && tgt < |s.infos|
    requires s.infos[c].flushes && PostsTo(posts, tgt) && posts != []
    ensures Body(s, c, posts) == Queued(s, c, tgt, EventsOf(posts), IdsOf(posts))
    decreases |posts|
  {
    hide Body, Wired, Pushed, Queued, Weight, Targets, TargetsAll, Known;
    var p, rest := posts[0], posts[1..];
    BodyFirst(s, c, tgt, posts);
    PushedIsQueued(s, c, tgt, p.event);
    var b := Pushed(s, Some(c), tgt, p.event);
    if rest == [] {
      assert EventsOf(posts) == [p.event] && IdsOf(posts) == [p.event.id];
    } else {
      PostsQueued(b, c, tgt, rest);
      QueuedTwice(s, c, tgt, [p.event], [p.event.id], EventsOf(rest), IdsOf(rest));
      assert EventsOf(posts) == [p.event] + EventsOf(rest) && IdsOf(posts) == [p.event.id] + IdsOf(rest);
    }
  }

  lemma BodyFirst(s: Sys, c: nat, tgt: nat, posts: seq<Post>)
    requires Wired(s) && c < |s.infos| && TargetsAll(posts, |s.infos|) && tgt < |s.infos|
    requires s.infos[c].flushes && PostsTo(posts, tgt) && posts != []
    ensures var b := Pushed(s, Some(c), tgt, posts[0].event);
      && Known(s, tgt) && Known(b, tgt) && Wired(b) && |b.infos| == |s.infos| && TargetsAll(posts[1..], |s.infos|)
      && b.infos[c].flushes && Body(s, c, posts) == Body(b, c, posts[1..])
      && (posts[1..] == [] ==> Body(s, c, posts) == b)
  {
    hide Pushed, Weight, Targets;
    PostParts(posts, |s.infos|);
    PushedKeeps(s, Some(c), tgt, posts[0].event);
    EnqueuePushes(s, c, tgt, posts[0].event);
  }

  lemma EnqueuePushes(s: Sys, c: nat, tgt: nat, e: Event)
    requires Wired(s) && c < |s.infos| && tgt < |s.infos| && s.infos[c].flushes && Targets(e, |s.infos|)
    ensures Enqueue(s, Some(c), tgt, e) == Pushed(s, Some(c), tgt, e)
  {
  }

  // what runs after the body of a component that flushes

  /** The events of a queue one after the other, each with its posts. */
  function QueuePreorder(q: seq<Event>, c: nat): seq<Ran> {
    if q == [] then [] else Preorder(q[0], c, true) + QueuePreorder(q[1..], c)
  }

  function Emptied(s: Sys, c: nat): Sys
    requires Known(s, c)
  {
    Put(s, c, s.infos[c].(q := []))
  }

  /** Only component `c` has anything to do, and that is in its queue. */
  ghost predicate QuietBut(s: Sys, c: nat)
    requires Known(s, c)
  {
    Quiet(Emptied(s, c))
  }

  predicate QueueCalls(q: seq<Event>, c: nat, busy: set<nat>, flushing: set<nat>) {
    forall e :: e in q ==> Calls(e, c, busy, flushing)
  }

  lemma PopQuiet(s: Sys, c: nat)
    requires Wired(s) && c < |s.infos| && Idle(s, c) && QuietBut(s, c) && s.infos[c].q != []
    ensures var p := Popped(s, c); var a := Start(p, c, s.infos[c].q[0].id, true);
      && QuietBut(p, c) && BusyOnes(p) == BusyOnes(s) && Flushing(p) == Flushing(s)
      && Quiet(a) && BusyOnes(a) == BusyOnes(s) + {c} && Flushing(a) == Flushing(s)
      && Emptied(p, c) == Emptied(s, c)
  {
    assert forall x: nat :: x < |s.infos| && x != c ==> Emptied(s, c).infos[x] == s.infos[x];
    assert Emptied(Popped(s, c), c).infos == Emptied(s, c).infos;
  }

  lemma LoggedQueue(s: Sys, c: nat, runs: seq<Ran>)
    requires Wired(s) && c < |s.infos| && Idle(s, c) && QuietBut(s, c)
    ensures var t := Logged(s, runs);
      && Wired(t) && Idle(t, c) && QuietBut(t, c) && BusyOnes(t) == BusyOnes(s) && Flushing(t) == Flushing(s)
      && Emptied(t, c) == Logged(Emptied(s, c), runs)
  {
    assert Emptied(Logged(s, runs), c).infos == Emptied(s, c).infos;
  }

  lemma FirstOfQueue(s: Sys, c: nat)
    requires Wired(s) && c < |s.infos| && Idle(s, c) && QuietBut(s, c) && s.infos[c].q != []
    requires QueueCalls(s.infos[c].q, c, BusyOnes(s), Flushing(s))
    ensures var e, p := s.infos[c].q[0], Popped(s, c);
      && Wired(p) && Idle(p, c) && Targets(e, |s.infos|)
      && var t := Logged(p, Preorder(e, c, true));
         Wired(t) && Idle(t, c) && Handle(p, c, e, true) == Flush(t, c)
  {
    var e, p := s.infos[c].q[0], Popped(s, c);
    PoppedKeeps(s, c);
    PopQuiet(s, c);
    var a := Start(p, c, e.id, true);
    BodyStarts(p, c, e, true);
    assert Calls(e, c, BusyOnes(s), Flushing(s));
    BodyCalls(a, c, e.posts);
    StartStop(p, c, e.id, true, PreorderAll(e.posts));
    LoggedSame(p, Preorder(e, c, true));
  }

  /** The system after the first event of the queue and its posts. */
  lemma RestOfQueue(s: Sys, c: nat)
    requires Wired(s) && c < |s.infos| && Idle(s, c) && QuietBut(s, c) && s.infos[c].q != []
    requires QueueCalls(s.infos[c].q, c, BusyOnes(s), Flushing(s))
    ensures var q, p := s.infos[c].q, Popped(s, c);
      var t := Logged(p, Preorder(q[0], c, true));
      && Wired(p) && Known(p, c) && Idle(p, c) && Targets(q[0], |s.infos|)
      && Wired(t) && Known(t, c) && Idle(t, c) && QuietBut(t, c) && t.infos[c].q == q[1..]
      && |t.infos| == |s.infos| && QueueCalls(q[1..], c, BusyOnes(t), Flushing(t))
      && Emptied(t, c) == Logged(Emptied(s, c), Preorder(q[0], c, true))
      && Handle(p, c, q[0], true) == Flush(t, c)
  {
    FirstOfQueue(s, c);
    PopQuiet(s, c);
    LoggedQueue(Popped(s, c), c, Preorder(s.infos[c].q[0], c, true));
    hide Flush, Handle, Weight, Calls, Preorder, Quiet, BusyOnes, Flushing, Targets;
  }

  lemma NothingLeft(s: Sys, c: nat, runs: seq<Ran>)
    requires Wired(s) && c < |s.infos| && Idle(s, c) && QuietBut(s, c)
    ensures var t := Logged(Emptied(s, c), runs);
      c < |t.infos| && t.infos[c].q == [] && t.infos[c].deferred == None
    ensures s.infos[c].q == [] ==> Flush(s, c) == s == Logged(Emptied(s, c), [])
  {
    assert Emptied(s, c).infos[c].deferred == None;
    if s.infos[c].q == [] {
      assert Emptied(s, c) == s && s.log + [] == s.log;
      FlushClean(s, c);
    }
  }

  /** A flush runs what waits for the component in order, when all that follows are calls. */
  lemma {:induction false} FlushRunsQueue(s: Sys, c: nat)
    requires Wired(s) && c < |s.infos| && Known(s, c) && Idle(s, c) && QuietBut(s, c)
    requires QueueCalls(s.infos[c].q, c, BusyOnes(s), Flushing(s))
    ensures Flush(s, c) == Logged(Emptied(s, c), QueuePreorder(s.infos[c].q, c))
    decreases |s.infos[c].q|
  {
    var q := s.infos[c].q;
    NothingLeft(s, c, QueuePreorder(q, c));
    if q != [] {
      RestOfQueue(s, c);
      var runs := Preorder(q[0], c, true);
      var t := Logged(Popped(s, c), runs);
      hide Flush, Handle, Emptied, Logged, Popped, Weight, Wired, Known, Idle, QuietBut, QueueCalls, Targets,
           Preorder, BusyOnes, Flushing;
      FlushRunsQueue(t, c);
      LoggedTwice(Emptied(s, c), runs, QueuePreorder(q[1..], c));
      assert Flush(t, c) == Logged(Emptied(s, c), QueuePreorder(q, c));
      FlushFirst(s, c);
    }
  }

  /** When the first event of a queue leaves nothing to do, the flush ends with it. */
  lemma FlushFirst(s: Sys, c: nat)
    requires Wired(s) && c < |s.infos| && Idle(s, c) && s.infos[c].q != []
    requires Wired(Popped(s, c)) && Idle(Popped(s, c), c) && Targets(s.infos[c].q[0], |s.infos|)
    requires var h := Handle(Popped(s, c), c, s.infos[c].q[0], true);
      c < |h.infos| && h.infos[c].q == [] && h.infos[c].deferred == None
    ensures Flush(s, c) == Handle(Popped(s, c), c, s.infos[c].q[0], true)
  {
    var h := Handle(Popped(s, c), c, s.infos[c].q[0], true);
    PoppedKeeps(s, c);
    ShapeKnown(Popped(s, c), h, c);
    assert Drain(h, c) == h;
    assert Drain(s, c) == Drain(h, c);
  }

  /** The events wait at the target, and a body has run. */
  function HandedOn(s: Sys, tgt: nat, run: Ran, events: seq<Event>, ids: seq<nat>): Sys
    requires Known(s, tgt)
  {
    Logged(Put(s, tgt, s.infos[tgt].(q := events)), [run]).(sent := s.sent[tgt := s.sent[tgt] + ids])
  }

  lemma FlushHandsOn(s: Sys, c: nat, tgt: nat, id: nat, queued: bool, events: seq<Event>, ids: seq<nat>)
    requires Wired(s) && c < |s.infos| && tgt < |s.infos| && c != tgt && Idle(s, c) && Idle(s, tgt) && Quiet(s)
    requires QueueTargets(events, |s.infos|)
    ensures
      var u := Stop(Queued(Start(s, c, id, queued), c, tgt, events, ids), c);
      var d := HandedOn(s, tgt, Ran(c, id, queued), events, ids);
      && Wired(u) && Idle(u, c) && Wired(d) && Idle(d, tgt) && Flush(u, c) == Flush(d, tgt)
  {
    var u := Stop(Queued(Start(s, c, id, queued), c, tgt, events, ids), c);
    var d := HandedOn(s, tgt, Ran(c, id, queued), events, ids);
    assert s.infos[tgt].q + events == events;
    assert u.infos == d.infos[c := d.infos[c].(deferred := Some(tgt))];
    assert Cleared(u, c).infos == d.infos;
    assert Cleared(u, c) == d;
    hide Flush, Quiet, Weight;
    FlushDeferred(u, c);
  }

  lemma HandedOnQuiet(s: Sys, tgt: nat, run: Ran, events: seq<Event>, ids: seq<nat>)
    requires Wired(s) && tgt < |s.infos| && Idle(s, tgt) && Quiet(s)
    ensures var d := HandedOn(s, tgt, run, events, ids);
      && Known(d, tgt) && d.infos[tgt].q == events && QuietBut(d, tgt)
      && BusyOnes(d) == BusyOnes(s) && Flushing(d) == Flushing(s)
      && Emptied(d, tgt) == Logged(s, [run]).(sent := s.sent[tgt := s.sent[tgt] + ids])
  {
    var d := HandedOn(s, tgt, run, events, ids);
    assert Emptied(d, tgt).infos == s.infos;
  }

  /** From a quiet system, the posts of a component that flushes run after its body, on their target, in
      the order in which they were made. */
  lemma PostsRunAfterBody(s: Sys, c: nat, tgt: nat, e: Event, queued: bool)
    requires Wired(s) && c < |s.infos| && tgt < |s.infos| && c != tgt && Idle(s, c) && Idle(s, tgt) && Quiet(s)
    requires Targets(e, |s.infos|) && s.infos[c].flushes && e.posts != [] && PostsTo(e.posts, tgt)
    requires QueueCalls(EventsOf(e.posts), tgt, BusyOnes(s), Flushing(s))
    ensures Handle(s, c, e, queued)
      == Logged(s, [Ran(c, e.id, queued)] + QueuePreorder(EventsOf(e.posts), tgt))
           .(sent := s.sent[tgt := s.sent[tgt] + IdsOf(e.posts)])
  {
    BodyStarts(s, c, e, queued);
    var events, ids, a := EventsOf(e.posts), IdsOf(e.posts), Start(s, c, e.id, queued);
    PostsQueued(a, c, tgt, e.posts);
    EventsTarget(e.posts, |s.infos|);
    var run := Ran(c, e.id, queued);
    FlushHandsOn(s, c, tgt, e.id, queued, events, ids);
    HandedOnQuiet(s, tgt, run, events, ids);
    var d := HandedOn(s, tgt, run, events, ids);
    hide Flush, Weight, Calls, Preorder, Quiet, BusyOnes, Flushing, Targets, Queued, HandedOn;
    FlushRunsQueue(d, tgt);
    LoggedTwice(s, [run], QueuePreorder(events, tgt));
  }

  lemma {:induction false} EventsTarget(posts: seq<Post>, n: nat)
    requires TargetsAll(posts, n)
    ensures QueueTargets(EventsOf(posts), n)
  {
    if posts != [] {
      PostParts(posts, n);
      EventsTarget(posts[1..], n);
      assert EventsOf(posts) == [posts[0].event] + EventsOf(posts[1..]);
    }
  }
}
