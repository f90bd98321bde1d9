/** Event dispatch among components, as two runtimes of the repository do it: the mutually
    recursive form of runtime/c/runtime.c and the iterative form of runtime/cs/dzn/runtime.cs.

    An event is the finite tree of what its body posts.  A post names its target; an external
    post has no source component (a null `vsrc`, a null `src`). */
module DispatchModel {
  import opened Wrappers

  datatype Event = Event(id: nat, posts: seq<Post>)
  datatype Post = Post(external: bool, tgt: nat, event: Event)

  /** `dzn_runtime_info`, or `Runtime.State`; only whether `handling` is zero matters. */
  datatype Info = Info(handling: bool, flushes: bool, deferred: Option<nat>, q: seq<Event>)

  /** A body that ran: on which component, for which event, and whether the event came out of
      the queue of the component. */
  datatype Ran = Ran(component: nat, id: nat, queued: bool)

  /** All components, the bodies that ran so far, and what was ever queued for each component. */
  datatype Sys = Sys(infos: seq<Info>, log: seq<Ran>, sent: seq<seq<nat>>)

  predicate Known(s: Sys, c: nat) {
    |s.sent| == |s.infos| && c < |s.infos|
  }

  predicate Idle(s: Sys, c: nat)
    requires Known(s, c)
  {
    !s.infos[c].handling
  }

  /** Every target in the tree is one of `n` components. */
  predicate Targets(e: Event, n: nat)
    decreases e, 1
  {
    TargetsAll(e.posts, n)
  }

  predicate TargetsAll(posts: seq<Post>, n: nat)
    decreases posts, 0
  {
    posts == [] || (PostTargets(posts[0], n) && TargetsAll(posts[1..], n))
  }

  predicate PostTargets(p: Post, n: nat)
    decreases p, 2
  {
    p.tgt < n && Targets(p.event, n)
  }

  predicate QueueTargets(q: seq<Event>, n: nat) {
    forall e :: e in q ==> Targets(e, n)
  }

  predicate Wired(s: Sys) {
    && |s.sent| == |s.infos|
    && (forall c :: 0 <= c < |s.infos| ==> QueueTargets(s.infos[c].q, |s.infos|))
    && (forall c :: 0 <= c < |s.infos| && s.infos[c].deferred.Some? ==>
          s.infos[c].deferred.value < |s.infos|)
  }

  // how much work is left

  function Size(e: Event): nat
    decreases e, 1
  {
    1 + SizeAll(e.posts)
  }

  function SizeAll(posts: seq<Post>): nat
    decreases posts, 0
  {
    if posts == [] then 0 else PostSize(posts[0]) + SizeAll(posts[1..])
  }

  function PostSize(p: Post): nat
    decreases p, 2
  {
    Size(p.event)
  }

  function QueueSize(q: seq<Event>): nat {
    if q == [] then 0 else Size(q[0]) + QueueSize(q[1..])
  }

  function Weight(infos: seq<Info>): nat {
    if infos == [] then 0 else QueueSize(infos[0].q) + Weight(infos[1..])
  }

  /** The number of components with a deferred flush. */
  function Debts(infos: seq<Info>): nat {
    if infos == [] then 0 else (if infos[0].deferred.Some? then 1 else 0) + Debts(infos[1..])
  }

  lemma {:induction false} QueueSizeAppend(q: seq<Event>, e: Event)
    ensures QueueSize(q + [e]) == QueueSize(q) + Size(e)
  {
    if q == [] {
      assert [e][1..] == [];
    } else {
      assert (q + [e])[1..] == q[1..] + [e];
      QueueSizeAppend(q[1..], e);
    }
  }

  lemma {:induction false} WeightUpdate(infos: seq<Info>, c: nat, i: Info)
    requires c < |infos|
    ensures Weight(infos[c := i]) + QueueSize(infos[c].q) == Weight(infos) + QueueSize(i.q)
    ensures Debts(infos[c := i]) + (if infos[c].deferred.Some? then 1 else 0)
         == Debts(infos) + (if i.deferred.Some? then 1 else 0)
  {
    if c == 0 {
      assert infos[0 := i][1..] == infos[1..];
    } else {
      assert infos[c := i][1..] == infos[1..][c - 1 := i];
      WeightUpdate(infos[1..], c - 1, i);
    }
  }

  // single updates

  function Put(s: Sys, c: nat, i: Info): Sys
    requires Known(s, c)
  {
    s.(infos := s.infos[c := i])
  }

  /** `dzn_runtime_start`, which asserts that the component is idle, and the run of a body. */
  function Start(s: Sys, c: nat, id: nat, queued: bool): Sys
    requires Known(s, c) && Idle(s, c)
  {
    Put(s, c, s.infos[c].(handling := true)).(log := s.log + [Ran(c, id, queued)])
  }

  function Stop(s: Sys, c: nat): Sys
    requires Known(s, c)
  {
    Put(s, c, s.infos[c].(handling := false))
  }

  function Popped(s: Sys, c: nat): Sys
    requires Known(s, c) && s.infos[c].q != []
  {
    Put(s, c, s.infos[c].(q := s.infos[c].q[1..]))
  }

  function Cleared(s: Sys, c: nat): Sys
    requires Known(s, c)
  {
    Put(s, c, s.infos[c].(deferred := None))
  }

  /** An event is queued for `tgt`, and its source remembers whom to flush. */
  function Pushed(s: Sys, src: Option<nat>, tgt: nat, e: Event): Sys
    requires Known(s, tgt) && (src.Some? ==> src.value < |s.infos|)
  {
    var r := Put(s, tgt, s.infos[tgt].(q := s.infos[tgt].q + [e]))
               .(sent := s.sent[tgt := s.sent[tgt] + [e.id]]);
    if src.None? then r else Put(r, src.value, r.infos[src.value].(deferred := Some(tgt)))
  }

  function Source(c: nat, p: Post): Option<nat> {
    if p.external then None else Some(c)
  }

  /** `enqueue` runs the event at once when the source does not flush and the target is idle. */
  predicate AtOnce(s: Sys, src: Option<nat>, tgt: nat)
    requires Known(s, tgt) && (src.Some? ==> src.value < |s.infos|)
  {
    !(src.Some? && s.infos[src.value].flushes) && Idle(s, tgt)
  }

  /** What no call changes on return: the components, who is handling, and who flushes. */
  ghost predicate SameShape(s: Sys, t: Sys) {
    && |t.infos| == |s.infos| && |t.sent| == |s.sent|
    && (forall c :: 0 <= c < |s.infos| ==>
          t.infos[c].handling == s.infos[c].handling && t.infos[c].flushes == s.infos[c].flushes)
  }

  lemma PopWeight(s: Sys, c: nat)
    requires Known(s, c) && s.infos[c].q != []
    ensures Weight(Popped(s, c).infos) + Size(s.infos[c].q[0]) == Weight(s.infos)
  {
    WeightUpdate(s.infos, c, s.infos[c].(q := s.infos[c].q[1..]));
  }

  lemma PushWeight(s: Sys, src: Option<nat>, tgt: nat, e: Event)
    requires Known(s, tgt) && (src.Some? ==> src.value < |s.infos|)
    ensures Weight(Pushed(s, src, tgt, e).infos) == Weight(s.infos) + Size(e)
  {
    var i := s.infos[tgt].(q := s.infos[tgt].q + [e]);
    WeightUpdate(s.infos, tgt, i);
    QueueSizeAppend(s.infos[tgt].q, e);
    if src.Some? {
      var r := s.infos[tgt := i];
      WeightUpdate(r, src.value, r[src.value].(deferred := Some(tgt)));
    }
  }

  lemma FlagWeight(s: Sys, c: nat, i: Info)
    requires Known(s, c) && i.q == s.infos[c].q
    ensures Weight(Put(s, c, i).infos) == Weight(s.infos)
    ensures Debts(Put(s, c, i).infos) + (if s.infos[c].deferred.Some? then 1 else 0)
         == Debts(s.infos) + (if i.deferred.Some? then 1 else 0)
  {
    WeightUpdate(s.infos, c, i);
  }

  lemma PutWired(s: Sys, c: nat, i: Info)
    requires Wired(s) && c < |s.infos|
    requires QueueTargets(i.q, |s.infos|) && (i.deferred.Some? ==> i.deferred.value < |s.infos|)
    ensures Wired(Put(s, c, i))
  {
  }

  lemma StartKeeps(s: Sys, c: nat, id: nat, queued: bool)
    requires Wired(s) && c < |s.infos| && Idle(s, c)
    ensures var t := Start(s, c, id, queued); Wired(t) && Weight(t.infos) == Weight(s.infos)
  {
    PutWired(s, c, s.infos[c].(handling := true));
    FlagWeight(s, c, s.infos[c].(handling := true));
  }

  lemma StopKeeps(s: Sys, c: nat)
    requires Wired(s) && c < |s.infos|
    ensures var t := Stop(s, c); Wired(t) && Weight(t.infos) == Weight(s.infos)
  {
    PutWired(s, c, s.infos[c].(handling := false));
    FlagWeight(s, c, s.infos[c].(handling := false));
  }

  lemma EventParts(e: Event, n: nat)
    requires Targets(e, n)
    ensures TargetsAll(e.posts, n) && Size(e) == 1 + SizeAll(e.posts)
  {
  }

  lemma PostParts(posts: seq<Post>, n: nat)
    requires posts != [] && TargetsAll(posts, n)
    ensures posts[0].tgt < n && Targets(posts[0].event, n) && TargetsAll(posts[1..], n)
    ensures SizeAll(posts) == Size(posts[0].event) + SizeAll(posts[1..])
  {
    assert PostTargets(posts[0], n) && PostSize(posts[0]) == Size(posts[0].event);
  }

  lemma SameShapeOn(s: Sys, t: Sys, u: Sys)
    requires SameShape(s, t) && SameShape(t, u)
    ensures SameShape(s, u)
  {
  }

  lemma ShapeKnown(s: Sys, t: Sys, c: nat)
    requires Wired(s) && SameShape(s, t) && Wired(t) && c < |s.infos|
    ensures |t.infos| == |s.infos| && Known(s, c) && Known(t, c) && Idle(t, c) == Idle(s, c)
  {
  }

  lemma SameShapeItself(s: Sys)
    ensures SameShape(s, s)
  {
  }

  /** A component that is to be flushed next. */
  lemma DeferredKnown(s: Sys, c: nat)
    requires Wired(s) && c < |s.infos| && s.infos[c].deferred.Some?
    ensures s.infos[c].deferred.value < |s.infos|
  {
  }

  /** Before a body runs. */
  lemma BodyStarts(s: Sys, c: nat, e: Event, queued: bool)
    requires Wired(s) && c < |s.infos| && Idle(s, c) && Targets(e, |s.infos|)
    ensures var t := Start(s, c, e.id, queued);
      Wired(t) && |t.infos| == |s.infos| && TargetsAll(e.posts, |s.infos|)
      && Weight(t.infos) + SizeAll(e.posts) < Weight(s.infos) + Size(e)
  {
    StartKeeps(s, c, e.id, queued);
    EventParts(e, |s.infos|);
  }

  /** After the body of an event ran and left the system in state `b`. */
  lemma BodyStops(s: Sys, c: nat, e: Event, queued: bool, b: Sys)
    requires Wired(s) && c < |s.infos| && Idle(s, c) && Wired(b) && SameShape(Start(s, c, e.id, queued), b)
    ensures Known(b, c)
    ensures var t := Stop(b, c);
      Wired(t) && SameShape(s, t) && Known(t, c) && Idle(t, c) && Weight(t.infos) == Weight(b.infos)
  {
    StopKeeps(b, c);
  }

  lemma PoppedKeeps(s: Sys, c: nat)
    requires Wired(s) && c < |s.infos| && s.infos[c].q != []
    ensures var t := Popped(s, c);
            Wired(t) && SameShape(s, t) && Weight(t.infos) + Size(s.infos[c].q[0]) == Weight(s.infos)
    ensures Targets(s.infos[c].q[0], |s.infos|)
  {
    assert s.infos[c].q[0] in s.infos[c].q;
    PutWired(s, c, s.infos[c].(q := s.infos[c].q[1..]));
    PopWeight(s, c);
  }

  lemma ClearedKeeps(s: Sys, c: nat)
    requires Wired(s) && c < |s.infos| && s.infos[c].deferred.Some?
    ensures var t := Cleared(s, c);
            Wired(t) && SameShape(s, t) && Weight(t.infos) == Weight(s.infos) && Debts(t.infos) + 1 == Debts(s.infos)
  {
    PutWired(s, c, s.infos[c].(deferred := None));
    FlagWeight(s, c, s.infos[c].(deferred := None));
  }

  lemma PushedKeeps(s: Sys, src: Option<nat>, tgt: nat, e: Event)
    requires Wired(s) && tgt < |s.infos| && (src.Some? ==> src.value < |s.infos|)
    requires Targets(e, |s.infos|)
    ensures var t := Pushed(s, src, tgt, e);
            Wired(t) && SameShape(s, t) && Weight(t.infos) == Weight(s.infos) + Size(e)
  {
    PushWeight(s, src, tgt, e);
    PushWired(s, src, tgt, e);
  }

  lemma PushWired(s: Sys, src: Option<nat>, tgt: nat, e: Event)
    requires Wired(s) && tgt < |s.infos| && (src.Some? ==> src.value < |s.infos|) && Targets(e, |s.infos|)
    ensures Wired(Pushed(s, src, tgt, e)) && SameShape(s, Pushed(s, src, tgt, e))
  {
    var i := s.infos[tgt].(q := s.infos[tgt].q + [e]);
    PutWired(s, tgt, i);
    if src.Some? {
      var r := Put(s, tgt, i);
      PutWired(r, src.value, r.infos[src.value].(deferred := Some(tgt)));
    }
  }
}
