/** The dispatcher of runtime/c/runtime.c, call by call. */
module DispatchC {
  import opened DispatchModel
  import opened Wrappers

  /** `dzn_runtime_handle_event`: start, run the body, finish. */
  function Handle(s: Sys, c: nat, e: Event, queued: bool): (t: Sys)
    requires Wired(s) && c < |s.infos| && Idle(s, c) && Targets(e, |s.infos|)
    ensures Wired(t) && SameShape(s, t) && Weight(t.infos) < Weight(s.infos) + Size(e)
    decreases Weight(s.infos) + Size(e), 1, 0
  {
    BodyStarts(s, c, e, queued);
    var a := Start(s, c, e.id, queued);
    hide *;
    var b := Body(a, c, e.posts);
    BodyStops(s, c, e, queued, b);
    var t := Flush(Stop(b, c), c);
    SameShapeOn(s, Stop(b, c), t);
    t
  }

  /** The body of an event on component `c` makes its posts one by one. */
  function Body(s: Sys, c: nat, posts: seq<Post>): (t: Sys)
    requires Wired(s) && c < |s.infos| && TargetsAll(posts, |s.infos|)
    ensures Wired(t) && SameShape(s, t) && Weight(t.infos) <= Weight(s.infos) + SizeAll(posts)
    decreases Weight(s.infos) + SizeAll(posts), 3, |posts|
  {
    SameShapeItself(s);
    if posts == [] then s
    else
      var p := posts[0];
      PostParts(posts, |s.infos|);
      hide Wired, SameShape, Targets, TargetsAll, Weight, Size, SizeAll;
      var b := Enqueue(s, Source(c, p), p.tgt, p.event);
      ShapeKnown(s, b, c);
      var t := Body(b, c, posts[1..]);
      SameShapeOn(s, b, t);
      t
  }

  /** `dzn_runtime_enqueue`. */
  function Enqueue(s: Sys, src: Option<nat>, tgt: nat, e: Event): (t: Sys)
    requires Wired(s) && tgt < |s.infos| && (src.Some? ==> src.value < |s.infos|) && Targets(e, |s.infos|)
    ensures Wired(t) && SameShape(s, t) && Weight(t.infos) <= Weight(s.infos) + Size(e)
    decreases Weight(s.infos) + Size(e), 2, 0
  {
    PushedKeeps(s, src, tgt, e);
    hide Pushed, Weight, Targets;
    if AtOnce(s, src, tgt) then Handle(s, tgt, e, false) else Pushed(s, src, tgt, e)
  }

  /** `dzn_runtime_flush`: drain the queue, then go on with the deferred component, if it is
      idle, or look again. */
  function Flush(s: Sys, c: nat): (t: Sys)
    requires Wired(s) && c < |s.infos| && Idle(s, c)
    ensures Wired(t) && SameShape(s, t) && Weight(t.infos) <= Weight(s.infos)
    decreases Weight(s.infos), 5, Debts(s.infos)
  {
    hide *;
    var d := Drain(s, c);
    ShapeKnown(s, d, c);
    match d.infos[c].deferred
    case None => d
    case Some(next) =>
      DeferredKnown(d, c);
      ClearedKeeps(d, c);
      ShapeKnown(d, Cleared(d, c), next);
      ShapeKnown(d, Cleared(d, c), c);
      var t := Flush(Cleared(d, c), if Idle(Cleared(d, c), next) then next else c);
      SameShapeOn(d, Cleared(d, c), t);
      SameShapeOn(s, d, t);
      t
  }

  /** The inner loop of `dzn_runtime_flush`. */
  function Drain(s: Sys, c: nat): (t: Sys)
    requires Wired(s) && c < |s.infos| && Idle(s, c)
    ensures Wired(t) && SameShape(s, t) && (t == s || Weight(t.infos) < Weight(s.infos))
    ensures t.infos[c].q == []
    decreases Weight(s.infos), 4, 0
  {
    SameShapeItself(s);
    hide *;
    if s.infos[c].q == [] then s
    else
      PoppedKeeps(s, c);
      ShapeKnown(s, Popped(s, c), c);
      var h := Handle(Popped(s, c), c, s.infos[c].q[0], true);
      ShapeKnown(Popped(s, c), h, c);
      var t := Drain(h, c);
      SameShapeOn(Popped(s, c), h, t);
      SameShapeOn(s, Popped(s, c), t);
      t
  }
}
