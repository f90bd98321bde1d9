/** The dispatcher of runtime/cs/dzn/runtime.cs, call by call. */
module DispatchCs {
  import opened DispatchModel
  import opened Wrappers

  /** `handle` and the `flush` that follows it in `enqueue`. */
  function Handle(s: Sys, c: nat, e: Event, queued: bool): (t: Sys)
    requires Wired(s) && c < |s.infos| && Idle(s, c) && Targets(e, |s.infos|)
    ensures Wired(t) && SameShape(s, t) && Weight(t.infos) < Weight(s.infos) + Size(e)
    decreases Weight(s.infos) + Size(e), 1, 0
  {
    BodyStarts(s, c, e, queued);
    var a := Start(s, c, e.id, queued);
    hide *;
    var b := Body(a, c, e.posts);
    BodyStops(s, c, e, queued, b);
    var t := Flush(Stop(b, c), c);
    SameShapeOn(s, Stop(b, c), t);
    t
  }

  function Body(s: Sys, c: nat, posts: seq<Post>): (t: Sys)
    requires Wired(s) && c < |s.infos| && TargetsAll(posts, |s.infos|)
    ensures Wired(t) && SameShape(s, t) && Weight(t.infos) <= Weight(s.infos) + SizeAll(posts)
    decreases Weight(s.infos) + SizeAll(posts), 3, |posts|
  {
    SameShapeItself(s);
    if posts == [] then s
    else
      var p := posts[0];
      PostParts(posts, |s.infos|);
      hide Wired, SameShape, Targets, TargetsAll, Weight, Size, SizeAll;
      var b := Enqueue(s, Source(c, p), p.tgt, p.event);
      ShapeKnown(s, b, c);
      var t := Body(b, c, posts[1..]);
      SameShapeOn(s, b, t);
      t
  }

  /** `enqueue`. */
  function Enqueue(s: Sys, src: Option<nat>, tgt: nat, e: Event): (t: Sys)
    requires Wired(s) && tgt < |s.infos| && (src.Some? ==> src.value < |s.infos|) && Targets(e, |s.infos|)
    ensures Wired(t) && SameShape(s, t) && Weight(t.infos) <= Weight(s.infos) + Size(e)
    decreases Weight(s.infos) + Size(e), 2, 0
  {
    PushedKeeps(s, src, tgt, e);
    hide Pushed, Weight, Targets;
    if AtOnce(s, src, tgt) then Handle(s, tgt, e, false) else Pushed(s, src, tgt, e)
  }

  /** `flush`: drain the queue, then flush the deferred component if it is idle. */
  function Flush(s: Sys, c: nat): (t: Sys)
    requires Wired(s) && c < |s.infos| && Idle(s, c)
    ensures Wired(t) && SameShape(s, t) && Weight(t.infos) <= Weight(s.infos)
    decreases Weight(s.infos), 5, Debts(s.infos)
  {
    hide *;
    var d := Drain(s, c);
    ShapeKnown(s, d, c);
    match d.infos[c].deferred
    case None => d
    case Some(next) =>
      DeferredKnown(d, c);
      ClearedKeeps(d, c);
      ShapeKnown(d, Cleared(d, c), next);
      SameShapeOn(s, d, Cleared(d, c));
      if !Idle(Cleared(d, c), next) then Cleared(d, c)
      else
        var t := Flush(Cleared(d, c), next);
        SameShapeOn(s, Cleared(d, c), t);
        t
  }

  /** The loop of `flush`: a queued event is handled without being followed by a flush. */
  function Drain(s: Sys, c: nat): (t: Sys)
    requires Wired(s) && c < |s.infos| && Idle(s, c)
    ensures Wired(t) && SameShape(s, t) && (t == s || Weight(t.infos) < Weight(s.infos))
    ensures t.infos[c].q == []
    decreases Weight(s.infos), 4, 0
  {
    SameShapeItself(s);
    hide *;
    if s.infos[c].q == [] then s
    else
      PoppedKeeps(s, c);
      var e, p := s.infos[c].q[0], Popped(s, c);
      ShapeKnown(s, p, c);
      BodyStarts(p, c, e, true);
      var b := Body(Start(p, c, e.id, true), c, e.posts);
      BodyStops(p, c, e, true, b);
      ShapeKnown(p, Stop(b, c), c);
      var t := Drain(Stop(b, c), c);
      SameShapeOn(p, Stop(b, c), t);
      SameShapeOn(s, p, t);
      t
  }
}
