/** The two runtimes as objects: runtime/c/runtime.c and runtime/cs/dzn/runtime.cs.  The log of
    bodies and what was ever queued are history. */
module DispatchRuntimes {
  import opened DispatchModel
  import opened Wrappers
  import C = DispatchC
  import Cs = DispatchCs

  lemma {:induction false} RestOfPosts(posts: seq<Post>, i: nat, n: nat)
    requires i < |posts| && TargetsAll(posts[i..], n)
    ensures posts[i..][1..] == posts[i + 1..] && TargetsAll(posts[i + 1..], n)
    ensures posts[i].tgt < n && Targets(posts[i].event, n)
    ensures SizeAll(posts[i..]) == Size(posts[i].event) + SizeAll(posts[i + 1..])
  {
    assert PostTargets(posts[i..][0], n) && PostSize(posts[i..][0]) == Size(posts[i].event);
  }

  /** One round of the outer loop of `dzn_runtime_flush`. */
  lemma FlushRound(s: Sys, c: nat, d: Sys)
    requires Wired(s) && c < |s.infos| && Idle(s, c) && d == C.Drain(s, c)
    ensures d.infos[c].deferred == None ==> C.Flush(s, c) == d
    ensures d.infos[c].deferred.Some? ==>
              var t, next := Cleared(d, c), d.infos[c].deferred.value;
              && Wired(t) && SameShape(d, t) && Weight(t.infos) == Weight(d.infos)
              && Debts(t.infos) + 1 == Debts(d.infos)
              && next < |d.infos|
              && C.Flush(s, c) == C.Flush(t, if Idle(t, next) then next else c)
  {
    if d.infos[c].deferred.Some? {
      ClearedKeeps(d, c);
    }
  }

  /** One round of the inner loop. */
  lemma DrainRound(s: Sys, c: nat)
    requires Wired(s) && c < |s.infos| && Idle(s, c) && s.infos[c].q != []
    ensures var p, e := Popped(s, c), s.infos[c].q[0];
      && Wired(p) && SameShape(s, p) && Targets(e, |s.infos|)
      && Weight(p.infos) + Size(e) == Weight(s.infos)
      && C.Drain(s, c) == C.Drain(C.Handle(p, c, e, true), c)
  {
    PoppedKeeps(s, c);
  }

  class RecursiveRuntime {
    var infos: seq<Info>
    ghost var log: seq<Ran>
    ghost var sent: seq<seq<nat>>

    ghost function St(): Sys
      reads this
    {
      Sys(infos, log, sent)
    }

    /** `dzn_runtime_start`; the precondition is its assertion. */
    method StartEvent(c: nat, ghost id: nat, ghost queued: bool)
      requires Known(St(), c) && Idle(St(), c)
      modifies `infos, `log
      ensures St() == Start(old(St()), c, id, queued)
    {
      infos := infos[c := infos[c].(handling := true)];
      log := log + [Ran(c, id, queued)];
    }

    method HandleEvent(c: nat, e: Event, ghost queued: bool)
      requires Wired(St()) && c < |infos| && !infos[c].handling && Targets(e, |infos|)
      modifies this
      ensures St() == C.Handle(old(St()), c, e, queued)
      decreases Weight(infos) + Size(e), 1, 0
    {
      StartKeeps(St(), c, e.id, queued);
      StartEvent(c, e.id, queued);
      RunBody(c, e.posts);
      Finish(c);
    }

    /** `dzn_runtime_finish`. */
    method Finish(c: nat)
      requires Wired(St()) && c < |infos|
      modifies this
      ensures St() == C.Flush(Stop(old(St()), c), c)
      decreases Weight(infos), 6, 0
    {
      StopKeeps(St(), c);
      infos := infos[c := infos[c].(handling := false)];
      Flush(c);
    }

    /** The body of an event: it posts its events in turn. */
    method RunBody(c: nat, posts: seq<Post>)
      requires Wired(St()) && c < |infos| && TargetsAll(posts, |infos|)
      modifies this
      ensures St() == C.Body(old(St()), c, posts)
      decreases Weight(infos) + SizeAll(posts), 3, |posts|
    {
      assert posts[0..] == posts;
      for i := 0 to |posts|
        invariant Wired(St()) && |infos| == old(|infos|) && TargetsAll(posts[i..], |infos|)
        invariant Weight(infos) + SizeAll(posts[i..]) <= old(Weight(infos)) + SizeAll(posts)
        invariant C.Body(St(), c, posts[i..]) == C.Body(old(St()), c, posts)
      {
        RestOfPosts(posts, i, |infos|);
        Enqueue(Source(c, posts[i]), posts[i].tgt, posts[i].event);
      }
    }

    /** `dzn_runtime_enqueue`. */
    method Enqueue(src: Option<nat>, tgt: nat, e: Event)
      requires Wired(St()) && tgt < |infos| && (src.Some? ==> src.value < |infos|) && Targets(e, |infos|)
      modifies this
      ensures St() == C.Enqueue(old(St()), src, tgt, e)
      decreases Weight(infos) + Size(e), 2, 0
    {
      if !(src.Some? && infos[src.value].flushes) && !infos[tgt].handling {
        HandleEvent(tgt, e, false);
      } else {
        infos := infos[tgt := infos[tgt].(q := infos[tgt].q + [e])];
        sent := sent[tgt := sent[tgt] + [e.id]];
        if src.Some? {
          infos := infos[src.value := infos[src.value].(deferred := Some(tgt))];
        }
      }
    }

    /** `dzn_runtime_flush`. */
    method Flush(c: nat)
      requires Wired(St()) && c < |infos| && !infos[c].handling
      modifies this
      ensures St() == C.Flush(old(St()), c)
      decreases Weight(infos), 5, 0
    {
      hide C.Flush, C.Drain;
      var info: nat := c;
      while true
        invariant Wired(St()) && |infos| == old(|infos|) && info < |infos| && Idle(St(), info)
        invariant Weight(infos) <= old(Weight(infos))
        invariant C.Flush(St(), info) == C.Flush(old(St()), c)
        decreases Weight(infos), Debts(infos)
      {
        ghost var top := St();
        DrainQueue(info);
        FlushRound(top, info, St());
        if infos[info].deferred == None {
          break;
        }
        var tgt := infos[info].deferred.value;
        infos := infos[info := infos[info].(deferred := None)];
        if !infos[tgt].handling {
          info := tgt;
        }
      }
    }

    /** The inner loop of `dzn_runtime_flush`. */
    method DrainQueue(info: nat)
      requires Wired(St()) && info < |infos| && !infos[info].handling
      modifies this
      ensures St() == C.Drain(old(St()), info)
      decreases Weight(infos), 4, 0
    {
      while infos[info].q != []
        invariant Wired(St()) && |infos| == old(|infos|) && Idle(St(), info)
        invariant St() == old(St()) || Weight(infos) < old(Weight(infos))
        invariant C.Drain(St(), info) == C.Drain(old(St()), info)
        decreases Weight(infos)
      {
        DrainRound(St(), info);
        var e := infos[info].q[0];
        infos := infos[info := infos[info].(q := infos[info].q[1..])];
        HandleEvent(info, e, true);
      }
    }
  }

  class IterativeRuntime {
    var infos: seq<Info>
    ghost var log: seq<Ran>
    ghost var sent: seq<seq<nat>>

    ghost function St(): Sys
      reads this
    {
      Sys(infos, log, sent)
    }

    /** `handle`; the precondition keeps it from throwing. */
    method Handle(c: nat, e: Event, ghost queued: bool)
      requires Wired(St()) && c < |infos| && !infos[c].handling && Targets(e, |infos|)
      modifies this
      ensures St() == Cs.Body(Start(old(St()), c, e.id, queued), c, e.posts)
      decreases Weight(infos) + Size(e), 1, 0
    {
      StartKeeps(St(), c, e.id, queued);
      infos := infos[c := infos[c].(handling := true)];
      log := log + [Ran(c, e.id, queued)];
      RunBody(c, e.posts);
    }

    method RunBody(c: nat, posts: seq<Post>)
      requires Wired(St()) && c < |infos| && TargetsAll(posts, |infos|)
      modifies this
      ensures St() == Cs.Body(old(St()), c, posts)
      decreases Weight(infos) + SizeAll(posts), 3, |posts|
    {
      assert posts[0..] == posts;
      for i := 0 to |posts|
        invariant Wired(St()) && |infos| == old(|infos|) && TargetsAll(posts[i..], |infos|)
        invariant Weight(infos) + SizeAll(posts[i..]) <= old(Weight(infos)) + SizeAll(posts)
        invariant Cs.Body(St(), c, posts[i..]) == Cs.Body(old(St()), c, posts)
      {
        RestOfPosts(posts, i, |infos|);
        Enqueue(Source(c, posts[i]), posts[i].tgt, posts[i].event);
      }
    }

    /** `enqueue`. */
    method Enqueue(src: Option<nat>, tgt: nat, e: Event)
      requires Wired(St()) && tgt < |infos| && (src.Some? ==> src.value < |infos|) && Targets(e, |infos|)
      modifies this
      ensures St() == Cs.Enqueue(old(St()), src, tgt, e)
      decreases Weight(infos) + Size(e), 2, 0
    {
      if !(src.Some? && infos[src.value].flushes) && !infos[tgt].handling {
        StartKeeps(St(), tgt, e.id, false);
        Handle(tgt, e, false);
        Flush(tgt);
      } else {
        infos := infos[tgt := infos[tgt].(q := infos[tgt].q + [e])];
        sent := sent[tgt := sent[tgt] + [e.id]];
        if src.Some? {
          infos := infos[src.value := infos[src.value].(deferred := Some(tgt))];
        }
      }
    }

    /** `flush`. */
    method Flush(c: nat)
      requires Wired(St()) && c < |infos|
      modifies this
      ensures St() == Cs.Flush(Stop(old(St()), c), c)
      decreases Weight(infos), 5, Debts(infos)
    {
      StopKeeps(St(), c);
      FlagWeight(St(), c, infos[c].(handling := false));
      infos := infos[c := infos[c].(handling := false)];
      DrainQueue(c);
      if infos[c].deferred != None {
        ClearedKeeps(St(), c);
        var tgt := infos[c].deferred.value;
        infos := infos[c := infos[c].(deferred := None)];
        if !infos[tgt].handling {
          StopIdle(St(), tgt);
          Flush(tgt);
        }
      }
    }

    /** The loop of `flush`. */
    method DrainQueue(c: nat)
      requires Wired(St()) && c < |infos| && !infos[c].handling
      modifies this
      ensures St() == Cs.Drain(old(St()), c)
      decreases Weight(infos), 4, 0
    {
      while infos[c].q != []
        invariant Wired(St()) && |infos| == old(|infos|) && Idle(St(), c)
        invariant St() == old(St()) || Weight(infos) < old(Weight(infos))
        invariant Cs.Drain(St(), c) == Cs.Drain(old(St()), c)
        decreases Weight(infos)
      {
        PoppedKeeps(St(), c);
        var e := infos[c].q[0];
        infos := infos[c := infos[c].(q := infos[c].q[1..])];
        StartKeeps(St(), c, e.id, true);
        Handle(c, e, true);
        StopKeeps(St(), c);
        infos := infos[c := infos[c].(handling := false)];
      }
    }
  }

  lemma StopIdle(s: Sys, c: nat)
    requires Known(s, c) && Idle(s, c)
    ensures Stop(s, c) == s
  {
    assert s.infos[c := s.infos[c]] == s.infos;
  }
}
