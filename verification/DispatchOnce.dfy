/** Every event of a tree runs exactly once, on the component it was posted to. */
module DispatchOnce {
  import opened DispatchModel
  import opened DispatchC
  import opened DispatchProofs
  import opened DispatchTheorems
  import opened Wrappers

  /** An event and the component it is meant for. */
  type Job = (nat, nat)

  function One(j: Job, c: nat, id: nat): nat {
    if j == (c, id) then 1 else 0
  }

  /** How often job `j` occurs in a tree whose root is meant for component `c`. */
  function Jobs(e: Event, c: nat, j: Job): nat
    decreases e, 1
  {
    One(j, c, e.id) + JobsAll(e.posts, j)
  }

  function JobsAll(posts: seq<Post>, j: Job): nat
    decreases posts, 0
  {
    if posts == [] then 0 else PostJobs(posts[0], j) + JobsAll(posts[1..], j)
  }

  function PostJobs(p: Post, j: Job): nat
    decreases p, 2
  {
    Jobs(p.event, p.tgt, j)
  }

  function QueuedJobs(q: seq<Event>, c: nat, j: Job): nat {
    if q == [] then 0 else Jobs(q[0], c, j) + QueuedJobs(q[1..], c, j)
  }

  /** How often it occurs in the queues of the first `n` components. */
  function AllQueued(infos: seq<Info>, n: nat, j: Job): nat
    requires n <= |infos|
  {
    if n == 0 then 0 else AllQueued(infos, n - 1, j) + QueuedJobs(infos[n - 1].q, n - 1, j)
  }

  /** How often it has run. */
  function Done(log: seq<Ran>, j: Job): nat {
    if log == [] then 0
    else Done(log[..|log| - 1], j) + One(j, log[|log| - 1].component, log[|log| - 1].id)
  }

  function Total(s: Sys, j: Job): nat {
    Done(s.log, j) + AllQueued(s.infos, |s.infos|, j)
  }

  lemma {:induction false} QueuedAppend(q: seq<Event>, e: Event, c: nat, j: Job)
    ensures QueuedJobs(q + [e], c, j) == QueuedJobs(q, c, j) + Jobs(e, c, j)
  {
    if q == [] {
      assert [e][1..] == [];
    } else {
      assert (q + [e])[1..] == q[1..] + [e];
      QueuedAppend(q[1..], e, c, j);
    }
  }

  lemma {:induction false} AllQueuedUpdate(infos: seq<Info>, n: nat, c: nat, i: Info, j: Job)
    requires n <= |infos| && c < |infos|
    ensures AllQueued(infos[c := i], n, j) + (if c < n then QueuedJobs(infos[c].q, c, j) else 0)
         == AllQueued(infos, n, j) + (if c < n then QueuedJobs(i.q, c, j) else 0)
  {
    if n > 0 {
      AllQueuedUpdate(infos, n - 1, c, i, j);
    }
  }

  lemma PutTotal(s: Sys, c: nat, i: Info, j: Job)
    requires Known(s, c)
    ensures Total(Put(s, c, i), j) + QueuedJobs(s.infos[c].q, c, j) == Total(s, j) + QueuedJobs(i.q, c, j)
  {
    AllQueuedUpdate(s.infos, |s.infos|, c, i, j);
  }

  lemma StartTotal(s: Sys, c: nat, id: nat, queued: bool, j: Job)
    requires Known(s, c) && Idle(s, c)
    ensures Total(Start(s, c, id, queued), j) == Total(s, j) + One(j, c, id)
  {
    PutTotal(s, c, s.infos[c].(handling := true), j);
    assert (s.log + [Ran(c, id, queued)])[..|s.log|] == s.log;
  }

  lemma PoppedTotal(s: Sys, c: nat, j: Job)
    requires Known(s, c) && s.infos[c].q != []
    ensures Total(Popped(s, c), j) + Jobs(s.infos[c].q[0], c, j) == Total(s, j)
  {
    PutTotal(s, c, s.infos[c].(q := s.infos[c].q[1..]), j);
  }

  lemma PushedTotal(s: Sys, src: Option<nat>, tgt: nat, e: Event, j: Job)
    requires Known(s, tgt) && (src.Some? ==> src.value < |s.infos|)
    ensures Total(Pushed(s, src, tgt, e), j) == Total(s, j) + Jobs(e, tgt, j)
  {
    var i := s.infos[tgt].(q := s.infos[tgt].q + [e]);
    PutTotal(s, tgt, i, j);
    QueuedAppend(s.infos[tgt].q, e, tgt, j);
    var r := Put(s, tgt, i);
    assert Total(r.(sent := s.sent[tgt := s.sent[tgt] + [e.id]]), j) == Total(r, j);
    if src.Some? {
      PutTotal(r, src.value, r.infos[src.value].(deferred := Some(tgt)), j);
    }
  }

  lemma HandleTotal(s: Sys, c: nat, e: Event, queued: bool, j: Job)
    requires Wired(s) && c < |s.infos| && Idle(s, c) && Targets(e, |s.infos|)
    ensures Total(Handle(s, c, e, queued), j) == Total(s, j) + Jobs(e, c, j)
    decreases Weight(s.infos) + Size(e), 1, 0
  {
    StartKeeps(s, c, e.id, queued);
    StartTotal(s, c, e.id, queued, j);
    var a := Start(s, c, e.id, queued);
    BodyTotal(a, c, e.posts, j);
    var b := Body(a, c, e.posts);
    StopKeeps(b, c);
    PutTotal(b, c, b.infos[c].(handling := false), j);
    hide Total, JobsAll;
    FlushTotal(Stop(b, c), c, j);
  }

  lemma BodyTotal(s: Sys, c: nat, posts: seq<Post>, j: Job)
    requires Wired(s) && c < |s.infos| && TargetsAll(posts, |s.infos|)
    ensures Total(Body(s, c, posts), j) == Total(s, j) + JobsAll(posts, j)
    decreases Weight(s.infos) + SizeAll(posts), 3, |posts|
  {
    hide Total, Jobs;
    if posts != [] {
      var p := posts[0];
      assert PostTargets(p, |s.infos|) && PostSize(p) == Size(p.event) && PostJobs(p, j) == Jobs(p.event, p.tgt, j);
      var src := Source(c, p);
      PushedTotal(s, src, p.tgt, p.event, j);
      if AtOnce(s, src, p.tgt) {
        HandleTotal(s, p.tgt, p.event, false, j);
      }
      BodyTotal(Enqueue(s, src, p.tgt, p.event), c, posts[1..], j);
    }
  }

  lemma FlushTotal(s: Sys, c: nat, j: Job)
    requires Wired(s) && c < |s.infos| && Idle(s, c)
    ensures Total(Flush(s, c), j) == Total(s, j)
    decreases Weight(s.infos), 5, Debts(s.infos)
  {
    hide Total;
    DrainTotal(s, c, j);
    var d := Drain(s, c);
    if d.infos[c].deferred.Some? {
      ClearedKeeps(d, c);
      PutTotal(d, c, d.infos[c].(deferred := None), j);
      var next := d.infos[c].deferred.value;
      FlushTotal(Cleared(d, c), if Idle(Cleared(d, c), next) then next else c, j);
    }
  }

  lemma DrainTotal(s: Sys, c: nat, j: Job)
    requires Wired(s) && c < |s.infos| && Idle(s, c)
    ensures Total(Drain(s, c), j) == Total(s, j)
    decreases Weight(s.infos), 4, 0
  {
    hide Total, Jobs;
    if s.infos[c].q != [] {
      PoppedKeeps(s, c);
      PoppedTotal(s, c, j);
      HandleTotal(Popped(s, c), c, s.infos[c].q[0], true, j);
      DrainTotal(Handle(Popped(s, c), c, s.infos[c].q[0], true), c, j);
    }
  }

  lemma {:induction false} NoneQueued(infos: seq<Info>, n: nat, j: Job)
    requires n <= |infos| && forall c :: 0 <= c < n ==> infos[c].q == []
    ensures AllQueued(infos, n, j) == 0
  {
    if n > 0 {
      NoneQueued(infos, n - 1, j);
    }
  }

  /** The outermost call runs each event of the tree once, on its target, and nothing else. */
  lemma EveryEventRunsOnce(s: Sys, c: nat, e: Event, w: Wiring, j: Job)
    requires Fitting(s, w) && AtRest(s) && c < |s.infos| && Fits(e, c, w)
    ensures Targets(e, |s.infos|)
    ensures Done(Handle(s, c, e, false).log, j) == Done(s.log, j) + Jobs(e, c, j)
  {
    RunsToCompletion(s, c, e, w);
    var t := Handle(s, c, e, false);
    HandleTotal(s, c, e, false, j);
    NoneQueued(s.infos, |s.infos|, j);
    NoneQueued(t.infos, |t.infos|, j);
  }
}
