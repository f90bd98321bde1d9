/** The thread pool comes to rest: no run goes on for ever on its own. */
module PoolRank {
  import opened PoolModel
  import opened PoolProofs
  import opened PoolFutures
  import opened PoolTheorems
  import opened Wrappers

  /** An upper bound on the steps that a caller still makes, and causes. */
  function CallRank(c: Call): nat {
    match c
    case WantPool(_) => 9
    case HasPool(_) => 8
    case WantTask(_, _, _) => 5
    case HasTask(_, _, _) => 4
    case Popping(_, _, _) => 1
    case Out | Aborted => 0
  }

  /** The same for a worker. */
  function WorkerRank(pc: Pc): nat {
    match pc
    case Starting => 2
    case Holding => 1
    case Waiting(woken) => if woken then 2 else 0
    case Running(_, call) => CallRank(call)
    case Relocking(_) => 5
    case Returning(_) => 4
    case Pushing(_) => 3
    case Setting(_) => 2
  }

  function Calls(clients: seq<Call>): nat {
    if clients == [] then 0 else CallRank(clients[0]) + Calls(clients[1..])
  }

  function Workers(tasks: seq<Task>): nat {
    if tasks == [] then 0 else WorkerRank(tasks[0].pc) + Workers(tasks[1..])
  }

  function Rank(s: Pool): nat {
    Calls(s.clients) + Workers(s.tasks)
  }

  lemma {:induction false} CallsUpdate(clients: seq<Call>, i: nat, c: Call)
    requires i < |clients|
    ensures Calls(clients[i := c]) + CallRank(clients[i]) == Calls(clients) + CallRank(c)
  {
    if i == 0 {
      assert clients[0 := c][1..] == clients[1..];
    } else {
      assert clients[i := c][1..] == clients[1..][i - 1 := c];
      CallsUpdate(clients[1..], i - 1, c);
    }
  }

  lemma {:induction false} WorkersUpdate(tasks: seq<Task>, k: nat, t: Task)
    requires k < |tasks|
    ensures Workers(tasks[k := t]) + WorkerRank(tasks[k].pc) == Workers(tasks) + WorkerRank(t.pc)
  {
    if k == 0 {
      assert tasks[0 := t][1..] == tasks[1..];
    } else {
      assert tasks[k := t][1..] == tasks[1..][k - 1 := t];
      WorkersUpdate(tasks[1..], k - 1, t);
    }
  }

  lemma {:induction false} WorkersAppend(tasks: seq<Task>, t: Task)
    ensures Workers(tasks + [t]) == Workers(tasks) + WorkerRank(t.pc)
  {
    if tasks == [] {
      assert [t][1..] == [];
    } else {
      assert (tasks + [t])[1..] == tasks[1..] + [t];
      WorkersAppend(tasks[1..], t);
    }
  }

  lemma SetCallRank(s: Pool, w: Who, call: Call)
    requires InUserCode(s, w) || Calling(s, w)
    ensures Rank(SetCall(s, w, call)) + CallRank(CallOf(s, w)) == Rank(s) + CallRank(call)
  {
    match w
    case Client(i) => CallsUpdate(s.clients, i, call);
    case Worker(k) => WorkersUpdate(s.tasks, k, s.tasks[k].(pc := Running(s.tasks[k].pc.job, call)));
  }

  lemma SetTaskRank(s: Pool, k: nat, t: Task)
    requires k < |s.tasks|
    ensures Rank(SetTask(s, k, t)) + WorkerRank(s.tasks[k].pc) == Rank(s) + WorkerRank(t.pc)
  {
    WorkersUpdate(s.tasks, k, t);
  }

  lemma WorkRank(s: Pool, k: nat)
    requires k < |s.tasks| && CanWork(s, k)
    ensures Rank(AfterWork(s, k)) < Rank(s)
  {
    var t := AfterWork(s, k).tasks[k];
    SetTaskRank(s, k, t);
    assert AfterWork(s, k).tasks == SetTask(s, k, t).tasks;
  }

  /** A call of `async` ends after finitely many steps of its own. */
  lemma CallGoRank(s: Pool, w: Who)
    requires Inv(s) && Calling(s, w) && CanCall(s, w)
    ensures Rank(AfterCall(s, w)) < Rank(s)
  {
    hide Locks, Queue, NoneAborted, Futures, NoneLost, Calls, Workers;
    match CallOf(s, w)
    case HasPool(j) =>
      if s.idle == [] {
        var r := SetCall(s, w, WantTask(j, |s.tasks|, true));
        SetCallRank(s, w, WantTask(j, |s.tasks|, true));
        WorkersAppend(r.tasks, NEW);
      } else {
        SetCallRank(s, w, WantTask(j, s.idle[0], false));
      }
    case WantTask(j, k, isNew) =>
      var u := SetTask(s, k, s.tasks[k].(owner := Some(w)));
      SetTaskRank(s, k, s.tasks[k].(owner := Some(w)));
      SetCallRank(u, w, HasTask(j, k, isNew));
    case HasTask(j, k, isNew) => AssignRank(s, w);
    case WantPool(j) => SetCallRank(s, w, HasPool(j));
    case Popping(_, _, _) => SetCallRank(s, w, Out);
    case _ =>
  }

  lemma AssignRank(s: Pool, w: Who)
    requires Locks(s) && Queue(s) && Calling(s, w) && CanCall(s, w) && CallOf(s, w).HasTask?
    ensures Rank(AfterCall(s, w)) < Rank(s)
  {
    hide Locks, Queue;
    ChosenAtRest(s, w);
    var c := CallOf(s, w);
    var t := Assigned(s.tasks[c.k], c.job, |s.made|);
    var u := SetTask(s, c.k, t);
    SetTaskRank(s, c.k, t);
    assert CallOf(u, w) == c;
    SetCallRank(u, w, Popping(c.job, c.k, c.isNew));
  }

  /** A step on its own takes one off the rank at least; a call adds nine, an end of work five, and
      a wait that ends without a reason two. */
  function Adds(step: Step): nat {
    match step
    case Ask(_) => 9
    case End(_) => 5
    case Go(_) => 0
    case Spurious(_) => 2
  }

  lemma StepRank(s: Pool, step: Step)
    requires Inv(s) && Enabled(s, step)
    ensures Rank(After(s, step)) + (if step.Go? then 1 else 0) <= Rank(s) + Adds(step)
  {
    match step
    case Ask(w) => SetCallRank(s, w, WantPool(s.issued));
    case End(k) => SetTaskRank(s, k, s.tasks[k].(pc := Relocking(s.tasks[k].pc.job)));
    case Spurious(k) => SetTaskRank(s, k, s.tasks[k].(pc := Waiting(true)));
    case Go(w) =>
      if Calling(s, w) {
        CallGoRank(s, w);
      } else {
        WorkRank(s, w.k);
      }
  }

  function Gos(steps: seq<Step>): nat {
    if steps == [] then 0 else (if steps[0].Go? then 1 else 0) + Gos(steps[1..])
  }

  function Added(steps: seq<Step>): nat {
    if steps == [] then 0 else Adds(steps[0]) + Added(steps[1..])
  }

  lemma {:induction false} RunRank(s: Pool, steps: seq<Step>, r: Pool)
    requires Inv(s) && Runs(s, steps, r)
    ensures Rank(r) + Gos(steps) <= Rank(s) + Added(steps)
    decreases |steps|
  {
    hide Inv, Enabled, After, Rank;
    if steps != [] {
      StepKeeps(s, steps[0]);
      StepRank(s, steps[0]);
      RunRank(After(s, steps[0]), steps[1..], r);
    }
  }

  /** In every run the threads of the pool make at most nine steps on their own for each call of
      `async`, five for each end of work, and two for each wait that ends without a reason. */
  lemma RunsAreBounded(n: nat, steps: seq<Step>, s: Pool)
    requires Runs(Start(n), steps, s)
    ensures Gos(steps) <= Added(steps)
  {
    StartInv(n);
    RunRank(Start(n), steps, s);
    NoCalls(n);
  }

  lemma {:induction false} NoCalls(n: nat)
    ensures Calls(seq(n, _ => Out)) == 0
  {
    var clients := seq(n, _ => Out);
    if n > 0 {
      assert clients[1..] == seq(n - 1, _ => Out);
      NoCalls(n - 1);
    }
  }

  /** Once nothing is left to do, every piece of work that was brought is running on a task, or is
      done and its future is ready. */
  lemma WorkTaken(n: nat, steps: seq<Step>, s: Pool, j: nat)
    requires Runs(Start(n), steps, s) && Quiet(s) && j < s.issued
    ensures
      || (exists k: nat :: k < |s.tasks| && s.tasks[k].pc == Running(j, Out))
      || (j in s.done && exists p: nat :: p < |s.made| && s.made[p] == j && p in s.kept)
  {
    QuietExactly(n, steps, s);
    WorkAccounted(n, steps, s, j);
    assert forall w :: Exists(s, w) ==> !Brings(CallOf(s, w));
    if HasWork(s, j) {
      var k: nat :| k < |s.tasks| && InHand(s.tasks[k]) == Some(j);
      assert AtRest(s, Worker(k));
      assert s.tasks[k].pc == Running(j, Out);
    }
  }
}
