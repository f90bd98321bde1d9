/** The thread pool of runtime/c++/thread-pool.cc as an interleaving of steps, one for each time a
    thread takes or gives up a mutex.  `async` locks the pool and then a task; a worker locks its
    task and then the pool. */
module PoolModel {
  import opened Wrappers

  /** Who calls `async`: a thread from outside, or the worker of a task, from its work. */
  datatype Who = Client(i: nat) | Worker(k: nat)

  /** Where a thread is in `async`, with the work it brought. */
  datatype Call =
    | Out
    | WantPool(job: nat)
    | HasPool(job: nat)
    | WantTask(job: nat, k: nat, isNew: bool)   // holds the pool
    | HasTask(job: nat, k: nat, isNew: bool)    // holds the pool and the task
    | Popping(job: nat, k: nat, isNew: bool)    // holds the pool; `assign` is over
    | Aborted                                   // the assertion in `assign` failed

  /** Where the worker of a task is. */
  datatype Pc =
    | Starting
    | Holding                                   // holds its task, about to test its work
    | Waiting(woken: bool)
    | Running(job: nat, call: Call)
    | Relocking(job: nat)                       // the work is done
    | Returning(job: nat)                       // holds its task, about to lock the pool
    | Pushing(job: nat)                         // holds both
    | Setting(job: nat)                         // holds its task, about to set the promise

  datatype Task = Task(owner: Option<Who>, work: Option<nat>, promise: Option<nat>, pc: Pc)

  /** The pool and its callers.  The rest is history: how many pieces of work were brought, which
      promise was made for which of them, which were done, and which promises were set. */
  datatype Pool = Pool(owner: Option<Who>, idle: seq<nat>, tasks: seq<Task>, clients: seq<Call>,
                       issued: nat, made: seq<nat>, done: seq<nat>, kept: seq<nat>)

  const NEW := Task(None, None, None, Starting)

  function Start(clients: nat): Pool {
    Pool(None, [], [], seq(clients, _ => Out), 0, [], [], [])
  }

  /** A thread calls `async`, the work of a task ends, a thread goes on by itself, or a wait ends
      without a reason. */
  datatype Step = Ask(w: Who) | End(k: nat) | Go(w: Who) | Spurious(k: nat)

  predicate Exists(s: Pool, w: Who) {
    match w
    case Client(i) => i < |s.clients|
    case Worker(k) => k < |s.tasks|
  }

  function CallOf(s: Pool, w: Who): Call {
    match w
    case Client(i) => if i < |s.clients| then s.clients[i] else Out
    case Worker(k) => if k < |s.tasks| && s.tasks[k].pc.Running? then s.tasks[k].pc.call else Out
  }

  /** The thread is in user code: outside for a client, in its work for a worker. */
  predicate InUserCode(s: Pool, w: Who) {
    Exists(s, w) && CallOf(s, w) == Out && (w.Worker? ==> s.tasks[w.k].pc.Running?)
  }

  predicate Calling(s: Pool, w: Who) {
    Exists(s, w) && CallOf(s, w) != Out
  }

  function SetCall(s: Pool, w: Who, call: Call): Pool
    requires InUserCode(s, w) || Calling(s, w)
  {
    match w
    case Client(i) => s.(clients := s.clients[i := call])
    case Worker(k) => s.(tasks := s.tasks[k := s.tasks[k].(pc := Running(s.tasks[k].pc.job, call))])
  }

  function SetTask(s: Pool, k: nat, t: Task): Pool
    requires k < |s.tasks|
  {
    s.(tasks := s.tasks[k := t])
  }

  // async

  predicate CanCall(s: Pool, w: Who)
    requires Calling(s, w)
  {
    match CallOf(s, w)
    case Out => false
    case WantPool(_) => s.owner == None
    case HasPool(_) => true
    case WantTask(_, k, _) => k < |s.tasks| && s.tasks[k].owner == None
    case HasTask(_, k, _) => k < |s.tasks|
    case Popping(_, _, isNew) => isNew || s.idle != []
    case Aborted => false
  }

  /** `assign`, once the task is locked. */
  function Assigned(t: Task, job: nat, promise: nat): Task {
    Task(None, Some(job), Some(promise), if t.pc == Waiting(false) then Waiting(true) else t.pc)
  }

  function AfterCall(s: Pool, w: Who): Pool
    requires Calling(s, w) && CanCall(s, w)
  {
    match CallOf(s, w)
    case WantPool(j) => SetCall(s, w, HasPool(j)).(owner := Some(w))
    case HasPool(j) =>
      if s.idle == [] then
        var r := SetCall(s, w, WantTask(j, |s.tasks|, true));
        r.(tasks := r.tasks + [NEW])
      else SetCall(s, w, WantTask(j, s.idle[0], false))
    case WantTask(j, k, isNew) =>
      SetCall(SetTask(s, k, s.tasks[k].(owner := Some(w))), w, HasTask(j, k, isNew))
    case HasTask(j, k, isNew) =>
      if s.tasks[k].work.Some? then SetCall(s, w, Aborted)
      else
        SetCall(SetTask(s, k, Assigned(s.tasks[k], j, |s.made|)), w, Popping(j, k, isNew))
        .(made := s.made + [j])
    case Popping(_, _, isNew) =>
      SetCall(s, w, Out).(owner := None, idle := if isNew then s.idle else s.idle[1..])
    case _ => s
  }

  // worker

  predicate CanWork(s: Pool, k: nat)
    requires k < |s.tasks|
  {
    match s.tasks[k].pc
    case Starting => s.tasks[k].owner == None
    case Holding => true
    case Waiting(woken) => woken && s.tasks[k].owner == None
    case Running(_, _) => false
    case Relocking(_) => s.tasks[k].owner == None
    case Returning(_) => s.owner == None
    case Pushing(_) => true
    case Setting(_) => s.tasks[k].promise.Some?
  }

  function AfterWork(s: Pool, k: nat): Pool
    requires k < |s.tasks| && CanWork(s, k)
  {
    var t, me := s.tasks[k], Some(Worker(k));
    match t.pc
    case Starting => SetTask(s, k, t.(owner := me, pc := Holding))
    case Holding =>
      SetTask(s, k, if t.work.Some? then t.(owner := None, work := None, pc := Running(t.work.value, Out))
                    else t.(owner := None, pc := Waiting(false)))
    case Waiting(_) => SetTask(s, k, t.(owner := me, pc := Holding))
    case Running(_, _) => s
    case Relocking(j) => SetTask(s, k, t.(owner := me, pc := Returning(j)))
    case Returning(j) => SetTask(s, k, t.(pc := Pushing(j))).(owner := me)
    case Pushing(j) => SetTask(s, k, t.(pc := Setting(j))).(owner := None, idle := s.idle + [k])
    case Setting(_) => SetTask(s, k, t.(pc := Holding)).(kept := s.kept + [t.promise.value])
  }

  // steps

  predicate CanGo(s: Pool, w: Who) {
    Exists(s, w) &&
    if Calling(s, w) then CanCall(s, w) else w.Worker? && CanWork(s, w.k)
  }

  predicate Enabled(s: Pool, step: Step) {
    match step
    case Ask(w) => InUserCode(s, w)
    case End(k) => k < |s.tasks| && s.tasks[k].pc.Running? && s.tasks[k].pc.call == Out
    case Go(w) => CanGo(s, w)
    case Spurious(k) => k < |s.tasks| && s.tasks[k].pc == Waiting(false)
  }

  function After(s: Pool, step: Step): Pool
    requires Enabled(s, step)
  {
    match step
    case Ask(w) => SetCall(s, w, WantPool(s.issued)).(issued := s.issued + 1)
    case End(k) =>
      var j := s.tasks[k].pc.job;
      SetTask(s, k, s.tasks[k].(pc := Relocking(j))).(done := s.done + [j])
    case Go(w) => if Calling(s, w) then AfterCall(s, w) else AfterWork(s, w.k)
    case Spurious(k) => SetTask(s, k, s.tasks[k].(pc := Waiting(true)))
  }

  /** The call of the thread that holds the pool. */
  function HolderCall(s: Pool): Call {
    if s.owner.Some? then CallOf(s, s.owner.value) else Out
  }

  /** The task was made by the caller that holds the pool, and waits for its first work. */
  predicate Expected(s: Pool, k: nat) {
    match HolderCall(s)
    case WantTask(_, x, isNew) => x == k && isNew
    case HasTask(_, x, isNew) => x == k && isNew
    case _ => false
  }

  /** The task has a piece of work: expected, assigned, running, or not yet returned to the pool. */
  predicate Busy(s: Pool, k: nat) {
    k < |s.tasks| &&
    match s.tasks[k].pc
    case Starting | Holding | Waiting(_) => s.tasks[k].work.Some? || Expected(s, k)
    case Running(_, _) | Relocking(_) | Returning(_) | Pushing(_) => true
    case Setting(_) => false
  }

  ghost predicate Runs(s: Pool, steps: seq<Step>, r: Pool)
    decreases |steps|
  {
    if steps == [] then s == r
    else Enabled(s, steps[0]) && Runs(After(s, steps[0]), steps[1..], r)
  }
}
