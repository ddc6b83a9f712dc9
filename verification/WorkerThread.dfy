/**
 The executor with a single worker thread. Other threads put tasks into a public queue and wake
 the worker with a semaphore; tasks run by the worker put theirs into its private queue. The
 worker takes the whole public queue over at once and drains it.
 */
module WorkerThread {
  import opened Prelude

  /** A task, tagged with how it was enqueued. */
  datatype Task = Foreign(id: nat) | Local(id: nat)

  /** The tasks of one kind, in order. */
  function Only(s: seq<Task>, local: bool): seq<nat> {
    if s == [] then [] else Only(s[..|s| - 1], local) + if s[|s| - 1].Local? == local then [s[|s| - 1].id] else []
  }

  function Foreigns(s: seq<Task>): seq<nat> { Only(s, false) }

  function Locals(s: seq<Task>): seq<nat> { Only(s, true) }

  function AllForeign(ids: seq<nat>): seq<Task> {
    seq(|ids|, i requires 0 <= i < |ids| => Foreign(ids[i]))
  }

  function AllLocal(ids: seq<nat>): seq<Task> {
    seq(|ids|, i requires 0 <= i < |ids| => Local(ids[i]))
  }

  lemma {:induction false} OnlyConcat(a: seq<Task>, b: seq<Task>, local: bool)
    ensures Only(a + b, local) == Only(a, local) + Only(b, local)
  {
    if b == [] {
      assert a + b == a;
    } else {
      var last := |b| - 1;
      assert (a + b)[..|a| + last] == a + b[..last];
      OnlyConcat(a, b[..last], local);
    }
  }

  lemma {:induction false} OnlyTagged(ids: seq<nat>)
    ensures Only(AllForeign(ids), false) == ids && Only(AllForeign(ids), true) == []
    ensures Only(AllLocal(ids), true) == ids && Only(AllLocal(ids), false) == []
  {
    if ids != [] {
      var last := |ids| - 1;
      OnlyTagged(ids[..last]);
      assert AllForeign(ids)[..last] == AllForeign(ids[..last]);
      assert AllLocal(ids)[..last] == AllLocal(ids[..last]);
    }
  }

  // ---------------------------------------------------------------- the code

  class WorkerThreadExecutor {
    var privateQueue: seq<Task>
    var publicQueue: seq<Task>
    var abort: bool

    constructor ()
      ensures privateQueue == publicQueue == [] && !abort
    {
      privateQueue, publicQueue, abort := [], [], false;
    }

    /** The mutex region of enqueue_foreign; whoever makes the queue non-empty owes a wake-up. */
    method EnqueueForeign(ids: seq<nat>) returns (accepted: bool, release: bool)
      modifies this`publicQueue
      ensures accepted == !abort
      ensures release == (accepted && old(publicQueue) == [])
      ensures publicQueue == old(publicQueue) + if accepted then AllForeign(ids) else []
      ensures old(publicQueue) <= publicQueue && (!accepted ==> publicQueue == old(publicQueue))
      ensures accepted ==> |publicQueue| == |old(publicQueue)| + |ids|
      ensures accepted ==> forall i | 0 <= i < |ids| :: publicQueue[|old(publicQueue)| + i] == Foreign(ids[i])
    {
      if abort {
        return false, false;
      }
      release := publicQueue == [];
      publicQueue := publicQueue + AllForeign(ids);
      accepted := true;
    }

    /** The mutex region before sleeping or draining: true means the worker has something to drain. */
    method TakeOver() returns (taken: bool)
      requires privateQueue == []
      modifies this
      ensures taken == (old(publicQueue) != [] && !abort)
      ensures abort == old(abort)
      ensures taken ==> privateQueue == old(publicQueue) && publicQueue == []
      ensures !taken ==> privateQueue == [] && publicQueue == old(publicQueue)
    {
      if publicQueue == [] || abort {
        return false;
      }
      privateQueue, publicQueue := publicQueue, privateQueue;
      return true;
    }

    /**
     Drains the private queue front first. The k-th task to run enqueues `spawned[k]` locally;
     all of them run too, after everything that was there before them.
     */
    method DrainQueueImpl(spawned: seq<seq<Task>>) returns (ran: seq<Task>)
      modifies this`privateQueue
      ensures privateQueue == []
      ensures ran == old(privateQueue) + Concat(spawned[..if |ran| < |spawned| then |ran| else |spawned|])
    {
      ran := [];
      ghost var seen := 0;
      while privateQueue != []
        invariant seen == if |ran| < |spawned| then |ran| else |spawned|
        invariant ran + privateQueue == old(privateQueue) + Concat(spawned[..seen])
        decreases |spawned| - seen, |privateQueue|
      {
        var k, task := |ran|, privateQueue[0];
        assert ran + privateQueue == (ran + [task]) + privateQueue[1..];
        privateQueue := privateQueue[1..];
        ran := ran + [task];
        if k < |spawned| {
          assert ran + (privateQueue + spawned[k]) == (ran + privateQueue) + spawned[k];
          privateQueue := privateQueue + spawned[k];
          seen := k + 1;
          assert spawned[..seen][..k] == spawned[..k];
        }
      }
    }
  }

  // ---------------------------------------------------------------- the step system

  datatype Worker =
    | AtLock           // about to lock the mutex, at the top of drain_queue
    | AtSemaphore      // found nothing, about to acquire
    | Relock           // acquired, about to lock the mutex again
    | Draining
    | RunningTask
    | Exited

  datatype Shutdown = NotCalled | Flagged | Joining | Finished

  datatype State = State(
    privateQueue: seq<Task>,
    publicQueue: seq<Task>,
    abort: bool,
    tokens: nat,               // of the semaphore
    releases: nat,             // releases that enqueuers and shutdown still owe
    worker: Worker,
    shutdown: Shutdown,
    taken: seq<Task>,          // everything that was ever put into the private queue, in order
    ran: seq<Task>,            // every task started, in order
    discarded: seq<Task>,      // what shutdown found left over
    foreignLog: seq<nat>,      // every accepted foreign enqueueing, in order
    localLog: seq<nat>)

  datatype Action =
    | EnqueueForeign(ids: seq<nat>)
    | EnqueueLocal(ids: seq<nat>)   // by the running task
    | CallShutdown
    | Release
    | Work                          // the worker's next step
    | ShutdownStep

  ghost predicate Init(s: State) {
    s == State([], [], false, 0, 0, AtLock, NotCalled, [], [], [], [], [])
  }

  predicate Enabled(s: State, a: Action) {
    match a
    case EnqueueForeign(_) => true
    case EnqueueLocal(_) => s.worker.RunningTask?
    case CallShutdown => true
    case Release => s.releases > 0
    case Work => !s.worker.Exited? && (s.worker.AtSemaphore? ==> s.tokens > 0)
    case ShutdownStep => s.shutdown.Flagged? || (s.shutdown.Joining? && s.worker.Exited?)
  }

  /** The mutex region of drain_queue, entered with or without having slept. */
  function DrainRegion(s: State): State {
    if s.abort then s.(worker := Exited)
    else if s.publicQueue == [] then s.(worker := AtSemaphore)
    else s.(privateQueue := s.publicQueue, publicQueue := s.privateQueue,
            taken := s.taken + s.publicQueue, worker := Draining)
  }

  function WorkStep(s: State): State {
    match s.worker
    case AtLock => DrainRegion(s)
    case Relock => DrainRegion(s)
    case AtSemaphore => if s.tokens > 0 then s.(tokens := s.tokens - 1, worker := Relock) else s
    case Draining =>
      if s.privateQueue == [] then s.(worker := AtLock)
      else s.(privateQueue := s.privateQueue[1..], ran := s.ran + [s.privateQueue[0]], worker := RunningTask)
    case RunningTask => s.(worker := Draining)
    case Exited => s
  }

  function Next(s: State, a: Action): State
    requires Enabled(s, a)
  {
    match a
    case EnqueueForeign(ids) =>
      if s.abort then s   // throws
      else s.(publicQueue := s.publicQueue + AllForeign(ids), foreignLog := s.foreignLog + ids,
              releases := s.releases + if s.publicQueue == [] then 1 else 0)
    case EnqueueLocal(ids) =>
      s.(privateQueue := s.privateQueue + AllLocal(ids), taken := s.taken + AllLocal(ids), localLog := s.localLog + ids)
    case CallShutdown => if s.shutdown.NotCalled? then s.(shutdown := Flagged) else s
    case Release => s.(releases := s.releases - 1, tokens := s.tokens + 1)
    case Work => WorkStep(s)
    case ShutdownStep =>
      if s.shutdown.Flagged? then s.(abort := true, releases := s.releases + 1, shutdown := Joining)
      else s.(discarded := s.publicQueue + s.privateQueue, privateQueue := [], publicQueue := [], shutdown := Finished)
  }

  ghost predicate Executes(s: State, trace: seq<Action>, t: State)
    decreases |trace|
  {
    if trace == [] then s == t
    else Enabled(s, trace[0]) && Executes(Next(s, trace[0]), trace[1..], t)
  }

  ghost predicate Reachable(t: State) {
    exists s, trace :: Init(s) && Executes(s, trace, t)
  }

  // ---------------------------------------------------------------- the invariants

  /** Somebody has or will put a token there whenever the worker must not go to sleep. */
  predicate WakeUpDue(s: State) {
    s.worker.AtSemaphore? && (s.publicQueue != [] || s.abort) ==> s.tokens + s.releases > 0
  }

  predicate Phases(s: State) {
    && (!s.worker.Draining? && !s.worker.RunningTask? ==> s.privateQueue == [])
    && (s.abort <==> s.shutdown.Joining? || s.shutdown.Finished?)
    && (s.shutdown.Finished? ==> s.worker.Exited?)
    && (!s.shutdown.Finished? ==> s.discarded == [])
    && (s.worker.Exited? ==> s.abort)
  }

  /** What the worker has not taken over. */
  function Left(s: State): seq<Task> { if s.shutdown.Finished? then s.discarded else s.publicQueue }

  /** Ran, waiting in private, left in public: in this order they make up the logs. */
  predicate Orders(s: State) {
    && s.taken == s.ran + s.privateQueue
    && s.foreignLog == Foreigns(s.taken) + Foreigns(Left(s))
    && s.localLog == Locals(s.taken)
    && Locals(Left(s)) == []
  }

  ghost predicate Inv(s: State) { WakeUpDue(s) && Phases(s) && Orders(s) }

  lemma Associative<T>(x: seq<T>, y: seq<T>, z: seq<T>)
    ensures x + (y + z) == (x + y) + z
  {
  }

  lemma ForeignKeepsOrders(s: State, ids: seq<nat>)
    requires Phases(s) && Orders(s) && !s.abort
    ensures Orders(Next(s, EnqueueForeign(ids)))
  {
    OnlyTagged(ids);
    OnlyConcat(s.publicQueue, AllForeign(ids), false);
    OnlyConcat(s.publicQueue, AllForeign(ids), true);
    Associative(Foreigns(s.taken), Foreigns(s.publicQueue), ids);
  }

  lemma LocalKeepsOrders(s: State, ids: seq<nat>)
    requires Phases(s) && Orders(s) && s.worker.RunningTask?
    ensures Orders(Next(s, EnqueueLocal(ids)))
  {
    OnlyTagged(ids);
    OnlyConcat(s.taken, AllLocal(ids), false);
    OnlyConcat(s.taken, AllLocal(ids), true);
    Associative(s.ran, s.privateQueue, AllLocal(ids));
  }

  lemma TakeOverKeepsOrders(s: State)
    requires Phases(s) && Orders(s) && !s.abort && s.privateQueue == []
    ensures Orders(DrainRegion(s))
  {
    OnlyConcat(s.taken, s.publicQueue, false);
    OnlyConcat(s.taken, s.publicQueue, true);
  }

  lemma WorkKeepsOrders(s: State)
    requires Phases(s) && Orders(s) && Enabled(s, Work)
    ensures Orders(WorkStep(s))
  {
    if (s.worker.AtLock? || s.worker.Relock?) && !s.abort {
      TakeOverKeepsOrders(s);
    } else if s.worker.Draining? && s.privateQueue != [] {
      assert s.ran + s.privateQueue == (s.ran + [s.privateQueue[0]]) + s.privateQueue[1..];
    }
  }

  lemma StepKeepsInv(s: State, a: Action)
    requires Inv(s) && Enabled(s, a)
    ensures Inv(Next(s, a))
  {
    PhasesKept(s, a);
    OrdersKept(s, a);
  }

  lemma PhasesKept(s: State, a: Action)
    requires WakeUpDue(s) && Phases(s) && Enabled(s, a)
    ensures WakeUpDue(Next(s, a)) && Phases(Next(s, a))
  {
  }

  lemma OrdersKept(s: State, a: Action)
    requires Inv(s) && Enabled(s, a)
    ensures Orders(Next(s, a))
  {
    match a
    case EnqueueForeign(ids) => if !s.abort { ForeignKeepsOrders(s, ids); }
    case EnqueueLocal(ids) => LocalKeepsOrders(s, ids);
    case Work => WorkKeepsOrders(s);
    case ShutdownStep => ShutdownKeepsOrders(s);
    case _ =>
  }

  lemma ShutdownKeepsOrders(s: State)
    requires Inv(s) && Enabled(s, ShutdownStep)
    ensures Orders(Next(s, ShutdownStep))
  {
    if s.shutdown.Joining? { assert s.publicQueue + s.privateQueue == s.publicQueue; }
  }

  lemma {:induction false} RunKeepsInv(s: State, trace: seq<Action>, t: State)
    requires Inv(s) && Executes(s, trace, t)
    ensures Inv(t)
    decreases |trace|
  {
    if trace != [] {
      StepKeepsInv(s, trace[0]);
      RunKeepsInv(Next(s, trace[0]), trace[1..], t);
    }
  }

  lemma ReachableInv(t: State)
    requires Reachable(t)
    ensures Inv(t)
  {
    var s, trace :| Init(s) && Executes(s, trace, t);
    RunKeepsInv(s, trace, t);
  }

  // ---------------------------------------------------------------- what every run guarantees

  /** What the accepted enqueueings of a run were given, in order: the foreign ones, or the local ones. */
  ghost function Given(s: State, trace: seq<Action>, local: bool): seq<nat>
    decreases |trace|
  {
    if trace == [] || !Enabled(s, trace[0]) then []
    else
      var a := trace[0];
      (if (local && a.EnqueueLocal?) || (!local && a.EnqueueForeign? && !s.abort) then a.ids else [])
      + Given(Next(s, a), trace[1..], local)
  }

  lemma {:induction false} RunGives(s: State, trace: seq<Action>, t: State)
    requires Executes(s, trace, t)
    ensures t.foreignLog == s.foreignLog + Given(s, trace, false)
    ensures t.localLog == s.localLog + Given(s, trace, true)
    decreases |trace|
  {
    if trace != [] {
      var u := Next(s, trace[0]);
      RunGives(u, trace[1..], t);
      Associative(s.foreignLog, u.foreignLog[|s.foreignLog|..], Given(u, trace[1..], false));
      Associative(s.localLog, u.localLog[|s.localLog|..], Given(u, trace[1..], true));
      StepGives(s, trace[0]);
    }
  }

  lemma StepGives(s: State, a: Action)
    requires Enabled(s, a)
    ensures Next(s, a).foreignLog == s.foreignLog + if a.EnqueueForeign? && !s.abort then a.ids else []
    ensures Next(s, a).localLog == s.localLog + if a.EnqueueLocal? then a.ids else []
  {
  }

  /**
   In every run foreign tasks run in the order in which the run enqueues them, and so do local ones;
   nothing runs twice or from nowhere.
   */
  lemma RunsInEnqueueOrder(s: State, trace: seq<Action>, t: State)
    requires Init(s) && Executes(s, trace, t)
    ensures Foreigns(t.ran) <= t.foreignLog == Given(s, trace, false)
    ensures Locals(t.ran) <= t.localLog == Given(s, trace, true)
  {
    RunKeepsInv(s, trace, t);
    RunGives(s, trace, t);
    OnlyConcat(t.ran, t.privateQueue, false);
    OnlyConcat(t.ran, t.privateQueue, true);
  }

  /** The worker never sleeps through a task or a shutdown request. */
  lemma NoLostWakeup(t: State)
    requires Reachable(t) && t.worker.AtSemaphore? && (t.publicQueue != [] || t.abort)
    ensures Enabled(t, Work) || Enabled(t, Release)
  {
    ReachableInv(t);
  }

  /** What the worker has taken over it runs, shutdown or not: only tasks still in the public queue are discarded. */
  lemma TakenOverTasksRun(t: State)
    requires Reachable(t) && t.worker.Exited?
    ensures t.privateQueue == [] && t.localLog == Locals(t.ran)
    ensures t.foreignLog == Foreigns(t.ran) + Foreigns(if t.shutdown.Finished? then t.discarded else t.publicQueue)
  {
    ReachableInv(t);
    assert t.taken == t.ran;
  }

  // ---------------------------------------------------------------- termination

  predicate IsCall(a: Action) { a.EnqueueForeign? || a.EnqueueLocal? || a.CallShutdown? }

  ghost function WorkLeft(s: State): nat {
    6 * |s.publicQueue| + 3 * |s.privateQueue| + 2 * s.tokens + 3 * s.releases
    + (match s.worker
       case AtLock => 1 case AtSemaphore => 0 case Relock => 1
       case Draining => 2 case RunningTask => 4 case Exited => 0)
    + (match s.shutdown case NotCalled => 10 case Flagged => 10 case Joining => 5 case Finished => 0)
  }

  lemma StepDecreases(s: State, a: Action)
    requires Phases(s) && Enabled(s, a) && !IsCall(a)
    ensures WorkLeft(Next(s, a)) < WorkLeft(s)
  {
  }

  lemma {:induction false} RunsAreFinite(s: State, trace: seq<Action>, t: State)
    requires Inv(s) && Executes(s, trace, t) && forall a | a in trace :: !IsCall(a)
    ensures |trace| + WorkLeft(t) <= WorkLeft(s)
    decreases |trace|
  {
    if trace != [] {
      StepKeepsInv(s, trace[0]);
      StepDecreases(s, trace[0]);
      RunsAreFinite(Next(s, trace[0]), trace[1..], t);
    }
  }

  /** Without further calls a run stops only when every task has run, or shutdown is complete. */
  lemma StopsOnlyWhenDrained(t: State)
    requires Reachable(t)
    requires forall a | Enabled(t, a) :: IsCall(a)
    ensures t.shutdown.NotCalled? || t.shutdown.Finished?
    ensures t.shutdown.NotCalled? ==> Foreigns(t.ran) == t.foreignLog && Locals(t.ran) == t.localLog
  {
    ReachableInv(t);
    assert !Enabled(t, Work) && !Enabled(t, Release) && !Enabled(t, ShutdownStep);
    assert t.taken == t.ran;
  }
}
