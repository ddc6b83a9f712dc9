/**
 The thread pool, before shutdown. Every worker has a public queue guarded by a mutex, a private
 queue that only its thread touches, and a thread that retires when it has been idle for too long
 and is replaced by the next enqueueing. Busy threads claim workers that are marked idle and donate
 parts of their private queues to them. Every mutex region, every release of a semaphore, every
 exchange of an idle mark and every step of a worker thread is one step of the system; which of the
 marked workers a thread tries, and where a task is enqueued, is left open.
 */
module ThreadPool {
  import opened Prelude
  import opened WorkSplit

  type Task = nat

  datatype Worker = Worker(
    publicQueue: seq<Task>,
    privateQueue: seq<Task>,
    idle: bool,                // m_idle: no thread is in charge
    thread: Option<nat>,       // m_thread: the thread started last, a position in `threads`
    tokens: nat,               // of the semaphore
    releases: nat,             // enqueuers that have unlocked the mutex and have still to release the semaphore
    found: bool,               // m_task_found_or_abort
    marked: bool,              // its flag in the set of idle workers
    claims: nat,               // enqueuers that have taken the mark and have still to enqueue
    stranded: bool)            // history: the last thread retired although the public queue was not empty

  const INITIAL_WORKER := Worker([], [], true, None, 0, 0, false, true, 0, false)

  /** A range of tasks still to be donated. */
  datatype Donation = Donation(target: nat, size: nat)

  datatype Phase =
    | AtLock                   // top of drain_queue
    | Marking                  // in wait_for_task: has found nothing and unlocked the mutex
    | Sleeping
    | Acquired                 // has acquired the semaphore
    | Relocking                // has seen the flag
    | TimedOut
    | Balancing(claimed: seq<nat>) // top of the loop of drain_queue_impl, and the workers claimed so far
    | Donating(plan: seq<Donation>)
    | Taking
    | Running(task: Task)
    | Retired

  datatype Thread = Thread(worker: nat, phase: Phase)

  datatype State = State(
    workers: seq<Worker>,
    threads: seq<Thread>,      // every thread ever started
    finished: seq<Task>,
    next: nat,                 // tasks are numbered as they are enqueued
    fault: bool)

  datatype Action =
    | Enqueue(w: nat, count: nat)        // enqueue_foreign to the next worker in turn
    | ClaimFor(w: nat)                   // find_idle_worker, by an enqueuer
    | EnqueueClaimed(w: nat, count: nat) // enqueue_foreign to the worker claimed
    | Release(w: nat)                    // of the semaphore, by an enqueuer
    | EnqueueLocal(t: nat, count: nat)   // by whatever thread t runs
    | Step(t: nat)
    | Timeout(t: nat)
    | Claim(t: nat, w: nat)              // in find_idle_workers
    | Balance(t: nat)                    // balance_work, once the workers have been claimed

  ghost predicate Init(s: State) {
    && s.threads == [] && s.finished == [] && s.next == 0 && !s.fault
    && forall w | 0 <= w < |s.workers| :: s.workers[w] == INITIAL_WORKER
  }

  ghost predicate Enabled(s: State, a: Action) {
    match a
    case Enqueue(w, count) => w < |s.workers| && count > 0
    case ClaimFor(w) => w < |s.workers| && s.workers[w].marked
    case EnqueueClaimed(w, count) => w < |s.workers| && s.workers[w].claims > 0 && count > 0
    case Release(w) => w < |s.workers| && s.workers[w].releases > 0
    case EnqueueLocal(t, _) => t < |s.threads| && s.threads[t].worker < |s.workers| && s.threads[t].phase.Running?
    case Timeout(t) => t < |s.threads| && s.threads[t].worker < |s.workers| && s.threads[t].phase.Sleeping?
    case Claim(t, w) =>
      && t < |s.threads| && s.threads[t].worker < |s.workers| && s.threads[t].phase.Balancing?
      && w < |s.workers| && s.workers[w].marked && w != s.threads[t].worker && w !in s.threads[t].phase.claimed
      && |s.threads[t].phase.claimed| + 1 < |s.workers[s.threads[t].worker].privateQueue|
    case Balance(t) =>
      && t < |s.threads| && s.threads[t].worker < |s.workers| && s.threads[t].phase.Balancing?
      && s.workers[s.threads[t].worker].privateQueue != []
    case Step(t) =>
      && t < |s.threads| && s.threads[t].worker < |s.workers|
      && match s.threads[t].phase
         case Sleeping => s.workers[s.threads[t].worker].tokens > 0
         case Balancing(_) => s.workers[s.threads[t].worker].privateQueue == []
         case Donating(plan) => plan != [] ==> plan[0].target < |s.workers|
         case Retired => false
         case _ => true
  }

  // ---------------------------------------------------------------- enqueueing

  function Fresh(next: nat, count: nat): (r: seq<Task>)
    ensures |r| == count
  {
    seq(count, i => next + i)
  }

  /** Joining the previous thread of a worker does not block: there is none, or it has retired. */
  predicate CanBeJoined(s: State, thread: Option<nat>) {
    thread.Some? ==> thread.value < |s.threads| && s.threads[thread.value].phase.Retired?
  }

  /** enqueue_foreign on one worker: append, then put thread `t` in charge, or owe a release to the one that is. */
  function Accept(x: Worker, tasks: seq<Task>, t: nat): Worker {
    var y := x.(publicQueue := x.publicQueue + tasks, found := true);
    if x.idle then y.(idle := false, thread := Some(t), stranded := false)
    else if x.publicQueue == [] then y.(releases := x.releases + 1)
    else y
  }

  function EnqueueAt(s: State, w: nat, tasks: seq<Task>): State
    requires w < |s.workers|
  {
    var x := s.workers[w];
    var s' := s.(workers := s.workers[w := Accept(x, tasks, |s.threads|)]);
    if x.idle then s'.(threads := s.threads + [Thread(w, AtLock)], fault := s.fault || !CanBeJoined(s, x.thread))
    else s'
  }

  /** What balance_work gives to each claimed worker, by division with remainder. */
  function Plan(targets: seq<nat>, n: nat): (plan: seq<Donation>)
    ensures |plan| == |targets|
  {
    var q, extra := n / (|targets| + 1), n % (|targets| + 1);
    seq(|targets|, i requires 0 <= i < |targets| => Donation(targets[i], q + if i < extra then 1 else 0))
  }

  // ---------------------------------------------------------------- thread steps

  function SetPhase(s: State, t: nat, p: Phase): State
    requires t < |s.threads|
  {
    s.(threads := s.threads[t := s.threads[t].(phase := p)])
  }

  function SetWorker(s: State, w: nat, x: Worker): State
    requires w < |s.workers|
  {
    s.(workers := s.workers[w := x])
  }

  /** A thread that has been waiting takes its own idle mark away. */
  function Swapped(x: Worker, keepMark: bool): Worker {
    x.(publicQueue := x.privateQueue, privateQueue := x.publicQueue, found := false, marked := keepMark && x.marked)
  }

  /** drain_queue with the mutex locked and something to do: swap the queues. */
  function TakeOver(s: State, t: nat): State
    requires t < |s.threads| && s.threads[t].worker < |s.workers|
  {
    var w := s.threads[t].worker;
    var x := s.workers[w];
    SetPhase(SetWorker(s, w, Swapped(x, !s.threads[t].phase.Relocking?)), t, Balancing([]))
      .(fault := s.fault || x.privateQueue != [])
  }

  function Donate(s: State, t: nat, plan: seq<Donation>): State
    requires t < |s.threads| && s.threads[t].worker < |s.workers| && plan != [] && plan[0].target < |s.workers|
  {
    var w := s.threads[t].worker;
    var x := s.workers[w];
    var d := plan[0];
    if d.size > |x.privateQueue| then s.(fault := true)
    else
      EnqueueAt(SetPhase(SetWorker(s, w, x.(privateQueue := x.privateQueue[d.size..])), t, Donating(plan[1..])),
                d.target, x.privateQueue[..d.size])
  }

  /** The back of the private queue is run next. */
  function TakeTask(s: State, t: nat): State
    requires t < |s.threads| && s.threads[t].worker < |s.workers|
  {
    var w := s.threads[t].worker;
    var x := s.workers[w];
    if x.privateQueue == [] then s.(fault := true)
    else
      var last := |x.privateQueue| - 1;
      SetPhase(SetWorker(s, w, x.(privateQueue := x.privateQueue[..last])), t, Running(x.privateQueue[last]))
  }

  function ThreadStep(s: State, t: nat): State
    requires Enabled(s, Step(t))
  {
    var w := s.threads[t].worker;
    var x := s.workers[w];
    match s.threads[t].phase
    case AtLock => if x.publicQueue == [] then SetPhase(s, t, Marking) else TakeOver(s, t)
    case Marking => SetPhase(SetWorker(s, w, x.(marked := true)), t, Sleeping)
    case Sleeping => SetPhase(SetWorker(s, w, x.(tokens := x.tokens - 1)), t, Acquired)
    case Acquired => SetPhase(s, t, if x.found then Relocking else Sleeping)
    case Relocking => if x.publicQueue == [] then SetPhase(s, t, Sleeping) else TakeOver(s, t)
    case TimedOut => SetPhase(SetWorker(s, w, x.(idle := true, stranded := x.publicQueue != [])), t, Retired)
    case Balancing(_) => SetPhase(s, t, AtLock)
    case Donating(plan) => if plan == [] then SetPhase(s, t, Taking) else Donate(s, t, plan)
    case Taking => TakeTask(s, t)
    case Running(task) => SetPhase(s, t, Balancing([])).(finished := s.finished + [task])
    case Retired => s
  }

  /** The idle mark is taken away by somebody who is going to enqueue; an enqueuer is counted. */
  function ClaimedBy(x: Worker, enqueuers: nat): Worker { x.(marked := false, claims := x.claims + enqueuers) }

  function Released(x: Worker): Worker
    requires x.releases > 0
  {
    x.(tokens := x.tokens + 1, releases := x.releases - 1)
  }

  ghost function Next(s: State, a: Action): State
    requires Enabled(s, a)
  {
    match a
    case Enqueue(w, count) => EnqueueAt(s, w, Fresh(s.next, count)).(next := s.next + count)
    case ClaimFor(w) => SetWorker(s, w, ClaimedBy(s.workers[w], 1))
    case EnqueueClaimed(w, count) =>
      EnqueueAt(SetWorker(s, w, s.workers[w].(claims := s.workers[w].claims - 1)), w, Fresh(s.next, count))
        .(next := s.next + count)
    case Release(w) => SetWorker(s, w, Released(s.workers[w]))
    case EnqueueLocal(t, count) =>
      var w := s.threads[t].worker;
      var x := s.workers[w];
      SetWorker(s, w, x.(privateQueue := x.privateQueue + Fresh(s.next, count))).(next := s.next + count)
    case Timeout(t) => SetPhase(s, t, TimedOut)
    case Claim(t, w) =>
      SetPhase(SetWorker(s, w, ClaimedBy(s.workers[w], 0)), t, Balancing(s.threads[t].phase.claimed + [w]))
    case Balance(t) =>
      SetPhase(s, t, Donating(Plan(s.threads[t].phase.claimed, |s.workers[s.threads[t].worker].privateQueue|)))
    case Step(t) => ThreadStep(s, t)
  }

  ghost predicate Executes(s: State, trace: seq<Action>, t: State)
    decreases |trace|
  {
    if trace == [] then s == t
    else Enabled(s, trace[0]) && Executes(Next(s, trace[0]), trace[1..], t)
  }

  ghost predicate Reachable(t: State) {
    exists s, trace :: Init(s) && Executes(s, trace, t)
  }

  // ---------------------------------------------------------------- conservation

  /** How often a task is in the queues of a worker, and in the hands of a thread. */
  ghost function InQueues(x: Task): Worker -> int {
    (w: Worker) => multiset(w.publicQueue)[x] + multiset(w.privateQueue)[x]
  }

  ghost function InHands(x: Task): Thread -> int {
    (t: Thread) => if t.phase == Running(x) then 1 else 0
  }

  ghost function Count(s: State, x: Task): int {
    Sum(s.workers, InQueues(x)) + Sum(s.threads, InHands(x)) + multiset(s.finished)[x]
  }

  ghost predicate Conserved(s: State) {
    forall x: Task :: Count(s, x) == if x < s.next then 1 else 0
  }

  lemma {:induction false} FreshOnce(next: nat, count: nat, x: Task)
    ensures multiset(Fresh(next, count))[x] == if next <= x < next + count then 1 else 0
  {
    if count > 0 {
      FreshOnce(next, count - 1, x);
      assert Fresh(next, count) == Fresh(next, count - 1) + [next + count - 1];
    }
  }

  lemma SetPhaseCount(s: State, t: nat, p: Phase, x: Task)
    requires t < |s.threads|
    ensures Count(SetPhase(s, t, p), x)
         == Count(s, x) - InHands(x)(s.threads[t]) + if p == Running(x) then 1 else 0
  {
    SumUpdate(s.threads, t, s.threads[t].(phase := p), InHands(x));
  }

  lemma SetWorkerCount(s: State, w: nat, y: Worker, x: Task)
    requires w < |s.workers|
    ensures Count(SetWorker(s, w, y), x) == Count(s, x) - InQueues(x)(s.workers[w]) + InQueues(x)(y)
  {
    SumUpdate(s.workers, w, y, InQueues(x));
  }

  lemma AcceptCount(y: Worker, tasks: seq<Task>, newThread: nat, x: Task)
    ensures InQueues(x)(Accept(y, tasks, newThread)) == InQueues(x)(y) + multiset(tasks)[x]
  {
    assert multiset(y.publicQueue + tasks)[x] == multiset(y.publicQueue)[x] + multiset(tasks)[x];
  }

  lemma EnqueueAtCount(s: State, w: nat, tasks: seq<Task>, x: Task)
    requires w < |s.workers|
    ensures Count(EnqueueAt(s, w, tasks), x) == Count(s, x) + multiset(tasks)[x]
  {
    var y := Accept(s.workers[w], tasks, |s.threads|);
    AcceptCount(s.workers[w], tasks, |s.threads|, x);
    SumUpdate(s.workers, w, y, InQueues(x));
    SumAppend(s.threads, Thread(w, AtLock), InHands(x));
  }

  lemma SplitCount(q: seq<Task>, k: nat, x: Task)
    requires k <= |q|
    ensures multiset(q)[x] == multiset(q[..k])[x] + multiset(q[k..])[x]
  {
    assert q == q[..k] + q[k..];
  }

  lemma DonateCount(s: State, t: nat, plan: seq<Donation>, x: Task)
    requires t < |s.threads| && s.threads[t].worker < |s.workers| && plan != [] && plan[0].target < |s.workers|
    requires s.threads[t].phase == Donating(plan) && plan[0].size <= |s.workers[s.threads[t].worker].privateQueue|
    ensures Count(Donate(s, t, plan), x) == Count(s, x)
  {
    var w := s.threads[t].worker;
    var q, k := s.workers[w].privateQueue, plan[0].size;
    var s1 := SetWorker(s, w, s.workers[w].(privateQueue := q[k..]));
    SetWorkerCount(s, w, s1.workers[w], x);
    SetPhaseCount(s1, t, Donating(plan[1..]), x);
    EnqueueAtCount(SetPhase(s1, t, Donating(plan[1..])), plan[0].target, q[..k], x);
    SplitCount(q, k, x);
  }

  lemma TakeTaskCount(s: State, t: nat, x: Task)
    requires t < |s.threads| && s.threads[t].worker < |s.workers| && s.threads[t].phase.Taking?
    ensures Count(TakeTask(s, t), x) == Count(s, x)
  {
    var w := s.threads[t].worker;
    var q := s.workers[w].privateQueue;
    if q != [] {
      var last := |q| - 1;
      var s1 := SetWorker(s, w, s.workers[w].(privateQueue := q[..last]));
      SetWorkerCount(s, w, s1.workers[w], x);
      SetPhaseCount(s1, t, Running(q[last]), x);
      assert q == q[..last] + [q[last]];
    }
  }

  lemma TakeOverCount(s: State, t: nat, x: Task)
    requires t < |s.threads| && s.threads[t].worker < |s.workers| && !s.threads[t].phase.Running?
    ensures Count(TakeOver(s, t), x) == Count(s, x)
  {
    var w := s.threads[t].worker;
    var s1 := SetWorker(s, w, TakeOver(s, t).workers[w]);
    SetWorkerCount(s, w, s1.workers[w], x);
    SetPhaseCount(s1, t, Balancing([]), x);
  }

  /** Steps that leave the queues alone. */
  lemma WaitStepCount(s: State, t: nat, y: Worker, p: Phase, x: Task)
    requires t < |s.threads| && s.threads[t].worker < |s.workers|
    requires !s.threads[t].phase.Running? && !p.Running?
    requires y.publicQueue == s.workers[s.threads[t].worker].publicQueue
    requires y.privateQueue == s.workers[s.threads[t].worker].privateQueue
    ensures Count(SetPhase(s, t, p), x) == Count(s, x)
    ensures Count(SetPhase(SetWorker(s, s.threads[t].worker, y), t, p), x) == Count(s, x)
  {
    var w := s.threads[t].worker;
    SetPhaseCount(s, t, p, x);
    SetWorkerCount(s, w, y, x);
    SetPhaseCount(SetWorker(s, w, y), t, p, x);
  }

  lemma FinishCount(s: State, t: nat, x: Task)
    requires t < |s.threads| && s.threads[t].phase.Running?
    ensures Count(SetPhase(s, t, Balancing([])).(finished := s.finished + [s.threads[t].phase.task]), x) == Count(s, x)
  {
    SetPhaseCount(s, t, Balancing([]), x);
  }

  lemma ThreadStepCount(s: State, t: nat, x: Task)
    requires Enabled(s, Step(t))
    ensures Count(ThreadStep(s, t), x) == Count(s, x)
  {
    var y := s.workers[s.threads[t].worker];
    match s.threads[t].phase
    case AtLock => if y.publicQueue == [] { WaitStepCount(s, t, y, Marking, x); } else { TakeOverCount(s, t, x); }
    case Marking => WaitStepCount(s, t, y.(marked := true), Sleeping, x);
    case Sleeping => WaitStepCount(s, t, y.(tokens := y.tokens - 1), Acquired, x);
    case Acquired => WaitStepCount(s, t, y, if y.found then Relocking else Sleeping, x);
    case Relocking => if y.publicQueue == [] { WaitStepCount(s, t, y, Sleeping, x); } else { TakeOverCount(s, t, x); }
    case TimedOut => WaitStepCount(s, t, y.(idle := true, stranded := y.publicQueue != []), Retired, x);
    case Balancing(_) => WaitStepCount(s, t, y, AtLock, x);
    case Donating(plan) =>
      if plan == [] { WaitStepCount(s, t, y, Taking, x); }
      else if plan[0].size <= |y.privateQueue| { DonateCount(s, t, plan, x); }
    case Taking => TakeTaskCount(s, t, x);
    case Running(_) => FinishCount(s, t, x);
  }

  lemma EnqueueCount(s: State, w: nat, count: nat, x: Task)
    requires w < |s.workers|
    ensures Count(EnqueueAt(s, w, Fresh(s.next, count)), x)
         == Count(s, x) + if s.next <= x < s.next + count then 1 else 0
  {
    EnqueueAtCount(s, w, Fresh(s.next, count), x);
    FreshOnce(s.next, count, x);
  }

  lemma EnqueueLocalCount(s: State, t: nat, count: nat, x: Task)
    requires Enabled(s, EnqueueLocal(t, count))
    ensures Count(Next(s, EnqueueLocal(t, count)), x) == Count(s, x) + if s.next <= x < s.next + count then 1 else 0
  {
    var w := s.threads[t].worker;
    SetWorkerCount(s, w, s.workers[w].(privateQueue := s.workers[w].privateQueue + Fresh(s.next, count)), x);
    FreshOnce(s.next, count, x);
  }

  lemma ClaimCount(s: State, t: nat, w: nat, x: Task)
    requires Enabled(s, Claim(t, w))
    ensures Count(Next(s, Claim(t, w)), x) == Count(s, x)
  {
    var s1 := SetWorker(s, w, ClaimedBy(s.workers[w], 0));
    SetWorkerCount(s, w, s1.workers[w], x);
    SetPhaseCount(s1, t, Balancing(s.threads[t].phase.claimed + [w]), x);
  }

  lemma EnqueueClaimedCount(s: State, w: nat, count: nat, x: Task)
    requires Enabled(s, EnqueueClaimed(w, count))
    ensures Count(Next(s, EnqueueClaimed(w, count)), x) == Count(s, x) + if s.next <= x < s.next + count then 1 else 0
  {
    var y := s.workers[w].(claims := s.workers[w].claims - 1);
    SetWorkerCount(s, w, y, x);
    EnqueueCount(SetWorker(s, w, y), w, count, x);
  }

  lemma InnerCount(s: State, a: Action, x: Task)
    requires Enabled(s, a) && !a.Enqueue? && !a.EnqueueClaimed? && !a.EnqueueLocal?
    ensures Next(s, a).next == s.next && Count(Next(s, a), x) == Count(s, x)
  {
    match a
    case ClaimFor(w) => SetWorkerCount(s, w, ClaimedBy(s.workers[w], 1), x);
    case Release(w) => SetWorkerCount(s, w, Released(s.workers[w]), x);
    case Timeout(t) => SetPhaseCount(s, t, TimedOut, x);
    case Claim(t, w) => ClaimCount(s, t, w, x);
    case Balance(t) => SetPhaseCount(s, t, Next(s, a).threads[t].phase, x);
    case Step(t) => ThreadStepCount(s, t, x);
  }

  lemma NextCount(s: State, a: Action, x: Task)
    requires Enabled(s, a)
    ensures s.next <= Next(s, a).next
    ensures Count(Next(s, a), x) == Count(s, x) + if s.next <= x < Next(s, a).next then 1 else 0
  {
    match a
    case Enqueue(w, count) => EnqueueCount(s, w, count, x);
    case EnqueueClaimed(w, count) => EnqueueClaimedCount(s, w, count, x);
    case EnqueueLocal(t, count) => EnqueueLocalCount(s, t, count, x);
    case _ => InnerCount(s, a, x);
  }

  lemma StepKeepsConserved(s: State, a: Action)
    requires Conserved(s) && Enabled(s, a)
    ensures Conserved(Next(s, a))
  {
    forall x: Task ensures Count(Next(s, a), x) == if x < Next(s, a).next then 1 else 0 {
      NextCount(s, a, x);
    }
  }

  // ---------------------------------------------------------------- one thread for every worker

  ghost function Total(plan: seq<Donation>): nat {
    if plan == [] then 0 else plan[0].size + Total(plan[1..])
  }

  ghost function Targets(plan: seq<Donation>): seq<nat> {
    seq(|plan|, i requires 0 <= i < |plan| => plan[i].target)
  }

  /** Other workers of the pool, of which there are n. */
  ghost predicate Others(targets: seq<nat>, w: nat, n: nat) {
    forall i | 0 <= i < |targets| :: targets[i] < n && targets[i] != w
  }

  /** What a thread in phase `p` may rely on about its own worker, the `w`-th of `n`. */
  ghost predicate PhaseOk(x: Worker, w: nat, n: nat, p: Phase) {
    match p
    case Marking => x.privateQueue == [] && WakeUpDue(x)
    case Sleeping => x.privateQueue == [] && WakeUpDue(x)
    case Balancing(claimed) => (claimed == [] || |claimed| < |x.privateQueue|) && Others(claimed, w, n)
    case Donating(plan) =>
      && Total(plan) < |x.privateQueue| && Others(Targets(plan), w, n)
      && forall i | 0 <= i < |plan| :: plan[i].size > 0
    case Taking => x.privateQueue != []
    case Running(_) => true
    case _ => x.privateQueue == []
  }

  /** Whoever made the public queue non-empty has released the semaphore, or will. */
  predicate WakeUpDue(x: Worker) { x.publicQueue != [] ==> x.tokens + x.releases > 0 }

  ghost predicate QueuesOk(x: Worker) {
    && (x.idle ==> x.privateQueue == [])
    && (x.publicQueue != [] <==> x.found)
    && (x.stranded <==> x.idle && x.publicQueue != [])
  }

  ghost predicate ThreadOk(s: State, t: nat)
    requires t < |s.threads|
  {
    var th := s.threads[t];
    && th.worker < |s.workers|
    && (!th.phase.Retired? ==>
          var x := s.workers[th.worker];
          !x.idle && x.thread == Some(t) && PhaseOk(x, th.worker, |s.workers|, th.phase))
  }

  /** A worker that is not idle has a thread in charge, and the handle of an idle one can be joined. */
  ghost predicate WorkerOk(s: State, w: nat)
    requires w < |s.workers|
  {
    var x := s.workers[w];
    && QueuesOk(x)
    && (x.idle ==> CanBeJoined(s, x.thread))
    && (!x.idle ==> x.thread.Some? && x.thread.value < |s.threads|
                    && s.threads[x.thread.value].worker == w && !s.threads[x.thread.value].phase.Retired?)
  }

  ghost predicate Inv(s: State) {
    && !s.fault
    && (forall t: nat | t < |s.threads| :: ThreadOk(s, t))
    && (forall w: nat | w < |s.workers| :: WorkerOk(s, w))
  }

  /** A step of a live thread on its own worker. */
  lemma OwnStepKeepsInv(s: State, t: nat, y: Worker, p: Phase)
    requires Inv(s) && t < |s.threads| && s.threads[t].worker < |s.workers| && !s.threads[t].phase.Retired?
    requires QueuesOk(y) && y.thread == Some(t) && y.idle == p.Retired?
    requires !p.Retired? ==> PhaseOk(y, s.threads[t].worker, |s.workers|, p)
    ensures Inv(SetPhase(SetWorker(s, s.threads[t].worker, y), t, p))
  {
    var w := s.threads[t].worker;
    assert ThreadOk(s, t);
    var s' := SetPhase(SetWorker(s, w, y), t, p);
    forall u: nat | u < |s'.threads| ensures ThreadOk(s', u) {
      assert ThreadOk(s, u);
    }
    forall v: nat | v < |s'.workers| ensures WorkerOk(s', v) {
      assert WorkerOk(s, v);
    }
  }

  lemma EnqueueAtKeepsInv(s: State, w: nat, tasks: seq<Task>)
    requires Inv(s) && w < |s.workers| && tasks != []
    ensures Inv(EnqueueAt(s, w, tasks))
  {
    var s' := EnqueueAt(s, w, tasks);
    assert WorkerOk(s, w);
    forall u: nat | u < |s'.threads| ensures ThreadOk(s', u) {
      if u < |s.threads| { assert ThreadOk(s, u); }
    }
    forall v: nat | v < |s'.workers| ensures WorkerOk(s', v) {
      assert WorkerOk(s, v);
    }
  }

  /** The donor's side of a donation. */
  lemma DonationKeepsInv(s: State, t: nat, plan: seq<Donation>)
    requires Inv(s) && Enabled(s, Step(t)) && s.threads[t].phase == Donating(plan) && plan != []
    ensures var w := s.threads[t].worker;
            var x := s.workers[w];
            && 0 < plan[0].size <= |x.privateQueue|
            && Inv(SetPhase(SetWorker(s, w, x.(privateQueue := x.privateQueue[plan[0].size..])), t,
                            Donating(plan[1..])))
  {
    var w := s.threads[t].worker;
    assert ThreadOk(s, t) && WorkerOk(s, w);
    var x := s.workers[w];
    assert Targets(plan) == [plan[0].target] + Targets(plan[1..]);
    assert forall i | 0 <= i < |plan[1..]| :: Targets(plan[1..])[i] == Targets(plan)[i + 1];
    OwnStepKeepsInv(s, t, x.(privateQueue := x.privateQueue[plan[0].size..]), Donating(plan[1..]));
  }

  lemma DonateKeepsInv(s: State, t: nat, plan: seq<Donation>)
    requires Inv(s) && Enabled(s, Step(t)) && s.threads[t].phase == Donating(plan) && plan != []
    ensures Inv(Donate(s, t, plan))
  {
    DonationKeepsInv(s, t, plan);
    var w := s.threads[t].worker;
    var x := s.workers[w];
    var s1 := SetPhase(SetWorker(s, w, x.(privateQueue := x.privateQueue[plan[0].size..])), t, Donating(plan[1..]));
    EnqueueAtKeepsInv(s1, plan[0].target, x.privateQueue[..plan[0].size]);
  }

  /** The donations of a plan, from the i-th on, take what lies between two boundaries. */
  lemma {:induction false} PlanTotal(targets: seq<nat>, n: nat, i: nat)
    requires i <= |targets|
    ensures var parts := |targets| + 1;
            Total(Plan(targets, n)[i..]) == Begin(|targets|, n / parts, n % parts) - Begin(i, n / parts, n % parts)
    decreases |targets| - i
  {
    if i < |targets| {
      RangeFits(n, |targets| + 1, i);
      PlanTotal(targets, n, i + 1);
      assert Plan(targets, n)[i..][1..] == Plan(targets, n)[i + 1..];
    }
  }

  lemma PlanKeepsOne(targets: seq<nat>, n: nat)
    requires |targets| < n
    ensures Total(Plan(targets, n)) < n && Targets(Plan(targets, n)) == targets
    ensures forall i | 0 <= i < |targets| :: Plan(targets, n)[i].size > 0
  {
    PlanTotal(targets, n, 0);
    RangesEnd(n, |targets| + 1);
    Shares(n, |targets| + 1);
    assert Plan(targets, n)[0..] == Plan(targets, n);
  }

  lemma BalanceKeepsInv(s: State, t: nat)
    requires Inv(s) && Enabled(s, Balance(t))
    ensures Inv(Next(s, Balance(t)))
  {
    var w := s.threads[t].worker;
    assert ThreadOk(s, t) && WorkerOk(s, w);
    PlanKeepsOne(s.threads[t].phase.claimed, |s.workers[w].privateQueue|);
    OwnPhaseKeepsInv(s, t, Next(s, Balance(t)).threads[t].phase);
  }

  /** Taking the idle mark of a worker away concerns no thread. */
  lemma MarkKeepsInv(s: State, w: nat, y: Worker)
    requires Inv(s) && w < |s.workers|
    requires y == s.workers[w].(marked := y.marked, claims := y.claims, tokens := y.tokens, releases := y.releases)
    requires y.tokens + y.releases >= s.workers[w].tokens + s.workers[w].releases
    ensures Inv(SetWorker(s, w, y))
  {
    var s' := SetWorker(s, w, y);
    forall u: nat | u < |s'.threads| ensures ThreadOk(s', u) { assert ThreadOk(s, u); }
    forall v: nat | v < |s'.workers| ensures WorkerOk(s', v) { assert WorkerOk(s, v); }
  }

  lemma ClaimKeepsInv(s: State, t: nat, w: nat)
    requires Inv(s) && Enabled(s, Claim(t, w))
    ensures Inv(Next(s, Claim(t, w)))
  {
    var s1 := SetWorker(s, w, ClaimedBy(s.workers[w], 0));
    MarkKeepsInv(s, w, s1.workers[w]);
    assert ThreadOk(s1, t);
    OwnPhaseKeepsInv(s1, t, Balancing(s.threads[t].phase.claimed + [w]));
  }

  lemma OwnPhaseKeepsInv(s: State, t: nat, p: Phase)
    requires Inv(s) && t < |s.threads| && s.threads[t].worker < |s.workers| && !s.threads[t].phase.Retired?
    requires !p.Retired? && PhaseOk(s.workers[s.threads[t].worker], s.threads[t].worker, |s.workers|, p)
    ensures Inv(SetPhase(s, t, p))
  {
    var w := s.threads[t].worker;
    assert ThreadOk(s, t) && WorkerOk(s, w);
    OwnStepKeepsInv(s, t, s.workers[w], p);
    assert SetWorker(s, w, s.workers[w]) == s;
  }

  lemma TakeOverKeepsInv(s: State, t: nat)
    requires Inv(s) && t < |s.threads| && s.threads[t].worker < |s.workers|
    requires !s.threads[t].phase.Retired? && s.workers[s.threads[t].worker].privateQueue == []
    ensures Inv(TakeOver(s, t))
  {
    var w := s.threads[t].worker;
    assert ThreadOk(s, t) && WorkerOk(s, w);
    OwnStepKeepsInv(s, t, TakeOver(s, t).workers[w], Balancing([]));
  }

  lemma TakeTaskKeepsInv(s: State, t: nat)
    requires Inv(s) && Enabled(s, Step(t)) && s.threads[t].phase.Taking?
    ensures Inv(TakeTask(s, t))
  {
    var w := s.threads[t].worker;
    assert ThreadOk(s, t) && WorkerOk(s, w);
    OwnStepKeepsInv(s, t, TakeTask(s, t).workers[w], TakeTask(s, t).threads[t].phase);
  }

  lemma ThreadStepKeepsInv(s: State, t: nat)
    requires Inv(s) && Enabled(s, Step(t))
    ensures Inv(ThreadStep(s, t))
  {
    var w := s.threads[t].worker;
    var y := s.workers[w];
    assert ThreadOk(s, t) && WorkerOk(s, w);
    match s.threads[t].phase
    case AtLock => if y.publicQueue == [] { OwnPhaseKeepsInv(s, t, Marking); } else { TakeOverKeepsInv(s, t); }
    case Marking => OwnStepKeepsInv(s, t, y.(marked := true), Sleeping);
    case Sleeping => OwnStepKeepsInv(s, t, y.(tokens := y.tokens - 1), Acquired);
    case Acquired => OwnPhaseKeepsInv(s, t, if y.found then Relocking else Sleeping);
    case Relocking => if y.publicQueue == [] { OwnPhaseKeepsInv(s, t, Sleeping); } else { TakeOverKeepsInv(s, t); }
    case TimedOut => OwnStepKeepsInv(s, t, y.(idle := true, stranded := y.publicQueue != []), Retired);
    case Balancing(_) => OwnPhaseKeepsInv(s, t, AtLock);
    case Donating(plan) => if plan == [] { OwnPhaseKeepsInv(s, t, Taking); } else { DonateKeepsInv(s, t, plan); }
    case Taking => TakeTaskKeepsInv(s, t);
    case Running(_) => FinishKeepsInv(s, t);
  }

  lemma FinishKeepsInv(s: State, t: nat)
    requires Inv(s) && Enabled(s, Step(t)) && s.threads[t].phase.Running?
    ensures Inv(ThreadStep(s, t))
  {
    OwnPhaseKeepsInv(s, t, Balancing([]));
    SameInv(SetPhase(s, t, Balancing([])), ThreadStep(s, t));
  }

  /** The invariant does not look at the counters. */
  lemma SameInv(s: State, s': State)
    requires Inv(s) && s'.workers == s.workers && s'.threads == s.threads && s'.fault == s.fault
    ensures Inv(s')
  {
    forall u: nat | u < |s.threads| ensures ThreadOk(s', u) { assert ThreadOk(s, u); }
    forall v: nat | v < |s.workers| ensures WorkerOk(s', v) { assert WorkerOk(s, v); }
  }

  lemma EnqueueLocalKeepsInv(s: State, t: nat, count: nat)
    requires Inv(s) && Enabled(s, EnqueueLocal(t, count))
    ensures Inv(Next(s, EnqueueLocal(t, count)))
  {
    var w := s.threads[t].worker;
    assert ThreadOk(s, t) && WorkerOk(s, w);
    var s' := Next(s, EnqueueLocal(t, count));
    OwnStepKeepsInv(s, t, s'.workers[w], s.threads[t].phase);
    SameInv(SetPhase(SetWorker(s, w, s'.workers[w]), t, s.threads[t].phase), s');
  }

  lemma StepKeepsInv(s: State, a: Action)
    requires Inv(s) && Enabled(s, a)
    ensures Inv(Next(s, a))
  {
    match a
    case Enqueue(w, count) =>
      EnqueueAtKeepsInv(s, w, Fresh(s.next, count));
      SameInv(EnqueueAt(s, w, Fresh(s.next, count)), Next(s, a));
    case ClaimFor(w) => MarkKeepsInv(s, w, ClaimedBy(s.workers[w], 1));
    case EnqueueClaimed(w, count) =>
      var s1 := SetWorker(s, w, s.workers[w].(claims := s.workers[w].claims - 1));
      MarkKeepsInv(s, w, s1.workers[w]);
      EnqueueAtKeepsInv(s1, w, Fresh(s.next, count));
      SameInv(EnqueueAt(s1, w, Fresh(s.next, count)), Next(s, a));
    case Release(w) => MarkKeepsInv(s, w, Released(s.workers[w]));
    case EnqueueLocal(t, count) => EnqueueLocalKeepsInv(s, t, count);
    case Timeout(t) => assert ThreadOk(s, t); OwnPhaseKeepsInv(s, t, TimedOut);
    case Claim(t, w) => ClaimKeepsInv(s, t, w);
    case Balance(t) => BalanceKeepsInv(s, t);
    case Step(t) => ThreadStepKeepsInv(s, t);
  }

  // ---------------------------------------------------------------- theorems about every run

  lemma InitInv(s: State)
    requires Init(s)
    ensures Inv(s) && Conserved(s)
  {
    forall x: Task ensures Count(s, x) == 0 { SumZero(s.workers, InQueues(x)); }
  }

  lemma {:induction false} RunKeepsInv(s: State, trace: seq<Action>, t: State)
    requires Inv(s) && Conserved(s) && Executes(s, trace, t)
    ensures Inv(t) && Conserved(t)
    decreases |trace|
  {
    if trace != [] {
      StepKeepsInv(s, trace[0]);
      StepKeepsConserved(s, trace[0]);
      RunKeepsInv(Next(s, trace[0]), trace[1..], t);
    }
  }

  lemma ReachableInv(t: State)
    requires Reachable(t)
    ensures Inv(t) && Conserved(t)
  {
    var s, trace :| Init(s) && Executes(s, trace, t);
    InitInv(s);
    RunKeepsInv(s, trace, t);
  }

  /**
   No task is lost or duplicated: a task that has been enqueued is in exactly one queue, or in the
   hands of exactly one thread, or has run exactly once; a task not enqueued yet is nowhere.
   */
  lemma EveryTaskIsInOnePlace(t: State, x: Task)
    requires Reachable(t)
    ensures Count(t, x) == if x < t.next then 1 else 0
    ensures multiset(t.finished)[x] <= 1
  {
    ReachableInv(t);
    SumAtLeast(t.workers, InQueues(x));
    SumAtLeast(t.threads, InHands(x));
  }

  /** A thread of the worker that has not retired. */
  predicate LiveFor(t: State, u: nat, w: nat) {
    u < |t.threads| && t.threads[u].worker == w && !t.threads[u].phase.Retired?
  }

  /**
   No assertion of the code fails: queues are swapped only into an empty private queue, a donor
   keeps a task to run, the thread that a new one replaces has retired. A worker has one thread
   exactly while it is not marked idle.
   */
  lemma OneThreadPerWorker(t: State, w: nat)
    requires Reachable(t) && w < |t.workers|
    ensures !t.fault
    ensures t.workers[w].idle <==> forall u: nat :: !LiveFor(t, u, w)
    ensures forall u: nat, v: nat | LiveFor(t, u, w) && LiveFor(t, v, w) :: u == v
  {
    ReachableInv(t);
    assert WorkerOk(t, w);
    forall u: nat | LiveFor(t, u, w) ensures !t.workers[w].idle && t.workers[w].thread == Some(u) {
      assert ThreadOk(t, u);
    }
    if !t.workers[w].idle { assert LiveFor(t, t.workers[w].thread.value, w); }
  }

  // ---------------------------------------------------------------- how tasks move, in which order

  /** The tasks numbered from `from` on, in order. */
  predicate Numbered(q: seq<Task>, from: nat) { forall i | 0 <= i < |q| :: q[i] == from + i }

  /** All the queues, but for the public queue of worker v and the private queue of worker w. */
  ghost predicate OtherQueues(s: State, t: State, v: Option<nat>, w: Option<nat>) {
    && |t.workers| == |s.workers|
    && (forall x: nat | x < |s.workers| && v != Some(x) :: t.workers[x].publicQueue == s.workers[x].publicQueue)
    && (forall x: nat | x < |s.workers| && w != Some(x) :: t.workers[x].privateQueue == s.workers[x].privateQueue)
  }

  /** Longer by so many new tasks, in order. */
  predicate Extended(q: seq<Task>, q': seq<Task>, from: nat, count: nat) {
    q <= q' && |q'| == |q| + count && Numbered(q'[|q|..], from)
  }

  lemma FreshExtends(q: seq<Task>, from: nat, count: nat)
    ensures Extended(q, q + Fresh(from, count), from, count)
  {
    assert (q + Fresh(from, count))[|q|..] == Fresh(from, count);
  }

  /** An enqueueing appends new tasks, in order, to the public queue of a worker. */
  lemma EnqueueAppends(s: State, a: Action)
    requires Enabled(s, a) && (a.Enqueue? || a.EnqueueClaimed?)
    ensures Extended(s.workers[a.w].publicQueue, Next(s, a).workers[a.w].publicQueue, s.next, a.count)
    ensures OtherQueues(s, Next(s, a), Some(a.w), None)
    ensures Next(s, a).finished == s.finished && Next(s, a).next == s.next + a.count
  {
    FreshExtends(s.workers[a.w].publicQueue, s.next, a.count);
  }

  /** What a running task enqueues itself goes behind the private queue of its thread. */
  lemma EnqueueLocalAppends(s: State, t: nat, count: nat)
    requires Enabled(s, EnqueueLocal(t, count))
    ensures var w, s' := s.threads[t].worker, Next(s, EnqueueLocal(t, count));
            && Extended(s.workers[w].privateQueue, s'.workers[w].privateQueue, s.next, count)
            && OtherQueues(s, s', None, Some(w)) && s'.finished == s.finished && s'.next == s.next + count
  {
    FreshExtends(s.workers[s.threads[t].worker].privateQueue, s.next, count);
  }

  /** A thread that takes over gets the whole public queue, as it is; if it was woken up its mark is gone. */
  lemma TakeOverSwaps(s: State, t: nat)
    requires Inv(s) && Enabled(s, Step(t)) && (s.threads[t].phase.AtLock? || s.threads[t].phase.Relocking?)
    requires s.workers[s.threads[t].worker].publicQueue != []
    ensures var w, s' := s.threads[t].worker, Next(s, Step(t));
            && OtherQueues(s, s', Some(w), Some(w)) && s'.finished == s.finished
            && s'.workers[w].privateQueue == s.workers[w].publicQueue && s'.workers[w].publicQueue == []
            && !s'.workers[w].found && s'.workers[w].tokens == s.workers[w].tokens
            && s'.workers[w].marked == (s.workers[w].marked && s.threads[t].phase.AtLock?)
  {
    assert ThreadOk(s, t);
  }

  /** Shares are fixed for the workers claimed, in the order of the claims, and add up to less than the whole. */
  lemma BalanceShares(s: State, t: nat)
    requires Enabled(s, Balance(t))
    ensures var claimed := s.threads[t].phase.claimed;
            var n := |s.workers[s.threads[t].worker].privateQueue|;
            var p := Next(s, Balance(t)).threads[t].phase;
            && p.Donating? && |p.plan| == |claimed| && Next(s, Balance(t)).workers == s.workers
            && forall i | 0 <= i < |claimed| ::
                 && p.plan[i].target == claimed[i]
                 && p.plan[i].size == n / (|claimed| + 1) + if i < n % (|claimed| + 1) then 1 else 0
  {
  }

  /** A donation is the front of the private queue, and goes behind whatever the other worker has. */
  lemma DonationMoves(s: State, t: nat, plan: seq<Donation>)
    requires Inv(s) && Enabled(s, Step(t)) && s.threads[t].phase == Donating(plan) && plan != []
    ensures var w, s', d := s.threads[t].worker, Next(s, Step(t)), plan[0];
            && OtherQueues(s, s', Some(d.target), Some(w)) && s'.finished == s.finished
            && d.size <= |s.workers[w].privateQueue|
            && s'.workers[d.target].publicQueue == s.workers[d.target].publicQueue + s.workers[w].privateQueue[..d.size]
            && s'.workers[w].privateQueue == s.workers[w].privateQueue[d.size..]
            && s'.threads[t].phase == Donating(plan[1..])
  {
    assert ThreadOk(s, t);
    assert Targets(plan)[0] == plan[0].target;
  }

  /** The last task of the private queue is run next, and a task that was running has run. */
  lemma LastIsRun(s: State, t: nat)
    requires Inv(s) && Enabled(s, Step(t)) && (s.threads[t].phase.Taking? || s.threads[t].phase.Running?)
    ensures var w, s' := s.threads[t].worker, Next(s, Step(t));
            if s.threads[t].phase.Running? then
              s'.workers == s.workers && s'.finished == s.finished + [s.threads[t].phase.task]
            else
              && OtherQueues(s, s', None, Some(w)) && s'.finished == s.finished && s'.threads[t].phase.Running?
              && s.workers[w].privateQueue == s'.workers[w].privateQueue + [s'.threads[t].phase.task]
  {
    assert ThreadOk(s, t);
  }

  /** No other step moves a task. */
  lemma OthersMoveNothing(s: State, a: Action)
    requires Inv(s) && Enabled(s, a) && !a.Enqueue? && !a.EnqueueClaimed? && !a.EnqueueLocal?
    requires a.Step? ==>
               var p, x := s.threads[a.t].phase, s.workers[s.threads[a.t].worker];
               && !p.Taking? && !p.Running? && !(p.Donating? && p.plan != [])
               && !((p.AtLock? || p.Relocking?) && x.publicQueue != [])
    ensures OtherQueues(s, Next(s, a), None, None) && Next(s, a).finished == s.finished && Next(s, a).next == s.next
  {
  }

  predicate IsDraining(p: Phase) { p.Balancing? || p.Donating? || p.Taking? || p.Running? }

  /** Only a thread that is draining has anything in its private queue. */
  lemma PrivateTasksAreBeingDrained(t: State, w: nat)
    requires Reachable(t) && w < |t.workers| && t.workers[w].privateQueue != []
    ensures exists u: nat | LiveFor(t, u, w) :: IsDraining(t.threads[u].phase)
  {
    ReachableInv(t);
    assert WorkerOk(t, w);
    var u := t.workers[w].thread.value;
    assert ThreadOk(t, u) && LiveFor(t, u, w);
  }

  // ---------------------------------------------------------------- the threads come to rest

  /** Tasks still to be run; a thread that has begun to donate will run one next. */
  ghost function Load(x: Worker): int { 3 * (|x.publicQueue| + |x.privateQueue|) + if x.idle then 1 else 0 }

  ghost function Standing(t: Thread): int {
    match t.phase case Donating(_) => 0 case Taking => 0 case Retired => 0 case Running(_) => 2 case _ => 1
  }

  ghost function Donations(t: Thread): int { if t.phase.Donating? then |t.phase.plan| else 0 }

  ghost function Calls(x: Worker): int {
    10 * |x.publicQueue| + 3 * x.tokens + 4 * x.releases + if x.marked then 1 else 0
  }

  ghost function Pace(t: Thread): int {
    match t.phase
    case Balancing(_) => 7
    case AtLock => 6
    case Marking => 5
    case Acquired => 5
    case Relocking => 4
    case Sleeping => 3
    case Donating(_) => 2
    case Taking => 1
    case TimedOut => 1
    case Running(_) => 0
    case Retired => 0
  }

  ghost function TasksLeft(s: State): int { Sum(s.workers, Load) + Sum(s.threads, Standing) }

  ghost function DonationsLeft(s: State): int { Sum(s.threads, Donations) }

  ghost function WaitingLeft(s: State): int { Sum(s.workers, Calls) + Sum(s.threads, Pace) }

  lemma WorkIsNatural(s: State)
    ensures 0 <= TasksLeft(s) && 0 <= DonationsLeft(s) && 0 <= WaitingLeft(s)
  {
    SumAtLeast(s.workers, Load);
    SumAtLeast(s.workers, Calls);
    SumAtLeast(s.threads, Standing);
    SumAtLeast(s.threads, Donations);
    SumAtLeast(s.threads, Pace);
  }

  /** The lexicographic order in which the work goes down. */
  ghost predicate LessWork(s': State, s: State) {
    || TasksLeft(s') < TasksLeft(s)
    || (TasksLeft(s') == TasksLeft(s) && DonationsLeft(s') < DonationsLeft(s))
    || (TasksLeft(s') == TasksLeft(s) && DonationsLeft(s') == DonationsLeft(s) && WaitingLeft(s') < WaitingLeft(s))
  }

  lemma OwnStepWork(s: State, t: nat, y: Worker, p: Phase)
    requires t < |s.threads| && s.threads[t].worker < |s.workers|
    ensures var w := s.threads[t].worker;
            var x, th := s.workers[w], Thread(w, p);
            var s' := SetPhase(SetWorker(s, w, y), t, p);
            && TasksLeft(s') == TasksLeft(s) - Load(x) + Load(y) - Standing(s.threads[t]) + Standing(th)
            && DonationsLeft(s') == DonationsLeft(s) - Donations(s.threads[t]) + Donations(th)
            && WaitingLeft(s') == WaitingLeft(s) - Calls(x) + Calls(y) - Pace(s.threads[t]) + Pace(th)
  {
    var w := s.threads[t].worker;
    SumUpdate(s.workers, w, y, Load);
    SumUpdate(s.workers, w, y, Calls);
    SumUpdate(s.threads, t, Thread(w, p), Standing);
    SumUpdate(s.threads, t, Thread(w, p), Donations);
    SumUpdate(s.threads, t, Thread(w, p), Pace);
  }

  lemma OwnPhaseWork(s: State, t: nat, p: Phase)
    requires t < |s.threads| && s.threads[t].worker < |s.workers|
    ensures var th, s' := Thread(s.threads[t].worker, p), SetPhase(s, t, p);
            && TasksLeft(s') == TasksLeft(s) - Standing(s.threads[t]) + Standing(th)
            && DonationsLeft(s') == DonationsLeft(s) - Donations(s.threads[t]) + Donations(th)
            && WaitingLeft(s') == WaitingLeft(s) - Pace(s.threads[t]) + Pace(th)
  {
    OwnStepWork(s, t, s.workers[s.threads[t].worker], p);
    assert SetWorker(s, s.threads[t].worker, s.workers[s.threads[t].worker]) == s;
  }

  lemma EnqueueAtWork(s: State, w: nat, tasks: seq<Task>)
    requires w < |s.workers|
    ensures TasksLeft(EnqueueAt(s, w, tasks)) == TasksLeft(s) + 3 * |tasks|
    ensures DonationsLeft(EnqueueAt(s, w, tasks)) == DonationsLeft(s)
  {
    SumUpdate(s.workers, w, Accept(s.workers[w], tasks, |s.threads|), Load);
    SumAppend(s.threads, Thread(w, AtLock), Standing);
    SumAppend(s.threads, Thread(w, AtLock), Donations);
  }

  lemma DonateWork(s: State, t: nat, plan: seq<Donation>)
    requires Inv(s) && Enabled(s, Step(t)) && s.threads[t].phase == Donating(plan) && plan != []
    ensures LessWork(Donate(s, t, plan), s)
  {
    assert ThreadOk(s, t);
    var w := s.threads[t].worker;
    var q, k := s.workers[w].privateQueue, plan[0].size;
    var y := s.workers[w].(privateQueue := q[k..]);
    OwnStepWork(s, t, y, Donating(plan[1..]));
    EnqueueAtWork(SetPhase(SetWorker(s, w, y), t, Donating(plan[1..])), plan[0].target, q[..k]);
  }

  lemma TakeOverWork(s: State, t: nat)
    requires Inv(s) && Enabled(s, Step(t)) && (s.threads[t].phase.AtLock? || s.threads[t].phase.Relocking?)
    requires s.workers[s.threads[t].worker].publicQueue != []
    ensures LessWork(TakeOver(s, t), s)
  {
    assert ThreadOk(s, t);
    var w := s.threads[t].worker;
    OwnStepWork(s, t, TakeOver(s, t).workers[w], Balancing([]));
  }

  lemma TakeTaskWork(s: State, t: nat)
    requires Inv(s) && Enabled(s, Step(t)) && s.threads[t].phase.Taking?
    ensures LessWork(TakeTask(s, t), s)
  {
    assert ThreadOk(s, t);
    var w := s.threads[t].worker;
    OwnStepWork(s, t, TakeTask(s, t).workers[w], TakeTask(s, t).threads[t].phase);
  }

  lemma LockStepWork(s: State, t: nat)
    requires Inv(s) && Enabled(s, Step(t))
    requires s.threads[t].phase.AtLock? || s.threads[t].phase.Relocking?
    ensures LessWork(ThreadStep(s, t), s)
  {
    assert ThreadOk(s, t);
    if s.workers[s.threads[t].worker].publicQueue != [] {
      TakeOverWork(s, t);
    } else if s.threads[t].phase.AtLock? {
      OwnPhaseWork(s, t, Marking);
    } else {
      OwnPhaseWork(s, t, Sleeping);
    }
  }

  lemma WaitStepWork(s: State, t: nat)
    requires Inv(s) && Enabled(s, Step(t))
    requires !IsDraining(s.threads[t].phase) && !s.threads[t].phase.AtLock? && !s.threads[t].phase.Relocking?
    ensures LessWork(ThreadStep(s, t), s)
  {
    var y := s.workers[s.threads[t].worker];
    assert ThreadOk(s, t);
    match s.threads[t].phase
    case Marking => OwnStepWork(s, t, y.(marked := true), Sleeping);
    case Sleeping => OwnStepWork(s, t, y.(tokens := y.tokens - 1), Acquired);
    case Acquired => OwnPhaseWork(s, t, if y.found then Relocking else Sleeping);
    case TimedOut => OwnStepWork(s, t, y.(idle := true, stranded := y.publicQueue != []), Retired);
  }

  lemma ThreadStepWork(s: State, t: nat)
    requires Inv(s) && Enabled(s, Step(t))
    ensures LessWork(ThreadStep(s, t), s)
  {
    match s.threads[t].phase
    case Balancing(_) => OwnPhaseWork(s, t, AtLock);
    case Donating(plan) => if plan == [] { OwnPhaseWork(s, t, Taking); } else { DonateWork(s, t, plan); }
    case Taking => TakeTaskWork(s, t);
    case Running(_) => OwnPhaseWork(s, t, Balancing([]));
    case AtLock => LockStepWork(s, t);
    case Relocking => LockStepWork(s, t);
    case _ => WaitStepWork(s, t);
  }

  predicate IsCall(a: Action) { a.Enqueue? || a.ClaimFor? || a.EnqueueClaimed? || a.EnqueueLocal? }

  lemma WorkerWork(s: State, w: nat, y: Worker)
    requires w < |s.workers|
    ensures TasksLeft(SetWorker(s, w, y)) == TasksLeft(s) - Load(s.workers[w]) + Load(y)
    ensures DonationsLeft(SetWorker(s, w, y)) == DonationsLeft(s)
    ensures WaitingLeft(SetWorker(s, w, y)) == WaitingLeft(s) - Calls(s.workers[w]) + Calls(y)
  {
    SumUpdate(s.workers, w, y, Load);
    SumUpdate(s.workers, w, y, Calls);
  }

  lemma ClaimWork(s: State, t: nat, w: nat)
    requires Enabled(s, Claim(t, w))
    ensures LessWork(Next(s, Claim(t, w)), s)
  {
    var s1 := SetWorker(s, w, ClaimedBy(s.workers[w], 0));
    WorkerWork(s, w, s1.workers[w]);
    OwnPhaseWork(s1, t, Balancing(s.threads[t].phase.claimed + [w]));
  }

  lemma StepWork(s: State, a: Action)
    requires Inv(s) && Enabled(s, a) && !IsCall(a)
    ensures LessWork(Next(s, a), s)
  {
    match a
    case Release(w) => WorkerWork(s, w, Released(s.workers[w]));
    case Timeout(t) => OwnPhaseWork(s, t, TimedOut);
    case Claim(t, w) => ClaimWork(s, t, w);
    case Balance(t) => OwnPhaseWork(s, t, Next(s, a).threads[t].phase);
    case Step(t) => ThreadStepWork(s, t);
  }

  /** A step that is not the enqueueing of a task leads from one state to the next. */
  ghost predicate OwnStep(s: State, a: Action, s': State) {
    Enabled(s, a) && !IsCall(a) && s' == Next(s, a)
  }

  lemma OwnStepLeavesLess(s: State, a: Action, s': State)
    requires Inv(s) && OwnStep(s, a, s')
    ensures Inv(s') && LessWork(s', s)
    ensures 0 <= TasksLeft(s') && 0 <= DonationsLeft(s') && 0 <= WaitingLeft(s')
  {
    StepKeepsInv(s, a);
    StepWork(s, a);
    WorkIsNatural(s');
  }

  ghost predicate GoesOn(states: nat -> State, actions: nat -> Action, n: nat) {
    OwnStep(states(n), actions(n), states(n + 1))
  }

  lemma {:induction false} RestAfter(states: nat -> State, actions: nat -> Action, k: nat)
    requires Inv(states(k))
    ensures exists n: nat | n >= k :: !GoesOn(states, actions, n)
    decreases TasksLeft(states(k)), DonationsLeft(states(k)), WaitingLeft(states(k))
  {
    WorkIsNatural(states(k));
    if GoesOn(states, actions, k) {
      OwnStepLeavesLess(states(k), actions(k), states(k + 1));
      RestAfter(states, actions, k + 1);
    }
  }

  /**
   However the threads are scheduled, whomever they donate to and whenever they time out, they come
   to rest when nothing more is enqueued: there is no infinite run of their own steps.
   */
  lemma ThreadsComeToRest(states: nat -> State, actions: nat -> Action)
    requires Reachable(states(0))
    ensures exists n: nat :: !GoesOn(states, actions, n)
  {
    ReachableInv(states(0));
    RestAfter(states, actions, 0);
  }

  // ---------------------------------------------------------------- stranded queues

  /** Tasks wait in the public queue of a worker, and no thread is there to run them. */
  ghost predicate Stranded(s: State, w: nat)
    requires w < |s.workers|
  {
    s.workers[w].idle && s.workers[w].publicQueue != []
  }

  /** The thread of the worker has timed out, and takes the lock after something was enqueued. */
  ghost predicate RetiresTooLate(s: State, a: Action, w: nat)
    requires w < |s.workers| && Enabled(s, a)
  {
    a.Step? && s.threads[a.t] == Thread(w, TimedOut) && s.workers[w].publicQueue != []
  }

  predicate DonatesTo(p: Phase, w: nat) { p.Donating? && p.plan != [] && p.plan[0].target == w }

  /** Something is enqueued or donated to the worker. */
  ghost predicate Delivers(s: State, a: Action, w: nat)
    requires Enabled(s, a)
  {
    || (a.Enqueue? && a.w == w)
    || (a.EnqueueClaimed? && a.w == w)
    || (a.Step? && DonatesTo(s.threads[a.t].phase, w))
  }

  /** How a step changes whether a worker is idle. */
  lemma IdleAfter(s: State, a: Action, w: nat)
    requires Inv(s) && Enabled(s, a) && w < |s.workers|
    ensures |Next(s, a).workers| == |s.workers|
    ensures var x, y := s.workers[w], Next(s, a).workers[w];
            if a.Step? && s.threads[a.t] == Thread(w, TimedOut) then
              !x.idle && y.idle && y.publicQueue == x.publicQueue
            else
              (y.idle <==> x.idle && !Delivers(s, a, w)) && (y.idle ==> y.publicQueue == x.publicQueue)
  {
    StepKeepsInv(s, a);
    if a.Step? {
      assert ThreadOk(s, a.t) && WorkerOk(s, w);
      ThreadStepIdle(s, a.t, w);
    }
  }

  lemma ThreadStepIdle(s: State, t: nat, w: nat)
    requires Inv(s) && Enabled(s, Step(t)) && w < |s.workers|
    ensures |ThreadStep(s, t).workers| == |s.workers|
    ensures var x, y := s.workers[w], ThreadStep(s, t).workers[w];
            if s.threads[t] == Thread(w, TimedOut) then
              !x.idle && y.idle && y.publicQueue == x.publicQueue
            else
              && (y.idle <==> x.idle && !DonatesTo(s.threads[t].phase, w))
              && (y.idle ==> y.publicQueue == x.publicQueue)
  {
    assert ThreadOk(s, t) && WorkerOk(s, w);
  }

  /** A queue stays stranded until something is delivered to its worker. */
  lemma StrandedAfter(s: State, a: Action, w: nat)
    requires Inv(s) && Enabled(s, a) && w < |s.workers|
    ensures |Next(s, a).workers| == |s.workers|
    ensures Stranded(Next(s, a), w) <==> RetiresTooLate(s, a, w) || (Stranded(s, w) && !Delivers(s, a, w))
  {
    IdleAfter(s, a, w);
  }

  /**
   A queue becomes stranded exactly when a thread that has timed out takes the lock although the
   public queue is no longer empty: wait_for_task marks the worker idle without looking again.
   */
  lemma StrandedExactlyByLateTimeout(s: State, a: Action, w: nat)
    requires Reachable(s) && Enabled(s, a) && w < |s.workers|
    ensures |Next(s, a).workers| == |s.workers|
    ensures !Stranded(s, w) && Stranded(Next(s, a), w) <==> RetiresTooLate(s, a, w)
  {
    ReachableInv(s);
    IdleAfter(s, a, w);
  }

  /**
   A thread that sleeps, or is about to, with a non-empty public queue finds a token, or an enqueuer
   has still to release one; and it will not take the wakeup for a spurious one.
   */
  lemma NoLostWakeup(t: State, u: nat)
    requires Reachable(t) && u < |t.threads| && (t.threads[u].phase.Sleeping? || t.threads[u].phase.Marking?)
    ensures var w := t.threads[u].worker;
            w < |t.workers| && (t.workers[w].publicQueue != [] ==>
              t.workers[w].found && (t.workers[w].tokens > 0 || Enabled(t, Release(w))))
  {
    ReachableInv(t);
    assert ThreadOk(t, u) && WorkerOk(t, t.threads[u].worker);
  }

  /** The pool has nothing left to do by itself. */
  ghost predicate Quiet(t: State) {
    && (forall u: nat :: !Enabled(t, Step(u)) && !Enabled(t, Balance(u)))
    && (forall w: nat :: !Enabled(t, Release(w)))
  }

  lemma SleepsOrGoesOn(t: State, u: nat)
    requires Inv(t) && u < |t.threads| && !t.threads[u].phase.Retired?
    ensures t.threads[u].phase.Sleeping? || Enabled(t, Step(u)) || Enabled(t, Balance(u))
  {
    assert ThreadOk(t, u);
    var p := t.threads[u].phase;
    assert p.Donating? && p.plan != [] ==> Targets(p.plan)[0] == p.plan[0].target;
  }

  lemma QuietThread(t: State, u: nat)
    requires Inv(t) && Quiet(t) && u < |t.threads| && !t.threads[u].phase.Retired?
    ensures t.threads[u].phase.Sleeping?
  {
    SleepsOrGoesOn(t, u);
  }

  lemma QuietWorker(t: State, w: nat)
    requires Inv(t) && Quiet(t) && w < |t.workers|
    ensures t.workers[w].privateQueue == []
    ensures t.workers[w].publicQueue != [] ==> Stranded(t, w)
  {
    assert WorkerOk(t, w);
    if !t.workers[w].idle {
      var u := t.workers[w].thread.value;
      QuietThread(t, u);
      assert ThreadOk(t, u);
      assert !Enabled(t, Step(u)) && !Enabled(t, Release(w));
    }
  }

  ghost predicate InStrandedQueue(t: State, x: Task) {
    exists w: nat | w < |t.workers| :: Stranded(t, w) && x in t.workers[w].publicQueue
  }

  /**
   When the threads have come to rest, a task has either run, exactly once, or it sits in a stranded
   queue; so every task has run if and only if no queue is stranded.
   */
  lemma RestsOnlyWhenRunOrStranded(t: State)
    requires Reachable(t) && Quiet(t)
    ensures forall x: Task | x < t.next :: multiset(t.finished)[x] == if InStrandedQueue(t, x) then 0 else 1
    ensures (forall x: Task | x < t.next :: x in t.finished) <==> (forall w: nat | w < |t.workers| :: !Stranded(t, w))
  {
    ReachableInv(t);
    forall x: Task | x < t.next
      ensures multiset(t.finished)[x] == if InStrandedQueue(t, x) then 0 else 1
      ensures x in t.finished <==> !InStrandedQueue(t, x)
    {
      RestOf(t, x);
      assert x in t.finished <==> x in multiset(t.finished);
    }
    forall w: nat | w < |t.workers| && Stranded(t, w)
      ensures t.workers[w].publicQueue[0] < t.next && InStrandedQueue(t, t.workers[w].publicQueue[0])
    {
      StrandedTaskIsKnown(t, w, t.workers[w].publicQueue[0]);
    }
  }

  lemma StrandedTaskIsKnown(t: State, w: nat, x: Task)
    requires Conserved(t) && w < |t.workers| && x in t.workers[w].publicQueue
    ensures x < t.next
  {
    SumAtLeast(t.workers, InQueues(x));
    SumAtLeast(t.threads, InHands(x));
    assert InQueues(x)(t.workers[w]) > 0;
    assert Count(t, x) > 0;
  }

  lemma RestOf(t: State, x: Task)
    requires Inv(t) && Conserved(t) && Quiet(t) && x < t.next
    ensures multiset(t.finished)[x] == if InStrandedQueue(t, x) then 0 else 1
  {
    SumAtLeast(t.workers, InQueues(x));
    assert Sum(t.threads, InHands(x)) == 0 by {
      forall u: nat | u < |t.threads| ensures InHands(x)(t.threads[u]) == 0 {
        if !t.threads[u].phase.Retired? { QuietThread(t, u); }
      }
      SumZero(t.threads, InHands(x));
    }
    if w: nat :| w < |t.workers| && Stranded(t, w) && x in t.workers[w].publicQueue {
      assert InQueues(x)(t.workers[w]) > 0;
      assert Count(t, x) == 1;
    } else {
      forall w: nat | w < |t.workers| ensures InQueues(x)(t.workers[w]) == 0 { QuietWorker(t, w); }
      SumZero(t.workers, InQueues(x));
      assert Count(t, x) == 1;
    }
  }

  lemma {:induction false} ExecutesAppend(s: State, trace: seq<Action>, t: State, a: Action)
    requires Executes(s, trace, t) && Enabled(t, a)
    ensures Executes(s, trace + [a], Next(t, a))
    decreases |trace|
  {
    if trace == [] {
      assert (trace + [a])[1..] == [];
    } else {
      assert (trace + [a])[1..] == trace[1..] + [a];
      ExecutesAppend(Next(s, trace[0]), trace[1..], t, a);
    }
  }

  lemma ReachableStep(t: State, a: Action, t': State)
    requires Reachable(t) && Enabled(t, a) && t' == Next(t, a)
    ensures Reachable(t')
  {
    var s, trace :| Init(s) && Executes(s, trace, t);
    ExecutesAppend(s, trace, t, a);
  }

  // ---------------------------------------------------------------- stranded queues over a whole run

  ghost predicate StepAt(states: seq<State>, actions: seq<Action>, k: nat)
    requires k < |actions| < |states|
  {
    Enabled(states[k], actions[k]) && states[k + 1] == Next(states[k], actions[k])
  }

  /** A run: the states and, between each two, the action taken. */
  ghost predicate IsRun(states: seq<State>, actions: seq<Action>) {
    && |states| == |actions| + 1
    && Init(states[0])
    && forall k: nat | k < |actions| :: StepAt(states, actions, k)
  }

  lemma {:induction false} RunIsReachable(states: seq<State>, actions: seq<Action>, k: nat)
    requires IsRun(states, actions) && k <= |actions|
    ensures Reachable(states[k])
  {
    if k == 0 {
      assert Executes(states[0], [], states[0]);
    } else {
      RunIsReachable(states, actions, k - 1);
      assert StepAt(states, actions, k - 1);
      ReachableStep(states[k - 1], actions[k - 1], states[k]);
    }
  }

  /** The k-th step of the run is a late retirement of the worker's thread. */
  ghost predicate LateAt(states: seq<State>, actions: seq<Action>, k: nat, w: nat) {
    && k < |actions| < |states| && w < |states[k].workers|
    && Enabled(states[k], actions[k]) && RetiresTooLate(states[k], actions[k], w)
  }

  ghost predicate DeliveredAt(states: seq<State>, actions: seq<Action>, k: nat, w: nat) {
    k < |actions| < |states| && Enabled(states[k], actions[k]) && Delivers(states[k], actions[k], w)
  }

  /** A late retirement at step j that nothing has made good before step k. */
  ghost predicate LateUntil(states: seq<State>, actions: seq<Action>, j: nat, k: nat, w: nat) {
    j < k && LateAt(states, actions, j, w) && forall m: nat | j < m < k :: !DeliveredAt(states, actions, m, w)
  }

  ghost predicate Late(states: seq<State>, actions: seq<Action>, k: nat, w: nat) {
    exists j: nat :: LateUntil(states, actions, j, k, w)
  }

  /** Something is delivered to the worker after step j. */
  ghost predicate MadeGood(states: seq<State>, actions: seq<Action>, j: nat, w: nat) {
    exists m: nat | j < m :: DeliveredAt(states, actions, m, w)
  }

  /** A queue is stranded if and only if the last late retirement of its worker has not been made good. */
  lemma {:induction false} StrandedIffLate(states: seq<State>, actions: seq<Action>, k: nat, w: nat)
    requires IsRun(states, actions) && k <= |actions| && w < |states[0].workers|
    ensures |states[k].workers| == |states[0].workers|
    ensures Stranded(states[k], w) <==> Late(states, actions, k, w)
  {
    if k > 0 {
      StrandedIffLate(states, actions, k - 1, w);
      assert StepAt(states, actions, k - 1);
      RunIsReachable(states, actions, k - 1);
      ReachableInv(states[k - 1]);
      StrandedAfter(states[k - 1], actions[k - 1], w);
      if LateAt(states, actions, k - 1, w) {
        assert LateUntil(states, actions, k - 1, k, w);
      } else {
        LateStep(states, actions, k, w);
      }
    }
  }

  lemma LateStep(states: seq<State>, actions: seq<Action>, k: nat, w: nat)
    requires 0 < k <= |actions| < |states| && !LateAt(states, actions, k - 1, w)
    ensures Late(states, actions, k, w) <==> Late(states, actions, k - 1, w) && !DeliveredAt(states, actions, k - 1, w)
  {
    var before := k - 1;
    if j: nat :| LateUntil(states, actions, j, k, w) {
      assert LateUntil(states, actions, j, before, w) && !DeliveredAt(states, actions, before, w);
    }
    if j: nat :| LateUntil(states, actions, j, before, w) {
      assert !DeliveredAt(states, actions, before, w) ==> LateUntil(states, actions, j, k, w);
    }
  }

  /**
   Exactly when every task is run: the threads have come to rest, and every thread that retired late
   was followed by a delivery to its worker.
   */
  lemma AllRunIffLateRetirementsAreMadeGood(states: seq<State>, actions: seq<Action>)
    requires IsRun(states, actions) && Quiet(states[|actions|])
    ensures (forall x: Task | x < states[|actions|].next :: x in states[|actions|].finished)
       <==> (forall j: nat, w: nat | LateAt(states, actions, j, w) :: MadeGood(states, actions, j, w))
  {
    var n := |actions|;
    RunIsReachable(states, actions, n);
    RestsOnlyWhenRunOrStranded(states[n]);
    WorkersStay(states, actions, n);
    forall w: nat | w < |states[0].workers| ensures Stranded(states[n], w) <==> Late(states, actions, n, w) {
      StrandedIffLate(states, actions, n, w);
    }
    forall j: nat, w: nat | LateAt(states, actions, j, w)
      ensures w < |states[n].workers|
      ensures LateUntil(states, actions, j, n, w) <==> !MadeGood(states, actions, j, w)
      ensures !MadeGood(states, actions, j, w) ==> Stranded(states[n], w)
    {
      WorkersStay(states, actions, j);
      assert LateUntil(states, actions, j, n, w) ==> Late(states, actions, n, w);
    }
    if w: nat :| w < |states[n].workers| && Stranded(states[n], w) {
      var j: nat :| LateUntil(states, actions, j, n, w);
      assert LateAt(states, actions, j, w) && !MadeGood(states, actions, j, w);
    }
  }

  lemma {:induction false} WorkersStay(states: seq<State>, actions: seq<Action>, k: nat)
    requires IsRun(states, actions) && k <= |actions|
    ensures |states[k].workers| == |states[0].workers|
  {
    if k > 0 {
      WorkersStay(states, actions, k - 1);
      assert StepAt(states, actions, k - 1);
      SameNumber(states[k - 1], actions[k - 1]);
    }
  }

  lemma SameNumber(s: State, a: Action)
    requires Enabled(s, a)
    ensures |Next(s, a).workers| == |s.workers|
  {
  }

  /** A run without late retirements runs everything. */
  lemma AllRunWithoutLateRetirements(states: seq<State>, actions: seq<Action>)
    requires IsRun(states, actions) && Quiet(states[|actions|])
    requires forall j: nat, w: nat :: !LateAt(states, actions, j, w)
    ensures forall x: Task | x < states[|actions|].next :: multiset(states[|actions|].finished)[x] == 1
  {
    var t := states[|actions|];
    AllRunIffLateRetirementsAreMadeGood(states, actions);
    RunIsReachable(states, actions, |actions|);
    forall x: Task | x < t.next ensures multiset(t.finished)[x] == 1 {
      EveryTaskIsInOnePlace(t, x);
      assert x in t.finished && x in multiset(t.finished);
    }
  }

  // ---------------------------------------------------------------- runs of a pool with one worker

  function Alone(x: Worker, p: Phase, finished: seq<Task>, next: nat): State {
    State([x], [Thread(0, p)], finished, next, false)
  }

  /** Its worker while thread 0 is in charge and no task is queued. */
  const BUSY := INITIAL_WORKER.(idle := false, thread := Some(0))

  /** The first task starts a thread, which takes it over. */
  lemma StartThread()
    ensures Reachable(Alone(BUSY.(privateQueue := [0]), Balancing([]), [], 1))
  {
    var s := State([INITIAL_WORKER], [], [], 0, false);
    assert Executes(s, [], s);
    var none: seq<Task> := [];
    assert none + Fresh(0, 1) == [0];
    var s' := Alone(BUSY.(publicQueue := [0], found := true), AtLock, [], 1);
    assert Next(s, Enqueue(0, 1)).workers == s'.workers;
    ReachableStep(s, Enqueue(0, 1), s');
    ReachableStep(s', Step(0), Alone(BUSY.(privateQueue := [0]), Balancing([]), [], 1));
  }

  lemma TakeFirst()
    ensures Reachable(Alone(BUSY, Running(0), [], 1))
  {
    StartThread();
    var x := BUSY.(privateQueue := [0]);
    ReachableStep(Alone(x, Balancing([]), [], 1), Balance(0), Alone(x, Donating([]), [], 1));
    ReachableStep(Alone(x, Donating([]), [], 1), Step(0), Alone(x, Taking, [], 1));
    ReachableStep(Alone(x, Taking, [], 1), Step(0), Alone(BUSY, Running(0), [], 1));
  }

  /** The task is run, and the thread goes to sleep. */
  lemma FinishFirst()
    ensures Reachable(Alone(BUSY, AtLock, [0], 1))
  {
    TakeFirst();
    ReachableStep(Alone(BUSY, Running(0), [], 1), Step(0), Alone(BUSY, Balancing([]), [0], 1));
    ReachableStep(Alone(BUSY, Balancing([]), [0], 1), Step(0), Alone(BUSY, AtLock, [0], 1));
  }

  lemma GoToSleep()
    ensures Reachable(Alone(BUSY, Sleeping, [0], 1))
  {
    FinishFirst();
    ReachableStep(Alone(BUSY, AtLock, [0], 1), Step(0), Alone(BUSY, Marking, [0], 1));
    ReachableStep(Alone(BUSY, Marking, [0], 1), Step(0), Alone(BUSY, Sleeping, [0], 1));
  }

  /** Somebody has claimed the idle worker and enqueued to it, and has still to release the semaphore. */
  const SERVED := BUSY.(publicQueue := [1], found := true, releases := 1, marked := false)

  lemma AppendOne(x: Worker)
    requires x == BUSY.(marked := false, claims := 1)
    ensures Accept(x.(claims := 0), Fresh(1, 1), 1) == SERVED
  {
    var none: seq<Task> := [];
    assert none + Fresh(1, 1) == [1];
  }

  lemma ClaimFirst(p: Phase)
    requires Reachable(Alone(BUSY, p, [0], 1))
    ensures Reachable(Alone(BUSY.(marked := false, claims := 1), p, [0], 1))
  {
    ReachableStep(Alone(BUSY, p, [0], 1), ClaimFor(0), Alone(BUSY.(marked := false, claims := 1), p, [0], 1));
  }

  lemma ClaimAndEnqueue(p: Phase)
    requires Reachable(Alone(BUSY, p, [0], 1))
    ensures Reachable(Alone(SERVED, p, [0], 2))
  {
    var x := BUSY.(marked := false, claims := 1);
    ClaimFirst(p);
    AppendOne(x);
    ReachableStep(Alone(x, p, [0], 1), EnqueueClaimed(0, 1), Alone(SERVED, p, [0], 2));
  }

  /**
   Between the end of the enqueuer's region and its release a thread sleeps without a token although
   its public queue is not empty.
   */
  lemma SleepsUntilReleased()
    ensures exists t :: Reachable(t) && t.threads == [Thread(0, Sleeping)] && |t.workers| == 1
              && t.workers[0].publicQueue == [1] && !Enabled(t, Step(0)) && Enabled(t, Release(0))
  {
    GoToSleep();
    ClaimAndEnqueue(Sleeping);
    var t := Alone(SERVED, Sleeping, [0], 2);
    assert !Enabled(t, Step(0)) && Enabled(t, Release(0));
  }

  /** The end of the run: nobody is in charge, and the worker is not marked idle either. */
  const ABANDONED := INITIAL_WORKER.(publicQueue := [1], thread := Some(0), tokens := 1, found := true,
                                     marked := false, stranded := true)

  lemma EnqueueTooLate()
    ensures Reachable(Alone(SERVED, TimedOut, [0], 2))
  {
    GoToSleep();
    ReachableStep(Alone(BUSY, Sleeping, [0], 1), Timeout(0), Alone(BUSY, TimedOut, [0], 1));
    ClaimAndEnqueue(TimedOut);
  }

  lemma RetireTooLate()
    ensures Reachable(State([ABANDONED], [Thread(0, Retired)], [0], 2, false))
  {
    EnqueueTooLate();
    var y := Released(SERVED);
    ReachableStep(Alone(SERVED, TimedOut, [0], 2), Release(0), Alone(y, TimedOut, [0], 2));
    ReachableStep(Alone(y, TimedOut, [0], 2), Step(0), State([ABANDONED], [Thread(0, Retired)], [0], 2, false));
  }

  /**
   A run that ends with a task that nobody will run until something else is enqueued to its worker;
   and no scan for idle workers finds that worker.
   */
  lemma StrandedTask()
    ensures exists t :: Reachable(t) && Quiet(t) && t.next == 2 && t.finished == [0]
              && |t.workers| == 1 && Stranded(t, 0) && !t.workers[0].marked && t.workers[0].claims == 0
  {
    RetireTooLate();
    var t := State([ABANDONED], [Thread(0, Retired)], [0], 2, false);
    assert forall u: nat :: !Enabled(t, Step(u)) && !Enabled(t, Balance(u));
    assert forall w: nat :: !Enabled(t, Release(w));
    assert Stranded(t, 0);
  }

  // ---------------------------------------------------------------- the worker as an object

  /** thread_pool_worker. Methods that hold the mutex are regions; the others run on its thread. */
  class ThreadPoolWorker {
    var publicQueue: seq<Task>
    var privateQueue: seq<Task>
    var idle: bool
    var thread: Option<nat>
    var tokens: nat
    var found: bool
    var marked: bool
    ghost var releases: nat
    ghost var claims: nat
    ghost var stranded: bool

    ghost function Value(): Worker
      reads this
    {
      Worker(publicQueue, privateQueue, idle, thread, tokens, releases, found, marked, claims, stranded)
    }

    /** The region of enqueue_foreign: a thread to join, and whether the semaphore is to be released after it. */
    method EnqueueForeign(tasks: seq<Task>, newThread: nat) returns (stale: Option<nat>, release: bool)
      modifies this
      ensures Value() == Accept(old(Value()), tasks, newThread)
      ensures publicQueue == old(publicQueue) + tasks && privateQueue == old(privateQueue)
      ensures found && !idle && thread == if old(idle) then Some(newThread) else old(thread)
      ensures tokens == old(tokens) && marked == old(marked)
      ensures stale == if old(idle) then old(thread) else None
      ensures release == (!old(idle) && old(publicQueue) == [])
    {
      found := true;
      var isEmpty := publicQueue == [];
      publicQueue := publicQueue + tasks;
      stale, release := EnsureWorkerActive(isEmpty, newThread);
    }

    /** Whoever makes the queue of a busy worker non-empty owes it a release. */
    method EnsureWorkerActive(firstEnqueuer: bool, newThread: nat) returns (stale: Option<nat>, release: bool)
      modifies `idle, `thread, `releases, `stranded
      ensures !idle && (old(idle) ==> thread == Some(newThread) && stale == old(thread) && !stranded)
      ensures release == (!old(idle) && firstEnqueuer) && releases == old(releases) + if release then 1 else 0
      ensures !old(idle) ==> thread == old(thread) && stale == None && stranded == old(stranded)
    {
      stale := None;
      if !idle {
        release := firstEnqueuer;
        if release { releases := releases + 1; }
        return;
      }
      release := false;
      stale := thread;
      thread := Some(newThread);
      idle := false;
      stranded := false;
    }

    /** The release of the semaphore, after the mutex has been unlocked. */
    method ReleaseSemaphore()
      requires releases > 0
      modifies `tokens, `releases
      ensures Value() == Released(old(Value()))
      ensures tokens == old(tokens) + 1 && releases == old(releases) - 1
    {
      tokens := tokens + 1;
      releases := releases - 1;
    }

    /** The end of drain_queue's region: whatever was in the public queue is now private. */
    method TakeOver(hasWaited: bool)
      requires publicQueue != [] && privateQueue == []
      modifies this
      ensures Value() == Swapped(old(Value()), !hasWaited)
      ensures privateQueue == old(publicQueue) && publicQueue == [] && !found
      ensures marked == (old(marked) && !hasWaited)
      ensures idle == old(idle) && thread == old(thread) && tokens == old(tokens)
    {
      if hasWaited { marked := false; }
      found := false;
      privateQueue, publicQueue := publicQueue, privateQueue;
    }

    /** One round of drain_queue_impl: donate the front of the private queue, take the back of what is kept. */
    method BalanceAndPop(idleCount: nat) returns (donated: seq<Task>, task: Task)
      requires idleCount < |privateQueue|
      modifies `privateQueue
      ensures old(privateQueue) == donated + privateQueue + [task]
      ensures |privateQueue| + 1 == |old(privateQueue)| / (idleCount + 1)
    {
      var given, kept := BalanceWork(privateQueue, idleCount);
      donated := Flatten(given);
      var last := |kept| - 1;
      assert kept == kept[..last] + [kept[last]];
      task := kept[last];
      privateQueue := kept[..last];
    }

    /** The i-th round of the loop. */
    method DrainRound(claims: seq<nat>, spawns: seq<seq<Task>>, i: nat) returns (round: Round)
      requires privateQueue != []
      modifies `privateQueue
      ensures AsGiven(round, i, claims, spawns)
      ensures round.before == old(privateQueue) == round.donated + round.rest + [round.task]
      ensures privateQueue == round.rest + round.spawned
      ensures i >= |spawns| ==> |privateQueue| < |old(privateQueue)|
    {
      var before := privateQueue;
      var donated, task := BalanceAndPop(Claimed(claims, i, |before|));
      var spawned := if i < |spawns| then spawns[i] else [];
      round := Round(before, donated, privateQueue, task, spawned);
      privateQueue := privateQueue + spawned;
    }

    /**
     drain_queue_impl. In its i-th round the loop claims `claims[i]` idle workers, if that many tasks
     can be spared, and the job that it runs enqueues `spawns[i]` locally. It stops with an empty
     private queue.
     */
    method DrainQueueImpl(claims: seq<nat>, spawns: seq<seq<Task>>) returns (rounds: seq<Round>)
      modifies `privateQueue
      ensures privateQueue == [] && Leads(old(privateQueue), rounds, [])
      ensures forall i | 0 <= i < |rounds| :: AsGiven(rounds[i], i, claims, spawns)
    {
      rounds := [];
      while privateQueue != []
        invariant Leads(old(privateQueue), rounds, privateQueue)
        invariant forall i | 0 <= i < |rounds| :: AsGiven(rounds[i], i, claims, spawns)
        decreases Remaining(spawns, |rounds|), |privateQueue|
      {
        var i := |rounds|;
        ghost var sofar := rounds;
        var round := DrainRound(claims, spawns, i);
        rounds := rounds + [round];
        assert rounds[..i] == sofar;
      }
    }
  }

  /** One round: some tasks are donated, the last one of those kept is run and enqueues others. */
  datatype Round = Round(before: seq<Task>, donated: seq<Task>, rest: seq<Task>, task: Task, spawned: seq<Task>)

  /** How many idle workers the i-th round claims when there are n tasks. */
  function Claimed(claims: seq<nat>, i: nat, n: nat): nat
    requires n > 0
  {
    if i < |claims| then Min(claims[i], n - 1) else 0
  }

  /** The i-th round donated all but its share, and its task enqueued what it was given to enqueue. */
  ghost predicate AsGiven(r: Round, i: nat, claims: seq<nat>, spawns: seq<seq<Task>>) {
    && r.before != []
    && (var n := |r.before|;
        var k := if i >= |claims| then 0 else if claims[i] < n then claims[i] else n - 1;
        |r.rest| + 1 == n / (k + 1))
    && r.spawned == if i < |spawns| then spawns[i] else []
  }

  /** Rounds that lead from one content of the private queue to another. */
  ghost predicate Leads(first: seq<Task>, rounds: seq<Round>, queue: seq<Task>) {
    if rounds == [] then first == queue
    else
      var r := rounds[|rounds| - 1];
      && Leads(first, rounds[..|rounds| - 1], r.before)
      && r.before == r.donated + r.rest + [r.task] && queue == r.rest + r.spawned
  }

  ghost function Ran(x: Task): Round -> int { (r: Round) => if r.task == x then 1 else 0 }
  ghost function Given(x: Task): Round -> int { (r: Round) => multiset(r.donated)[x] }
  ghost function Spawned(x: Task): Round -> int { (r: Round) => multiset(r.spawned)[x] }

  /** Whatever was in the queue or has been enqueued locally since is run, donated or still there, as often. */
  lemma {:induction false} DrainConserves(first: seq<Task>, rounds: seq<Round>, queue: seq<Task>, x: Task)
    requires Leads(first, rounds, queue)
    ensures Sum(rounds, Ran(x)) + Sum(rounds, Given(x)) + multiset(queue)[x]
         == multiset(first)[x] + Sum(rounds, Spawned(x))
  {
    if rounds != [] {
      var r := rounds[|rounds| - 1];
      DrainConserves(first, rounds[..|rounds| - 1], r.before, x);
      assert multiset(r.before)[x] == multiset(r.donated)[x] + multiset(r.rest)[x] + multiset([r.task])[x];
    }
  }

  function Remaining<T>(s: seq<T>, n: nat): nat {
    if n < |s| then |s| - n else 0
  }

  /** All donations together, in order. */
  method Flatten(ss: seq<seq<Task>>) returns (r: seq<Task>)
    ensures r == Concat(ss)
  {
    r := [];
    for i := 0 to |ss|
      invariant r == Concat(ss[..i])
    {
      assert ss[..i + 1][..i] == ss[..i];
      r := r + ss[i];
    }
    assert ss[..|ss|] == ss;
  }
}
