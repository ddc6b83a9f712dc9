/**
 The executor that starts one thread per task. A thread that has run its task retires: it swaps
 itself into `m_last_retired` and joins whoever was there before; `shutdown` joins the last one.
 */
module ThreadExecutor {

  type Tid = nat

  /** The memory guarded by the executor's mutex. */
  datatype Lists = Lists(workers: set<Tid>, lastRetired: seq<Tid>, abort: bool)

  /** retire_worker up to the unlock: the previous retiree is now the caller's to join. */
  function RetireRegion(l: Lists, t: Tid): (Lists, seq<Tid>) {
    (l.(workers := l.workers - {t}, lastRetired := [t]), l.lastRetired)
  }

  class ThreadExecutor {
    var workers: set<Tid>
    var lastRetired: seq<Tid>
    var abort: bool

    function View(): Lists reads this { Lists(workers, lastRetired, abort) }

    constructor ()
      ensures View() == Lists({}, [], false)
    {
      workers, lastRetired, abort := {}, [], false;
    }

    /** Starts one thread per task, unless the executor is shut down. */
    method Enqueue(threads: seq<Tid>) returns (accepted: bool)
      modifies this
      ensures accepted == !old(abort)
      ensures View() == old(View()).(workers := old(workers) + if accepted then set t | t in threads else {})
      ensures forall t: Tid :: t in workers <==> t in old(workers) || (accepted && t in threads)
    {
      if abort {
        return false;
      }
      for k := 0 to |threads|
        invariant View() == old(View()).(workers := old(workers) + set t | t in threads[..k])
      {
        workers := workers + {threads[k]};
      }
      assert threads[..|threads|] == threads;
      return true;
    }

    method RetireWorker(t: Tid) returns (toJoin: seq<Tid>)
      modifies this
      ensures (View(), toJoin) == RetireRegion(old(View()), t)
      ensures toJoin == old(lastRetired) && lastRetired == [t]
      ensures workers == old(workers) - {t} && abort == old(abort)
    {
      toJoin := lastRetired;
      lastRetired := [t];
      workers := workers - {t};
    }
  }

  // ---------------------------------------------------------------- the step system

  datatype Thread = Running | Joining(target: Tid) | Terminated

  datatype Shutdown =
    | NotCalled
    | Flagged                  // the atomic flag is set, the mutex still to be locked
    | Waiting                  // for the worker list to become empty
    | JoiningLast(target: Tid) // with the mutex locked
    | Returned

  datatype State = State(
    lists: Lists,
    threads: seq<Thread>,      // every thread ever started
    joins: seq<nat>,           // how often each of them has been joined
    retired: seq<Tid>,         // the order of retirement
    shutdown: Shutdown)

  datatype Action =
    | Enqueue                  // of one task; a span of tasks is that many of them
    | Retire(t: Tid)
    | Join(t: Tid)             // the join made by thread t returns
    | CallShutdown
    | ShutdownStep

  ghost predicate Init(s: State) {
    s == State(Lists({}, [], false), [], [], [], NotCalled)
  }

  predicate Enabled(s: State, a: Action) {
    match a
    case Enqueue => !s.shutdown.JoiningLast?
    case Retire(t) => t < |s.threads| && s.threads[t].Running? && !s.shutdown.JoiningLast?
    case Join(t) =>
      && t < |s.threads| && s.threads[t].Joining?
      && s.threads[t].target < |s.threads| == |s.joins| && s.threads[s.threads[t].target].Terminated?
    case CallShutdown => true
    case ShutdownStep =>
      match s.shutdown
      case NotCalled => false
      case Flagged => true
      case Waiting => s.lists.workers == {}
      case JoiningLast(x) => x < |s.threads| == |s.joins| && s.threads[x].Terminated?
      case Returned => false
  }

  function Next(s: State, a: Action): State
    requires Enabled(s, a)
  {
    match a
    case Enqueue =>
      if s.lists.abort then s   // throws
      else s.(lists := s.lists.(workers := s.lists.workers + {|s.threads|}),
              threads := s.threads + [Running], joins := s.joins + [0])
    case Retire(t) =>
      var (lists, toJoin) := RetireRegion(s.lists, t);
      s.(lists := lists, retired := s.retired + [t],
         threads := s.threads[t := if toJoin == [] then Terminated else Joining(toJoin[0])])
    case Join(t) =>
      var x := s.threads[t].target;
      s.(threads := s.threads[t := Terminated], joins := s.joins[x := s.joins[x] + 1])
    case CallShutdown => if s.shutdown.NotCalled? then s.(shutdown := Flagged) else s
    case ShutdownStep =>
      match s.shutdown
      case Flagged => s.(lists := s.lists.(abort := true), shutdown := Waiting)
      case Waiting =>
        s.(shutdown := if s.lists.lastRetired == [] then Returned else JoiningLast(s.lists.lastRetired[0]))
      case JoiningLast(x) =>
        s.(lists := s.lists.(lastRetired := []), joins := s.joins[x := s.joins[x] + 1], shutdown := Returned)
      case _ => s
  }

  ghost predicate Executes(s: State, trace: seq<Action>, t: State)
    decreases |trace|
  {
    if trace == [] then s == t
    else Enabled(s, trace[0]) && Executes(Next(s, trace[0]), trace[1..], t)
  }

  ghost predicate Reachable(t: State) {
    exists s, trace :: Init(s) && Executes(s, trace, t)
  }

  // ---------------------------------------------------------------- the join chain

  /** What is known of the p-th thread to retire: its predecessor is its to join, and it does so once. */
  predicate Link(s: State, p: nat)
    requires p < |s.retired| && |s.joins| == |s.threads|
  {
    var t := s.retired[p];
    && t < |s.threads| && !s.threads[t].Running?
    && (p == 0 ==> s.threads[t].Terminated?)
    && (s.threads[t].Joining? ==> p > 0 && s.threads[t].target == s.retired[p - 1])
    && s.joins[t] == (if p + 1 < |s.retired| then if Done(s, s.retired[p + 1]) then 1 else 0
                      else if s.shutdown.Returned? then 1 else 0)
    && (s.joins[t] > 0 ==> s.threads[t].Terminated?)
  }

  predicate Done(s: State, t: Tid) { t < |s.threads| && s.threads[t].Terminated? }

  ghost predicate Inv(s: State) {
    && |s.joins| == |s.threads|
    && (forall t | t in s.retired :: t < |s.threads|)
    && (forall p, q | 0 <= p < q < |s.retired| :: s.retired[p] != s.retired[q])
    && (forall p | 0 <= p < |s.retired| :: Link(s, p))
    && (forall t | 0 <= t < |s.threads| :: s.threads[t].Running? ==> s.joins[t] == 0 && t !in s.retired)
    && (forall t | 0 <= t < |s.threads| :: !s.threads[t].Running? ==> t in s.retired)
    && (forall t: nat :: t in s.lists.workers <==> t < |s.threads| && s.threads[t].Running?)
    && (s.lists.abort <==> s.shutdown.Waiting? || s.shutdown.JoiningLast? || s.shutdown.Returned?)
    && (s.shutdown.JoiningLast? || s.shutdown.Returned? ==> s.lists.workers == {})
    && s.lists.lastRetired == (if s.retired == [] || s.shutdown.Returned? then [] else [s.retired[|s.retired| - 1]])
    && (s.shutdown.JoiningLast? ==> s.retired != [] && s.shutdown.target == s.retired[|s.retired| - 1])
  }

  lemma EnqueueKeepsInv(s: State)
    requires Inv(s) && Enabled(s, Enqueue)
    ensures Inv(Next(s, Enqueue))
  {
    var t := Next(s, Enqueue);
    forall p | 0 <= p < |t.retired| ensures Link(t, p) {
      assert Link(s, p);
      assert p + 1 < |s.retired| ==> Link(s, p + 1);
    }
  }

  lemma RetireKeepsInv(s: State, x: Tid)
    requires Inv(s) && Enabled(s, Retire(x))
    ensures Inv(Next(s, Retire(x)))
  {
    var t := Next(s, Retire(x));
    assert x in s.lists.workers;
    forall p | 0 <= p < |t.retired| ensures Link(t, p) {
      if p < |s.retired| { assert Link(s, p); }
      if p + 1 < |s.retired| { assert Link(s, p + 1); }
    }
    forall y | 0 <= y < |t.threads| && !t.threads[y].Running? ensures y in t.retired {
      if y == x { assert t.retired[|s.retired|] == x; }
    }
  }

  lemma JoinKeepsInv(s: State, x: Tid)
    requires Inv(s) && Enabled(s, Join(x))
    ensures Inv(Next(s, Join(x)))
  {
    var t := Next(s, Join(x));
    var q :| 0 <= q < |s.retired| && s.retired[q] == x;
    assert Link(s, q);
    forall p | 0 <= p < |t.retired| ensures Link(t, p) {
      assert Link(s, p);
      if p + 1 < |s.retired| { assert Link(s, p + 1); }
    }
  }

  lemma ShutdownKeepsInv(s: State)
    requires Inv(s) && Enabled(s, ShutdownStep)
    ensures Inv(Next(s, ShutdownStep))
  {
    var t := Next(s, ShutdownStep);
    forall p | 0 <= p < |t.retired| ensures Link(t, p) {
      assert Link(s, p);
      if p + 1 < |s.retired| { assert Link(s, p + 1); }
    }
  }

  lemma StepKeepsInv(s: State, a: Action)
    requires Inv(s) && Enabled(s, a)
    ensures Inv(Next(s, a))
  {
    match a
    case Enqueue => EnqueueKeepsInv(s);
    case Retire(t) => RetireKeepsInv(s, t);
    case Join(t) => JoinKeepsInv(s, t);
    case ShutdownStep => ShutdownKeepsInv(s);
    case CallShutdown =>
      forall p | 0 <= p < |s.retired| ensures Link(Next(s, a), p) { assert Link(s, p); }
  }

  lemma {:induction false} RunKeepsInv(s: State, trace: seq<Action>, t: State)
    requires Inv(s) && Executes(s, trace, t)
    ensures Inv(t)
    decreases |trace|
  {
    if trace != [] {
      StepKeepsInv(s, trace[0]);
      RunKeepsInv(Next(s, trace[0]), trace[1..], t);
    }
  }

  lemma ReachableInv(t: State)
    requires Reachable(t)
    ensures Inv(t)
  {
    var s, trace :| Init(s) && Executes(s, trace, t);
    RunKeepsInv(s, trace, t);
  }

  // ---------------------------------------------------------------- what every run guarantees

  /** At most one thread is parked, no thread joins itself, none is joined twice or before it has ended. */
  lemma JoinsAreSafe(t: State)
    requires Reachable(t)
    ensures |t.lists.lastRetired| <= 1
    ensures forall x | 0 <= x < |t.threads| && t.threads[x].Joining? :: t.threads[x].target != x
    ensures |t.joins| == |t.threads|
    ensures forall x | 0 <= x < |t.threads| :: t.joins[x] <= 1 && (t.joins[x] == 1 ==> t.threads[x].Terminated?)
  {
    ReachableInv(t);
    forall x | 0 <= x < |t.threads|
      ensures t.joins[x] <= 1 && (t.joins[x] == 1 ==> t.threads[x].Terminated?)
      ensures t.threads[x].Joining? ==> t.threads[x].target != x
    {
      if !t.threads[x].Running? {
        var p :| 0 <= p < |t.retired| && t.retired[p] == x;
        assert Link(t, p);
      }
    }
  }

  /** The chain carries termination from the last thread to retire back to every earlier one. */
  lemma {:induction false} EarlierOnesEnded(s: State, p: nat, q: nat)
    requires Inv(s) && p <= q < |s.retired| && Done(s, s.retired[q])
    ensures Link(s, p) && s.threads[s.retired[p]].Terminated?
    ensures p < q ==> s.joins[s.retired[p]] == 1
    decreases q - p
  {
    if p < q {
      EarlierOnesEnded(s, p + 1, q);
      assert Link(s, p);
    }
  }

  /** When the first shutdown returns, every thread ever started has ended and was joined exactly once. */
  lemma ShutdownJoinsEverybody(t: State)
    requires Reachable(t) && t.shutdown.Returned?
    ensures |t.joins| == |t.threads|
    ensures forall x | 0 <= x < |t.threads| :: t.threads[x].Terminated? && t.joins[x] == 1
  {
    ReachableInv(t);
    forall x | 0 <= x < |t.threads| ensures t.threads[x].Terminated? && t.joins[x] == 1 {
      assert x !in t.lists.workers;
      var p :| 0 <= p < |t.retired| && t.retired[p] == x;
      assert Link(t, |t.retired| - 1);
      EarlierOnesEnded(t, p, |t.retired| - 1);
    }
  }

  /** The joins cannot deadlock: a thread that waits for its predecessor has one that can go on. */
  lemma {:induction false} ChainIsLive(s: State, p: nat)
    requires Inv(s) && p < |s.retired| && !Done(s, s.retired[p])
    ensures exists t :: Enabled(s, Join(t))
    decreases p
  {
    assert Link(s, p);
    assert Link(s, p - 1);
    if Done(s, s.retired[p - 1]) {
      assert Enabled(s, Join(s.retired[p]));
    } else {
      ChainIsLive(s, p - 1);
    }
  }

  /** A run that cannot go on without calls has ended all its threads and, once called, shutdown has returned. */
  lemma StopsOnlyWhenEnded(t: State)
    requires Reachable(t)
    requires forall a | Enabled(t, a) :: a.Enqueue? || a.CallShutdown?
    ensures forall x | 0 <= x < |t.threads| :: t.threads[x].Terminated?
    ensures t.shutdown.NotCalled? || t.shutdown.Returned?
  {
    ReachableInv(t);
    forall x | 0 <= x < |t.threads| ensures t.threads[x].Terminated? {
      if t.threads[x].Running? {
        assert x in t.lists.workers;
        assert Enabled(t, Retire(x));
      } else {
        var p :| 0 <= p < |t.retired| && t.retired[p] == x;
        if !Done(t, x) { ChainIsLive(t, p); }
      }
    }
    assert !Enabled(t, ShutdownStep);
    if t.shutdown.Waiting? {
      assert t.lists.workers == {};
    }
    if t.retired != [] { assert Link(t, |t.retired| - 1); }
  }
}
