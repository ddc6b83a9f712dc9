/**
 The coroutine condition variable. The first part is its list code on the heap; the second is
 the protocol between waiters, notifiers and the coroutine lock, one mutex action per step.
 */
module CondVar {
  import opened Prelude
  import opened SList

  // ---------------------------------------------------------------- the list code

  ghost predicate Apart(s: seq<Node>, t: seq<Node>) {
    forall i, j | 0 <= i < |s| && 0 <= j < |t| :: s[i] != t[j]
  }

  lemma TakeOne(s: seq<Node>, k: nat)
    requires k < |s|
    ensures s[k..][0] == s[k] && s[k..][1..] == s[k + 1..] && s[..k] + [s[k]] == s[..k + 1]
  {
  }

  class ConditionVariable {
    const awaiters: SList

    constructor ()
      ensures awaiters.Valid() && awaiters.nodes == [] && fresh(awaiters)
    {
      awaiters := new SList();
    }

    /** Dequeues the oldest waiter, if there is one, and resumes it. */
    method NotifyOne() returns (resumed: seq<Node>)
      requires awaiters.Valid()
      modifies awaiters
      ensures awaiters.Valid()
      ensures resumed + awaiters.nodes == old(awaiters.nodes)
      ensures |resumed| == if old(awaiters.nodes) == [] then 0 else 1
    {
      var awaiter := awaiters.PopFront();
      resumed := [];
      if awaiter != null {
        resumed := [awaiter];
      }
    }

    /**
     Resumes exactly the waiters found at the detach point, in order, and stops. New awaiters may
     arrive all along: when the k-th resumption returns the first `arrived[k]` of `arrivals` have.
     They all stay queued. A coroutine that was resumed may await again, in the very same node.
     */
    method NotifyAll(arrivals: seq<Node>, arrived: seq<nat>) returns (resumed: seq<Node>)
      requires awaiters.Valid() && NoDup(arrivals) && InTurn(awaiters.nodes, arrivals, arrived)
      modifies awaiters, arrivals
      ensures awaiters.Valid()
      ensures resumed == old(awaiters.nodes)
      ensures awaiters.nodes == arrivals[..Before(arrived, |arrived|)]
    {
      var detached := new SList.Move(awaiters);
      resumed := ResumeAll(detached, arrivals, arrived);
    }

    method ResumeAll(detached: SList, arrivals: seq<Node>, arrived: seq<nat>) returns (resumed: seq<Node>)
      requires detached != awaiters && detached.Valid() && awaiters.Valid() && awaiters.nodes == []
      requires NoDup(arrivals) && InTurn(detached.nodes, arrivals, arrived)
      modifies awaiters, detached, arrivals
      ensures awaiters.Valid()
      ensures resumed == old(detached.nodes)
      ensures awaiters.nodes == arrivals[..Before(arrived, |arrived|)]
    {
      ghost var waiters := detached.nodes;
      resumed := [];
      var count, more := 0, true;
      while more
        invariant |resumed| <= |waiters| && resumed == waiters[..|resumed|]
        invariant AfterRound(detached, waiters, arrivals, arrived, |resumed|, count)
        invariant !more ==> |resumed| == |waiters|
        decreases |waiters| - |resumed|, more
      {
        var awaiter;
        awaiter, count := ResumeRound(detached, waiters, arrivals, arrived, |resumed|, count);
        if awaiter == null {
          more := false;
        } else {
          TakeOne(waiters, |resumed|);
          resumed := resumed + [awaiter];
        }
      }
    }

    /** The first k waiters have been resumed, and the first `count` of the arrivals have come meanwhile. */
    ghost predicate AfterRound(detached: SList, waiters: seq<Node>, arrivals: seq<Node>, arrived: seq<nat>,
                               k: nat, count: nat)
      reads detached, detached.nodes, awaiters, awaiters.nodes
    {
      && detached.Valid() && awaiters.Valid()
      && k <= |waiters| == |arrived| && detached.nodes == waiters[k..]
      && count == Before(arrived, k) <= |arrivals| && awaiters.nodes == arrivals[..count]
    }

    method ResumeRound(detached: SList, ghost waiters: seq<Node>, arrivals: seq<Node>, arrived: seq<nat>,
                       k: nat, count: nat)
      returns (awaiter: Node?, upTo: nat)
      requires detached != awaiters && NoDup(arrivals) && InTurn(waiters, arrivals, arrived)
      requires AfterRound(detached, waiters, arrivals, arrived, k, count)
      modifies awaiters, detached, arrivals
      ensures awaiter == if k < |waiters| then waiters[k] else null
      ensures AfterRound(detached, waiters, arrivals, arrived, if awaiter == null then k else k + 1, upTo)
    {
      upTo := if k < |arrived| then arrived[k] else count;
      if k < |waiters| {
        StillApart(waiters, arrivals, arrived, k);
        TakeOne(waiters, k);
      }
      awaiter := ResumeNext(detached, arrivals, count, upTo);
    }

    /** One round of notify_all: others arrive while the popped awaiter is being resumed. */
    method ResumeNext(detached: SList, arrivals: seq<Node>, from: nat, upTo: nat) returns (awaiter: Node?)
      requires awaiters.Valid() && NoDup(arrivals)
      requires from <= upTo <= |arrivals| && awaiters.nodes == arrivals[..from]
      requires detached != awaiters && detached.Valid()
      requires detached.nodes != [] ==> Apart(detached.nodes[1..], arrivals[..upTo])
      modifies awaiters, detached, arrivals
      ensures detached.Valid() && awaiters.Valid()
      ensures awaiter == (if old(detached.nodes) == [] then null else old(detached.nodes)[0])
      ensures detached.nodes == if awaiter == null then [] else old(detached.nodes)[1..]
      ensures awaiters.nodes == arrivals[..if awaiter == null then from else upTo]
    {
      awaiter := detached.PopFront();
      if awaiter == null {
        return;
      }
      Arrive(arrivals, from, upTo, detached);
    }

    /** What other coroutines do to the list while one is being resumed; a new awaiter starts without a link. */
    method Arrive(arrivals: seq<Node>, from: nat, upTo: nat, ghost detached: SList)
      requires awaiters.Valid() && NoDup(arrivals)
      requires from <= upTo <= |arrivals| && awaiters.nodes == arrivals[..from]
      requires detached != awaiters && detached.Valid() && Apart(detached.nodes, arrivals[..upTo])
      modifies awaiters, arrivals
      ensures awaiters.Valid() && awaiters.nodes == arrivals[..upTo]
      ensures detached.Valid()
    {
      for k := from to upTo
        invariant awaiters.Valid() && awaiters.nodes == arrivals[..k]
        invariant detached.Valid()
      {
        if k > 0 {
          assert awaiters.tail == arrivals[..upTo][k - 1];
        }
        assert arrivals[k] == arrivals[..upTo][k];
        arrivals[k].next := null;
        awaiters.PushBack(arrivals[k]);
      }
    }
  }

  /** How many have arrived before the k-th resumption. */
  function Before(arrived: seq<nat>, k: nat): nat
    requires k <= |arrived|
  {
    if k == 0 then 0 else arrived[k - 1]
  }

  /** Arrivals are counted up, and a waiter arrives again only once it has been resumed. */
  ghost predicate InTurn(waiters: seq<Node>, arrivals: seq<Node>, arrived: seq<nat>) {
    && |arrived| == |waiters|
    && (forall k | 0 <= k < |arrived| :: arrived[k] <= |arrivals|)
    && (forall j, k | 0 <= j < k < |arrived| :: arrived[j] <= arrived[k])
    && (forall i: nat, j: nat :: Again(waiters, arrivals, arrived, i, j))
  }

  ghost predicate Again(waiters: seq<Node>, arrivals: seq<Node>, arrived: seq<nat>, i: nat, j: nat) {
    i < |arrivals| && j < |waiters| == |arrived| && arrivals[i] == waiters[j] ==> Before(arrived, j) <= i
  }

  /** Whoever has arrived by the end of the k-th resumption is not among those still to be resumed. */
  lemma StillApart(waiters: seq<Node>, arrivals: seq<Node>, arrived: seq<nat>, k: nat)
    requires InTurn(waiters, arrivals, arrived) && k < |waiters|
    ensures Before(arrived, k) <= arrived[k] <= |arrivals|
    ensures Apart(waiters[k..][1..], arrivals[..arrived[k]])
  {
    forall i, j | 0 <= i < |waiters[k..][1..]| && 0 <= j < arrived[k]
      ensures waiters[k..][1..][i] != arrivals[..arrived[k]][j]
    {
      assert waiters[k..][1..][i] == waiters[k + 1 + i];
      assert Again(waiters, arrivals, arrived, j, k + 1 + i) && arrived[k] <= Before(arrived, k + 1 + i);
    }
  }

  // ---------------------------------------------------------------- the protocol

  type Coro = nat
  type Notifier = nat

  datatype Phase =
    | Outside                      // does not hold the coroutine lock
    | Holding
    | Unlocking                    // in await_suspend: has the mutex, still holds the coroutine lock
    | Enqueuing                    // in await_suspend: has the mutex, has released the coroutine lock
    | Queued
    | Dequeued(n: Notifier)       // popped, its resumption is due
    | Resumed                      // must take the coroutine lock again

  datatype State = State(
    owner: Option<Coro>,           // of the coroutine lock
    mutex: Option<Coro>,           // the awaiting coroutine inside await_suspend
    queue: seq<Coro>,
    phase: seq<Phase>,
    notifiers: seq<seq<Coro>>,     // what each notifier still has to resume
    enqueued: seq<Coro>,           // history: every enqueueing, in order
    dequeued: seq<Coro>)           // history: every dequeueing, in order

  datatype Action =
    | Acquire(c: Coro)
    | Unlock(c: Coro)              // an ordinary unlock of the coroutine lock
    | BeginAwait(c: Coro)          // await_suspend locks the mutex
    | ReleaseInAwait(c: Coro)      // await_suspend unlocks the coroutine lock
    | Enqueue(c: Coro)             // await_suspend links the awaiter and unlocks the mutex
    | NotifyOne(n: Notifier)
    | NotifyAll(n: Notifier)
    | Resume(n: Notifier)

  predicate IsNotify(a: Action) { a.NotifyOne? || a.NotifyAll? }

  ghost predicate Init(s: State) {
    && s.owner == None && s.mutex == None && s.queue == [] && s.enqueued == [] && s.dequeued == []
    && (forall c | 0 <= c < |s.phase| :: s.phase[c] == Outside)
    && (forall n | 0 <= n < |s.notifiers| :: s.notifiers[n] == [])
  }

  predicate Enabled(s: State, a: Action) {
    match a
    case Acquire(c) => c < |s.phase| && (s.phase[c] == Outside || s.phase[c] == Resumed) && s.owner == None
    case Unlock(c) => c < |s.phase| && s.phase[c] == Holding
    case BeginAwait(c) => c < |s.phase| && s.phase[c] == Holding && s.mutex == None
    case ReleaseInAwait(c) => c < |s.phase| && s.phase[c] == Unlocking
    case Enqueue(c) => c < |s.phase| && s.phase[c] == Enqueuing
    case NotifyOne(n) => n < |s.notifiers| && s.notifiers[n] == [] && s.mutex == None
    case NotifyAll(n) => n < |s.notifiers| && s.notifiers[n] == [] && s.mutex == None
    case Resume(n) => n < |s.notifiers| && s.notifiers[n] != []
  }

  /** Marks the listed coroutines as dequeued by `n`. */
  function Mark(phase: seq<Phase>, cs: seq<Coro>, n: Notifier): (r: seq<Phase>)
    ensures |r| == |phase|
    ensures forall c | 0 <= c < |phase| :: r[c] == if c in cs then Dequeued(n) else phase[c]
  {
    seq(|phase|, c requires 0 <= c < |phase| => if c in cs then Dequeued(n) else phase[c])
  }

  function Detach(s: State, n: Notifier, count: nat): State
    requires count <= |s.queue| && n < |s.notifiers|
  {
    var cs := s.queue[..count];
    s.(queue := s.queue[count..], phase := Mark(s.phase, cs, n),
       notifiers := s.notifiers[n := cs], dequeued := s.dequeued + cs)
  }

  function Next(s: State, a: Action): State
    requires Enabled(s, a)
  {
    match a
    case Acquire(c) => s.(owner := Some(c), phase := s.phase[c := Holding])
    case Unlock(c) => s.(owner := None, phase := s.phase[c := Outside])
    case BeginAwait(c) => s.(mutex := Some(c), phase := s.phase[c := Unlocking])
    case ReleaseInAwait(c) => s.(owner := None, phase := s.phase[c := Enqueuing])
    case Enqueue(c) =>
      s.(mutex := None, queue := s.queue + [c], phase := s.phase[c := Queued], enqueued := s.enqueued + [c])
    case NotifyOne(n) => Detach(s, n, if s.queue == [] then 0 else 1)
    case NotifyAll(n) => Detach(s, n, |s.queue|)
    case Resume(n) =>
      var c := s.notifiers[n][0];
      s.(notifiers := s.notifiers[n := s.notifiers[n][1..]],
         phase := if c < |s.phase| then s.phase[c := Resumed] else s.phase)
  }

  ghost predicate StepAt(states: seq<State>, actions: seq<Action>, i: nat)
    requires i < |actions| < |states|
  {
    Enabled(states[i], actions[i]) && states[i + 1] == Next(states[i], actions[i])
  }

  /** A run: the states and, between each two, the action taken. */
  ghost predicate IsRun(states: seq<State>, actions: seq<Action>) {
    && |states| == |actions| + 1
    && Init(states[0])
    && forall i: nat | i < |actions| :: StepAt(states, actions, i)
  }

  ghost predicate Locks(s: State) {
    && (forall c | 0 <= c < |s.phase| :: s.owner == Some(c) <==> s.phase[c] == Holding || s.phase[c] == Unlocking)
    && (forall c | 0 <= c < |s.phase| :: s.mutex == Some(c) <==> s.phase[c] == Unlocking || s.phase[c] == Enqueuing)
  }

  /** Every awaiter is in one place: the queue, or the list of the one notifier that popped it. */
  ghost predicate Places(s: State) {
    && NoDup(s.queue)
    && (forall c | 0 <= c < |s.phase| :: c in s.queue <==> s.phase[c] == Queued)
    && (forall c | c in s.queue :: c < |s.phase|)
    && (forall n | 0 <= n < |s.notifiers| :: NoDup(s.notifiers[n]))
    && (forall n, c | 0 <= n < |s.notifiers| && c in s.notifiers[n] :: c < |s.phase|)
    && (forall n, c | 0 <= n < |s.notifiers| && 0 <= c < |s.phase| ::
          c in s.notifiers[n] <==> s.phase[c] == Dequeued(n))
  }

  ghost predicate Inv(s: State) {
    Locks(s) && Places(s) && s.enqueued == s.dequeued + s.queue
  }

  lemma DetachKeepsPlaces(s: State, n: Notifier, count: nat)
    requires Places(s) && count <= |s.queue| && n < |s.notifiers| && s.notifiers[n] == []
    ensures Places(Detach(s, n, count))
  {
    var t := Detach(s, n, count);
    var cs := s.queue[..count];
    assert s.queue == cs + t.queue;
    assert forall c | c in t.queue || c in cs :: c in s.queue;
    forall c | 0 <= c < |t.phase| ensures c in t.queue <==> t.phase[c] == Queued {
      if c in cs {
        var i :| 0 <= i < count && s.queue[i] == c;
      }
    }
    forall m, c | 0 <= m < |t.notifiers| && 0 <= c < |t.phase|
      ensures c in t.notifiers[m] <==> t.phase[c] == Dequeued(m)
    {
      if c in cs { assert s.phase[c] == Queued; }
    }
  }

  lemma StepKeepsInv(s: State, a: Action)
    requires Inv(s) && Enabled(s, a)
    ensures Inv(Next(s, a))
  {
    var t := Next(s, a);
    match a
    case NotifyOne(n) => DetachKeepsPlaces(s, n, if s.queue == [] then 0 else 1);
    case NotifyAll(n) => DetachKeepsPlaces(s, n, |s.queue|);
    case Resume(n) => ResumeKeepsInv(s, n);
    case Enqueue(c) => EnqueueKeepsInv(s, c);
    case _ => LockStepKeepsInv(s, a);
  }

  lemma EnqueueKeepsInv(s: State, c: Coro)
    requires Inv(s) && Enabled(s, Enqueue(c))
    ensures Inv(Next(s, Enqueue(c)))
  {
    var t := Next(s, Enqueue(c));
    assert c !in s.queue;
    assert forall x | 0 <= x < |s.phase| && x != c :: x in t.queue <==> x in s.queue;
    assert t.queue[|s.queue|] == c;
  }

  /** Steps on the two locks leave the places of the waiters alone. */
  lemma LockStepKeepsInv(s: State, a: Action)
    requires Inv(s) && Enabled(s, a) && (a.Acquire? || a.Unlock? || a.BeginAwait? || a.ReleaseInAwait?)
    ensures Inv(Next(s, a))
  {
    LockStepKeepsPlaces(s, a);
  }

  lemma LockStepKeepsPlaces(s: State, a: Action)
    requires Inv(s) && Enabled(s, a) && (a.Acquire? || a.Unlock? || a.BeginAwait? || a.ReleaseInAwait?)
    ensures Places(Next(s, a))
  {
  }

  lemma ResumeKeepsInv(s: State, n: Notifier)
    requires Inv(s) && Enabled(s, Resume(n))
    ensures Inv(Next(s, Resume(n)))
  {
    var t := Next(s, Resume(n));
    var mine := s.notifiers[n];
    var c := mine[0];
    assert c in mine && s.phase[c] == Dequeued(n);
    assert mine == [c] + t.notifiers[n];
    assert forall x | x in t.notifiers[n] :: x in mine;
    forall m, x | 0 <= m < |t.notifiers| && 0 <= x < |t.phase|
      ensures x in t.notifiers[m] <==> t.phase[x] == Dequeued(m)
    {
      assert x in s.notifiers[m] <==> s.phase[x] == Dequeued(m);
    }
  }

  lemma {:induction false} RunKeepsInv(states: seq<State>, actions: seq<Action>, k: nat)
    requires IsRun(states, actions) && k < |states|
    ensures Inv(states[k])
  {
    if k > 0 {
      RunKeepsInv(states, actions, k - 1);
      assert StepAt(states, actions, k - 1);
      StepKeepsInv(states[k - 1], actions[k - 1]);
    }
  }

  /** In every run waiters are dequeued in the order they were enqueued, each by one notifier only. */
  lemma FirstInFirstOut(states: seq<State>, actions: seq<Action>, k: nat)
    requires IsRun(states, actions) && k < |states|
    ensures states[k].enqueued == states[k].dequeued + states[k].queue
    ensures NoDup(states[k].queue)
    ensures forall m, n, c | 0 <= m < n < |states[k].notifiers| && c in states[k].notifiers[m] ::
              c !in states[k].notifiers[n]
  {
    RunKeepsInv(states, actions, k);
    var s := states[k];
    forall m, n, c | 0 <= m < n < |s.notifiers| && c in s.notifiers[m] ensures c !in s.notifiers[n] {
      assert s.phase[c] == Dequeued(m);
    }
  }

  /** The coroutines that these actions enqueue, in order. */
  ghost function Enqueuings(actions: seq<Action>): seq<Coro> {
    if actions == [] then []
    else
      var a := actions[|actions| - 1];
      Enqueuings(actions[..|actions| - 1]) + if a.Enqueue? then [a.c] else []
  }

  /** The history of enqueueings is that of the run. */
  lemma {:induction false} EnqueuedByTheRun(states: seq<State>, actions: seq<Action>, k: nat)
    requires IsRun(states, actions) && k < |states|
    ensures states[k].enqueued == Enqueuings(actions[..k])
  {
    if k > 0 {
      EnqueuedByTheRun(states, actions, k - 1);
      assert StepAt(states, actions, k - 1);
      assert actions[..k][..k - 1] == actions[..k - 1];
    }
  }

  /** A notifier takes the oldest waiter, or all of them in order; it resumes the first that it has left. */
  lemma NotifiersTakeTheOldest(s: State, a: Action)
    requires Inv(s) && Enabled(s, a) && (a.NotifyOne? || a.NotifyAll? || a.Resume?)
    ensures a.NotifyAll? ==> Next(s, a).notifiers[a.n] == s.queue && Next(s, a).queue == []
    ensures a.NotifyOne? && s.queue != [] ==>
              Next(s, a).notifiers[a.n] == [s.queue[0]] && Next(s, a).queue == s.queue[1..]
    ensures a.NotifyOne? && s.queue == [] ==> Next(s, a).notifiers[a.n] == [] == Next(s, a).queue
    ensures a.Resume? ==>
              var c := s.notifiers[a.n][0];
              && c < |s.phase| && s.phase[c] == Dequeued(a.n) && Next(s, a).phase == s.phase[c := Resumed]
              && Next(s, a).notifiers[a.n] == s.notifiers[a.n][1..] && Next(s, a).queue == s.queue
  {
    if a.Resume? {
      assert s.notifiers[a.n][0] in s.notifiers[a.n];
    } else {
      assert s.queue[..|s.queue|] == s.queue;
    }
  }

  /**
   Release-and-enqueue is atomic against notifiers: once a waiter has given the coroutine lock
   up, whoever notifies later, in particular whoever took that lock since, finds it enqueued.
   */
  lemma {:induction false} NotifierFindsWaiter(states: seq<State>, actions: seq<Action>, i: nat, k: nat, c: Coro)
    requires IsRun(states, actions) && i < k < |actions|
    requires actions[i] == ReleaseInAwait(c) && IsNotify(actions[k])
    ensures exists m | i < m < k :: actions[m] == Enqueue(c)
  {
    assert StepAt(states, actions, k);
    if forall m | i < m < k :: actions[m] != Enqueue(c) {
      StaysEnqueuing(states, actions, i, k, c);
      RunKeepsInv(states, actions, k);
      assert false;
    }
  }

  lemma {:induction false} StaysEnqueuing(states: seq<State>, actions: seq<Action>, i: nat, k: nat, c: Coro)
    requires IsRun(states, actions) && i < k < |states|
    requires actions[i] == ReleaseInAwait(c)
    requires forall m | i < m < k :: actions[m] != Enqueue(c)
    ensures c < |states[k].phase| && states[k].phase[c] == Enqueuing
  {
    assert StepAt(states, actions, k - 1);
    if k > i + 1 {
      StaysEnqueuing(states, actions, i, k - 1, c);
      var s, a := states[k - 1], actions[k - 1];
      RunKeepsInv(states, actions, k - 1);
      if a.Resume? {
        var d := s.notifiers[a.n][0];
        assert d in s.notifiers[a.n];
      }
      assert c !in s.queue;
    }
  }

  /** How many waiters `n` has resumed during these actions. */
  ghost function Resumptions(actions: seq<Action>, n: Notifier): nat {
    if actions == [] then 0
    else Resumptions(actions[..|actions| - 1], n) + if actions[|actions| - 1] == Resume(n) then 1 else 0
  }

  lemma ResumptionsStep(actions: seq<Action>, from: nat, k: nat, n: Notifier)
    requires from < k <= |actions|
    ensures Resumptions(actions[from..k], n)
         == Resumptions(actions[from..k - 1], n) + if actions[k - 1] == Resume(n) then 1 else 0
  {
    assert actions[from..k][..k - from - 1] == actions[from..k - 1];
  }

  lemma AllDetached(s: State, n: Notifier)
    requires Enabled(s, NotifyAll(n))
    ensures n < |Next(s, NotifyAll(n)).notifiers| && Next(s, NotifyAll(n)).notifiers[n] == s.queue
  {
    assert s.queue[..|s.queue|] == s.queue;
  }

  /** Only its own actions change what a notifier has left to resume. */
  lemma NotifierFrame(s: State, a: Action, n: Notifier)
    requires Enabled(s, a) && n < |s.notifiers| && a != NotifyAll(n) && a != NotifyOne(n)
    ensures |Next(s, a).notifiers| == |s.notifiers|
    ensures Next(s, a).notifiers[n] == if a == Resume(n) then s.notifiers[n][1..] else s.notifiers[n]
  {
  }

  lemma OneLess(s: State, a: Action, n: Notifier, queue: seq<Coro>, count: nat)
    requires Enabled(s, a) && n < |s.notifiers| && a != NotifyAll(n) && a != NotifyOne(n)
    requires count <= |queue| && s.notifiers[n] == queue[count..]
    ensures n < |Next(s, a).notifiers|
    ensures a == Resume(n) ==> count < |queue| && Next(s, a).notifiers[n] == queue[count + 1..]
    ensures a != Resume(n) ==> Next(s, a).notifiers[n] == queue[count..]
  {
    NotifierFrame(s, a, n);
  }

  /**
   The k-th resumption after a notify_all is of the k-th waiter found at its detach point,
   whatever is enqueued or notified meanwhile; after as many resumptions as waiters it is done.
   */
  lemma {:induction false} NotifyAllResumesDetached(
      states: seq<State>, actions: seq<Action>, i: nat, k: nat, n: Notifier)
    requires IsRun(states, actions) && i < k < |states|
    requires actions[i] == NotifyAll(n)
    requires forall m | i < m < k :: actions[m] != NotifyAll(n) && actions[m] != NotifyOne(n)
    ensures Resumptions(actions[i + 1..k], n) <= |states[i].queue|
    ensures n < |states[k].notifiers|
    ensures states[k].notifiers[n] == states[i].queue[Resumptions(actions[i + 1..k], n)..]
  {
    assert StepAt(states, actions, k - 1);
    if k == i + 1 {
      AllDetached(states[i], n);
      assert actions[i + 1..k] == [];
    } else {
      NotifyAllResumesDetached(states, actions, i, k - 1, n);
      ResumptionsStep(actions, i + 1, k, n);
      OneLess(states[k - 1], actions[k - 1], n, states[i].queue, Resumptions(actions[i + 1..k - 1], n));
    }
  }
}
