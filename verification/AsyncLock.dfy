/**
 The coroutine lock: a flag and a queue of suspended coroutines, both guarded by one mutex.
 Every mutex region is one step, so a run is any interleaving of the regions of any number
 of coroutines.
 */
module AsyncLock {
  import opened Prelude

  type Coro = nat

  /** The memory guarded by the mutex. */
  datatype Lock = Lock(locked: bool, awaiters: seq<Coro>)

  // ---------------------------------------------------------------- mutex regions

  /** Take the lock, or join the queue when somebody has it. */
  function AcquireOrEnqueue(l: Lock, c: Coro): (Lock, bool) {
    if !l.locked then (l.(locked := true), true) else (l.(awaiters := l.awaiters + [c]), false)
  }

  /** Give the lock up and dequeue the coroutine that is told to retry, if there is one. */
  function Release(l: Lock): (Lock, Option<Coro>) {
    if l.awaiters == [] then (l.(locked := false), None)
    else (Lock(false, l.awaiters[1..]), Some(l.awaiters[0]))
  }

  class AsyncLock {
    var locked: bool
    var awaiters: seq<Coro>

    function View(): Lock reads this { Lock(locked, awaiters) }

    constructor ()
      ensures View() == Lock(false, [])
    {
      locked, awaiters := false, [];
    }

    /** One iteration of the loop of `lock_impl`; when not granted the coroutine is suspended. */
    method LockIteration(c: Coro) returns (granted: bool)
      modifies this
      ensures (View(), granted) == AcquireOrEnqueue(old(View()), c)
      ensures granted == !old(locked) && locked
      ensures awaiters == old(awaiters) + if granted then [] else [c]
    {
      if !locked {
        locked := true;
        return true;
      }
      awaiters := awaiters + [c];
      return false;
    }

    method TryLock() returns (res: bool)
      modifies this
      ensures res == !old(locked)
      ensures View() == old(View()).(locked := true)
    {
      res := false;
      if !locked {
        locked := true;
        res := true;
      }
    }

    /** The region of `unlock`, and of the handler of a failed resumption. */
    method Unlock() returns (ok: bool, retried: Option<Coro>)
      modifies this
      ensures ok == old(locked)
      ensures ok ==> (View(), retried) == Release(old(View()))
      ensures !ok ==> View() == old(View()) && retried == None
      ensures ok && old(awaiters) == [] ==> !locked && awaiters == [] && retried == None
      ensures ok && old(awaiters) != [] ==>
                !locked && awaiters == old(awaiters)[1..] && retried == Some(old(awaiters)[0])
    {
      if !locked {
        return false, None;
      }
      locked := false;
      if awaiters == [] {
        return true, None;
      }
      retried := Some(awaiters[0]);
      awaiters := awaiters[1..];
      ok := true;
    }
  }

  // ---------------------------------------------------------------- the step system

  /** Where a coroutine is. `Trying(true)` has not been suspended by this request yet. */
  datatype Phase =
    | Outside
    | Trying(first: bool)
    | Queued
    | Granted   // owns the lock, its resumption in the given executor is still due
    | Holding

  datatype State = State(
    lock: Lock,
    phase: seq<Phase>,
    enqueued: seq<Coro>,     // history: the coroutines that were suspended, in order
    dequeued: seq<Coro>)     // history: the coroutines that were told to retry, in order

  datatype Action =
    | Request(c: Coro)        // a coroutine calls lock()
    | Attempt(c: Coro)        // the loop body of lock_impl
    | TryLock(c: Coro)
    | Resumed(c: Coro)        // resume_on succeeded
    | ResumeThrew(c: Coro)    // resume_on threw: the lock is handed on
    | Unlock(c: Coro)
    | BadUnlock(c: Coro)      // unlock() of a lock nobody has: throws

  ghost predicate Init(s: State) {
    && s.lock == Lock(false, []) && s.enqueued == [] == s.dequeued
    && forall c | 0 <= c < |s.phase| :: s.phase[c] == Outside
  }

  predicate Enabled(s: State, a: Action) {
    a.c < |s.phase| &&
    match a
    case Request(c) => s.phase[c] == Outside
    case Attempt(c) => s.phase[c].Trying?
    case TryLock(c) => s.phase[c] == Outside
    case Resumed(c) => s.phase[c] == Granted
    case ResumeThrew(c) => s.phase[c] == Granted
    case Unlock(c) => s.phase[c] == Holding
    case BadUnlock(c) => s.phase[c] == Outside && !s.lock.locked
  }

  /** The region of `unlock`: the lock is free, and the oldest waiter, if there is one, retries. */
  function PassOn(s: State): State {
    var (lock, retried) := Release(s.lock);
    if retried.Some? && retried.value < |s.phase|
    then State(lock, s.phase[retried.value := Trying(false)], s.enqueued, s.dequeued + [retried.value])
    else s.(lock := lock)
  }

  function Leave(s: State, c: Coro): State
    requires c < |s.phase|
  {
    PassOn(s.(phase := s.phase[c := Outside]))
  }

  function Next(s: State, a: Action): State
    requires Enabled(s, a)
  {
    match a
    case Request(c) => s.(phase := s.phase[c := Trying(true)])
    case Attempt(c) =>
      var (lock, granted) := AcquireOrEnqueue(s.lock, c);
      State(lock, s.phase[c := if !granted then Queued else if s.phase[c].first then Holding else Granted],
            s.enqueued + (if granted then [] else [c]), s.dequeued)
    case TryLock(c) =>
      if s.lock.locked then s else s.(lock := s.lock.(locked := true), phase := s.phase[c := Holding])
    case Resumed(c) => s.(phase := s.phase[c := Holding])
    case ResumeThrew(c) => Leave(s, c)
    case Unlock(c) => Leave(s, c)
    case BadUnlock(_) => s
  }

  ghost predicate Executes(s: State, trace: seq<Action>, t: State)
    decreases |trace|
  {
    if trace == [] then s == t
    else Enabled(s, trace[0]) && Executes(Next(s, trace[0]), trace[1..], t)
  }

  ghost predicate Reachable(t: State) {
    exists s, trace :: Init(s) && Executes(s, trace, t)
  }

  // ---------------------------------------------------------------- safety

  predicate Owns(p: Phase) { p == Granted || p == Holding }

  ghost predicate UniqueOwner(s: State) {
    && (s.lock.locked <==> exists c | 0 <= c < |s.phase| :: Owns(s.phase[c]))
    && forall c, d | 0 <= c < |s.phase| && 0 <= d < |s.phase| && Owns(s.phase[c]) && Owns(s.phase[d]) :: c == d
  }

  ghost predicate QueueMatches(s: State) {
    && (forall i | 0 <= i < |s.lock.awaiters| ::
          s.lock.awaiters[i] < |s.phase| && s.phase[s.lock.awaiters[i]] == Queued)
    && (forall i, j | 0 <= i < j < |s.lock.awaiters| :: s.lock.awaiters[i] != s.lock.awaiters[j])
    && (forall c | 0 <= c < |s.phase| && s.phase[c] == Queued :: c in s.lock.awaiters)
  }

  /** A waiter is never left behind: either somebody has the lock, or a dequeued waiter is about to retry. */
  ghost predicate SomebodyWillWake(s: State) {
    s.lock.awaiters != [] ==> s.lock.locked || exists c | 0 <= c < |s.phase| :: s.phase[c] == Trying(false)
  }

  ghost predicate Inv(s: State) {
    UniqueOwner(s) && QueueMatches(s) && SomebodyWillWake(s)
  }

  lemma PassOnKeepsQueue(s: State)
    requires QueueMatches(s)
    ensures QueueMatches(PassOn(s))
  {
    var t := PassOn(s);
    if s.lock.awaiters != [] {
      forall x | 0 <= x < |t.phase| && t.phase[x] == Queued ensures x in t.lock.awaiters {
        assert s.phase[x] == Queued;
        var i :| 0 <= i < |s.lock.awaiters| && s.lock.awaiters[i] == x;
        assert t.lock.awaiters[i - 1] == x;
      }
    }
  }

  lemma PassOnKeepsInv(s: State)
    requires QueueMatches(s) && forall c | 0 <= c < |s.phase| :: !Owns(s.phase[c])
    ensures Inv(PassOn(s))
  {
    PassOnKeepsQueue(s);
    if s.lock.awaiters != [] {
      assert PassOn(s).phase[s.lock.awaiters[0]] == Trying(false);
    }
  }

  lemma LeaveKeepsInv(s: State, c: Coro)
    requires Inv(s) && c < |s.phase| && Owns(s.phase[c])
    ensures Inv(Leave(s, c))
  {
    var left := s.(phase := s.phase[c := Outside]);
    forall x | 0 <= x < |left.phase| ensures !Owns(left.phase[x]) {
      assert Owns(s.phase[x]) ==> x == c;
    }
    assert QueueMatches(left) by {
      forall x | 0 <= x < |left.phase| && left.phase[x] == Queued ensures x in left.lock.awaiters {
        assert s.phase[x] == Queued;
      }
    }
    PassOnKeepsInv(left);
  }

  lemma EnqueueKeepsInv(s: State, c: Coro)
    requires Inv(s) && c < |s.phase| && s.phase[c].Trying? && s.lock.locked
    ensures Inv(Next(s, Attempt(c)))
  {
    var t := Next(s, Attempt(c));
    assert t.lock.awaiters[|s.lock.awaiters|] == c;
    var o :| 0 <= o < |s.phase| && Owns(s.phase[o]);
    assert Owns(t.phase[o]);
    forall x | 0 <= x < |t.phase| && t.phase[x] == Queued ensures x in t.lock.awaiters {
      if x != c { assert s.phase[x] == Queued; }
    }
  }

  /** Taking a free lock, whoever takes it and on whichever path. */
  lemma TakeKeepsInv(s: State, c: Coro, p: Phase)
    requires Inv(s) && c < |s.phase| && s.phase[c] != Queued && !s.lock.locked && Owns(p)
    ensures Inv(s.(lock := s.lock.(locked := true), phase := s.phase[c := p]))
  {
    var t := s.(lock := s.lock.(locked := true), phase := s.phase[c := p]);
    assert Owns(t.phase[c]);
    assert forall x | 0 <= x < |s.phase| :: !Owns(s.phase[x]);
  }

  lemma RequestKeepsInv(s: State, c: Coro)
    requires Inv(s) && Enabled(s, Request(c))
    ensures Inv(Next(s, Request(c)))
  {
    var t := Next(s, Request(c));
    assert forall x | 0 <= x < |s.phase| :: Owns(t.phase[x]) == Owns(s.phase[x]);
    if x :| 0 <= x < |s.phase| && s.phase[x] == Trying(false) { assert t.phase[x] == Trying(false); }
  }

  lemma StepKeepsInv(s: State, a: Action)
    requires Inv(s) && Enabled(s, a)
    ensures Inv(Next(s, a))
  {
    var t := Next(s, a);
    match a
    case ResumeThrew(c) => LeaveKeepsInv(s, c);
    case Unlock(c) => LeaveKeepsInv(s, c);
    case BadUnlock(_) =>
    case Request(c) => RequestKeepsInv(s, c);
    case Attempt(c) =>
      if s.lock.locked {
        EnqueueKeepsInv(s, c);
      } else {
        TakeKeepsInv(s, c, t.phase[c]);
        assert t == s.(lock := s.lock.(locked := true), phase := s.phase[c := t.phase[c]]);
      }
    case TryLock(c) =>
      if !s.lock.locked { TakeKeepsInv(s, c, Holding); }
    case Resumed(c) =>
      assert forall x | 0 <= x < |s.phase| :: Owns(t.phase[x]) == Owns(s.phase[x]);
  }

  lemma {:induction false} RunKeepsInv(s: State, trace: seq<Action>, t: State)
    requires Inv(s) && Executes(s, trace, t)
    ensures Inv(t)
    decreases |trace|
  {
    if trace != [] {
      StepKeepsInv(s, trace[0]);
      RunKeepsInv(Next(s, trace[0]), trace[1..], t);
    }
  }

  /** If only holders unlock, in every run: one owner exactly while the flag is set, and no waiter is forgotten. */
  lemma MutualExclusion(t: State)
    requires Reachable(t)
    ensures UniqueOwner(t) && QueueMatches(t) && SomebodyWillWake(t)
  {
    var s, trace :| Init(s) && Executes(s, trace, t);
    RunKeepsInv(s, trace, t);
  }

  // ---------------------------------------------------------------- the order of the waiters

  /** The histories are those of the phases: who becomes queued, and who ceases to be. */
  lemma StepRecords(s: State, a: Action, c: Coro)
    requires Inv(s) && Enabled(s, a) && c < |s.phase|
    ensures |Next(s, a).phase| == |s.phase|
    ensures s.phase[c] != Queued && Next(s, a).phase[c] == Queued ==> Next(s, a).enqueued == s.enqueued + [c]
    ensures s.phase[c] == Queued && Next(s, a).phase[c] != Queued ==>
              Next(s, a).phase[c] == Trying(false) && Next(s, a).dequeued == s.dequeued + [c]
    ensures |s.enqueued| <= |Next(s, a).enqueued| <= |s.enqueued| + 1 && s.enqueued <= Next(s, a).enqueued
    ensures |s.dequeued| <= |Next(s, a).dequeued| <= |s.dequeued| + 1 && s.dequeued <= Next(s, a).dequeued
  {
  }

  ghost predicate InOrder(s: State) { s.enqueued == s.dequeued + s.lock.awaiters }

  lemma PassOnKeepsOrder(s: State)
    requires InOrder(s) && (s.lock.awaiters != [] ==> s.lock.awaiters[0] < |s.phase|)
    ensures InOrder(PassOn(s))
  {
    if s.lock.awaiters != [] {
      assert s.lock.awaiters == [s.lock.awaiters[0]] + s.lock.awaiters[1..];
    }
  }

  lemma StepKeepsOrder(s: State, a: Action)
    requires Inv(s) && InOrder(s) && Enabled(s, a)
    ensures InOrder(Next(s, a))
  {
    if a.Unlock? || a.ResumeThrew? {
      PassOnKeepsOrder(s.(phase := s.phase[a.c := Outside]));
    } else if a.Attempt? && s.lock.locked {
      assert Next(s, a).enqueued == s.dequeued + (s.lock.awaiters + [a.c]);
    }
  }

  lemma {:induction false} RunKeepsOrder(s: State, trace: seq<Action>, t: State)
    requires Inv(s) && InOrder(s) && Executes(s, trace, t)
    ensures InOrder(t)
    decreases |trace|
  {
    if trace != [] {
      StepKeepsInv(s, trace[0]);
      StepKeepsOrder(s, trace[0]);
      RunKeepsOrder(Next(s, trace[0]), trace[1..], t);
    }
  }

  /** In every run waiters are told to retry in the order in which they were suspended, also after a throw. */
  lemma FirstInFirstOut(t: State)
    requires Reachable(t)
    ensures t.enqueued == t.dequeued + t.lock.awaiters
  {
    var s, trace :| Init(s) && Executes(s, trace, t);
    RunKeepsOrder(s, trace, t);
  }

  // ---------------------------------------------------------------- where a coroutine goes on

  /** A coroutine has been suspended since its last request; `before` says so of the beginning of the run. */
  ghost predicate Suspended(s: State, trace: seq<Action>, c: Coro, before: bool)
    decreases |trace|
  {
    if trace == [] || !Enabled(s, trace[0]) then before
    else
      var t := Next(s, trace[0]);
      Suspended(t, trace[1..], c, trace[0] != Request(c) && (before || (c < |t.phase| && t.phase[c] == Queued)))
  }

  predicate PhaseTells(p: Phase, suspended: bool) {
    (p.Trying? ==> p.first == !suspended) && (p == Queued || p == Granted ==> suspended)
  }

  lemma StepTells(s: State, a: Action, c: Coro, before: bool)
    requires Inv(s) && Enabled(s, a) && c < |s.phase| && PhaseTells(s.phase[c], before)
    ensures |Next(s, a).phase| == |s.phase|
    ensures PhaseTells(Next(s, a).phase[c], a != Request(c) && (before || Next(s, a).phase[c] == Queued))
  {
    StepRecords(s, a, c);
  }

  lemma {:induction false} RunTells(s: State, trace: seq<Action>, t: State, c: Coro, before: bool)
    requires Inv(s) && Executes(s, trace, t) && c < |s.phase| && PhaseTells(s.phase[c], before)
    ensures c < |t.phase| && PhaseTells(t.phase[c], Suspended(s, trace, c, before))
    decreases |trace|
  {
    if trace != [] {
      var next := Next(s, trace[0]);
      StepKeepsInv(s, trace[0]);
      StepTells(s, trace[0], c, before);
      RunTells(next, trace[1..], t, c, trace[0] != Request(c) && (before || next.phase[c] == Queued));
    }
  }

  /**
   Whoever gets the lock goes on at once if it was not suspended since it asked for the lock, and only
   after a resumption in the executor that it has named if it was.
   */
  lemma ResumedInExecutorIffSuspended(s: State, trace: seq<Action>, t: State, c: Coro)
    requires Init(s) && Executes(s, trace, t) && Enabled(t, Attempt(c)) && !t.lock.locked
    ensures Next(t, Attempt(c)).phase[c] == if Suspended(s, trace, c, false) then Granted else Holding
  {
    RunKeepsSize(s, trace, t);
    RunTells(s, trace, t, c, false);
  }

  lemma {:induction false} RunKeepsSize(s: State, trace: seq<Action>, t: State)
    requires Executes(s, trace, t)
    ensures |t.phase| == |s.phase|
    decreases |trace|
  {
    if trace != [] { RunKeepsSize(Next(s, trace[0]), trace[1..], t); }
  }

  // ---------------------------------------------------------------- unlocking for somebody else

  /** The state after a call of `unlock` on a locked lock: its region is the same whoever makes the call. */
  function UnlockBy(s: State, c: Coro): State
    requires c < |s.phase|
  {
    if s.phase[c] == Holding then Leave(s, c) else PassOn(s)
  }

  lemma OwnersStay(s: State, o: Coro)
    requires QueueMatches(s) && o < |s.phase| && Owns(s.phase[o])
    ensures !PassOn(s).lock.locked && |PassOn(s).phase| == |s.phase|
    ensures PassOn(s).phase[o] == s.phase[o]
  {
    if s.lock.awaiters != [] { assert s.phase[s.lock.awaiters[0]] == Queued; }
  }

  /** An unlock of a locked lock keeps the flag and the owner together exactly when the holder calls it. */
  lemma OnlyHoldersMayUnlock(t: State, c: Coro)
    requires Reachable(t) && t.lock.locked && c < |t.phase| && t.phase[c] in {Outside, Holding}
    ensures UniqueOwner(UnlockBy(t, c)) <==> t.phase[c] == Holding
  {
    MutualExclusion(t);
    if t.phase[c] == Holding {
      LeaveKeepsInv(t, c);
    } else {
      var o :| 0 <= o < |t.phase| && Owns(t.phase[o]);
      OwnersStay(t, o);
    }
  }

  /** After an unlock from outside, the caller can take the lock that another coroutine still owns. */
  lemma TwoOwners(t: State, c: Coro)
    requires Reachable(t) && t.lock.locked && c < |t.phase| && t.phase[c] == Outside
    ensures Enabled(UnlockBy(t, c), TryLock(c))
    ensures var u := Next(UnlockBy(t, c), TryLock(c));
            u.phase[c] == Holding && exists o | 0 <= o < |u.phase| :: o != c && Owns(u.phase[o])
  {
    MutualExclusion(t);
    var o :| 0 <= o < |t.phase| && Owns(t.phase[o]);
    OwnersStay(t, o);
    assert UnlockBy(t, c).phase[c] == Outside by {
      if t.lock.awaiters != [] { assert t.phase[t.lock.awaiters[0]] == Queued; }
    }
    assert Owns(Next(UnlockBy(t, c), TryLock(c)).phase[o]);
  }

  /** Such states occur: one coroutine has the lock, another one is outside. */
  lemma TwoOwnersOccur()
    ensures exists t, c: Coro :: Reachable(t) && t.lock.locked && c < |t.phase| && t.phase[c] == Outside
  {
    var s := State(Lock(false, []), [Outside, Outside], [], []);
    var t := Next(s, TryLock(0));
    assert Executes(s, [TryLock(0)], t) by { assert Executes(t, [], t); }
    assert Reachable(t) && t.phase[1] == Outside;
  }

  // ---------------------------------------------------------------- termination

  /** The actions by which a coroutine asks for the lock, and the calls that only throw. */
  predicate IsCall(a: Action) { a.Request? || a.TryLock? || a.BadUnlock? }

  ghost function Weight(p: Phase): int {
    match p
    case Outside => 0
    case Trying(_) => 4
    case Queued => 3
    case Granted => 3
    case Holding => 2
  }

  ghost function Work(s: State): int { Sum(s.phase, Weight) }

  lemma LeaveDecreases(s: State, c: Coro)
    requires Inv(s) && c < |s.phase| && Owns(s.phase[c])
    ensures Work(Leave(s, c)) < Work(s)
  {
    var left := s.phase[c := Outside];
    SumUpdate(s.phase, c, Outside, Weight);
    if s.lock.awaiters != [] {
      SumUpdate(left, s.lock.awaiters[0], Trying(false), Weight);
    }
  }

  lemma StepDecreases(s: State, a: Action)
    requires Inv(s) && Enabled(s, a) && !IsCall(a)
    ensures Work(Next(s, a)) < Work(s)
  {
    if a.Attempt? || a.Resumed? {
      SumUpdate(s.phase, a.c, Next(s, a).phase[a.c], Weight);
    } else {
      LeaveDecreases(s, a.c);
    }
  }

  /** Without new requests every run is finite: its length is bounded by the work at hand. */
  lemma {:induction false} RunsAreFinite(s: State, trace: seq<Action>, t: State)
    requires Inv(s) && Executes(s, trace, t) && forall a | a in trace :: !IsCall(a)
    ensures |trace| + Work(t) <= Work(s) && 0 <= Work(t)
    decreases |trace|
  {
    if trace == [] {
      SumAtLeast(s.phase, Weight);
    } else {
      StepKeepsInv(s, trace[0]);
      StepDecreases(s, trace[0]);
      RunsAreFinite(Next(s, trace[0]), trace[1..], t);
    }
  }

  /** A run that cannot go on without new requests has served or failed every waiter. */
  lemma StopsOnlyWhenDrained(t: State)
    requires Reachable(t)
    requires forall a | Enabled(t, a) :: IsCall(a)
    ensures t.lock == Lock(false, [])
    ensures forall c | 0 <= c < |t.phase| :: t.phase[c] == Outside
  {
    MutualExclusion(t);
    forall c | 0 <= c < |t.phase| ensures t.phase[c] == Outside || t.phase[c] == Queued {
      assert !Enabled(t, Attempt(c)) && !Enabled(t, Resumed(c)) && !Enabled(t, Unlock(c));
    }
    assert t.lock.awaiters == [];
  }
}
