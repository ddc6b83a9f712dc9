/**
 The guards of the coroutine lock. A guard refers to a lock and may own it; guards are locked,
 unlocked, moved, swapped, released and destroyed in any order. How the lock itself grants
 ownership is the subject of module AsyncLock: here a granted lock is simply taken.
 */
module ScopedLock {
  import opened Prelude
  import AsyncLock

  datatype Error = OperationNotPermitted | ResourceDeadlockWouldOccur

  // ---------------------------------------------------------------- the guard as an object

  class ScopedAsyncLock {
    var lock: AsyncLock.AsyncLock?
    var owns: bool

    /** A guard that owns has a lock to own. */
    predicate Valid()
      reads this
    {
      owns ==> lock != null
    }

    constructor Defer(lock: AsyncLock.AsyncLock)
      ensures Valid() && this.lock == lock && !owns
    {
      this.lock, owns := lock, false;
    }

    constructor Adopt(lock: AsyncLock.AsyncLock)
      ensures Valid() && this.lock == lock && owns
    {
      this.lock, owns := lock, true;
    }

    constructor Move(rhs: ScopedAsyncLock)
      requires rhs.Valid()
      modifies rhs
      ensures Valid() && lock == old(rhs.lock) && owns == old(rhs.owns)
      ensures rhs.Valid() && rhs.lock == null && !rhs.owns
    {
      lock, owns := rhs.lock, rhs.owns;
      new;
      rhs.lock, rhs.owns := null, false;
    }

    /** The lock is given up exactly when the guard owns it, and then once. */
    method Destroy() returns (retried: Option<AsyncLock.Coro>)
      requires Valid() && (owns ==> lock.locked)
      modifies lock
      ensures owns ==> (lock.View(), retried) == AsyncLock.Release(old(lock.View()))
      ensures !owns ==> (lock != null ==> lock.View() == old(lock.View())) && retried == None
    {
      retried := None;
      if owns && lock != null {
        var ok;
        ok, retried := lock.Unlock();
      }
    }

    method TryLock() returns (error: Option<Error>, res: bool)
      requires Valid()
      modifies this, lock
      ensures Valid() && lock == old(lock)
      ensures error == if lock == null then Some(OperationNotPermitted)
                       else if old(owns) then Some(ResourceDeadlockWouldOccur) else None
      ensures error == None ==> res == owns == !old(lock.locked) && lock.View() == old(lock.View()).(locked := true)
      ensures error != None ==> owns == old(owns) && (lock != null ==> lock.View() == old(lock.View()))
    {
      if lock == null { return Some(OperationNotPermitted), false; }
      if owns { return Some(ResourceDeadlockWouldOccur), false; }
      res := lock.TryLock();
      owns := res;
      error := None;
    }

    method Unlock() returns (error: Option<Error>, retried: Option<AsyncLock.Coro>)
      requires Valid() && (owns ==> lock.locked)
      modifies this, lock
      ensures Valid() && lock == old(lock) && !owns
      ensures error == if old(owns) then None else Some(OperationNotPermitted)
      ensures error == None ==> (lock.View(), retried) == AsyncLock.Release(old(lock.View()))
      ensures error != None ==> lock != null ==> lock.View() == old(lock.View())
    {
      retried := None;
      if !owns { return Some(OperationNotPermitted), None; }
      if lock != null {
        var ok;
        ok, retried := lock.Unlock();
        owns := false;
      }
      error := None;
    }

    method Swap(rhs: ScopedAsyncLock)
      requires Valid() && rhs.Valid()
      modifies this, rhs
      ensures Valid() && rhs.Valid()
      ensures lock == old(rhs.lock) && owns == old(rhs.owns) && rhs.lock == old(lock) && rhs.owns == old(owns)
    {
      var l := lock;
      lock := rhs.lock;
      rhs.lock := l;
      var o := owns;
      owns := rhs.owns;
      rhs.owns := o;
    }

    /** The lock is handed to the caller as it is, locked or not. */
    method Release() returns (r: AsyncLock.AsyncLock?)
      requires Valid()
      modifies this
      ensures Valid() && r == old(lock) && lock == null && !owns
    {
      owns := false;
      r := lock;
      lock := null;
    }
  }

  // ---------------------------------------------------------------- any number of guards and locks

  datatype Guard = Guard(lock: Option<nat>, owns: bool)

  /** `loose` locks are owned by somebody without a guard. */
  datatype State = State(locked: seq<bool>, loose: seq<bool>, guards: seq<Guard>, fault: bool)

  datatype Action =
    | Acquire(k: nat)                // without a guard
    | Abandon(k: nat)                // unlock without a guard
    | Defer(i: nat, k: nat)
    | Adopt(i: nat, k: nat)          // the caller owns the lock
    | Lock(i: nat)
    | TryLock(i: nat)
    | Unlock(i: nat)
    | Move(i: nat, j: nat)           // guard i from guard j
    | Swap(i: nat, j: nat)
    | Release(i: nat)
    | Destroy(i: nat)

  ghost predicate Init(s: State) {
    && |s.loose| == |s.locked| && !s.fault
    && (forall k | 0 <= k < |s.locked| :: !s.locked[k] && !s.loose[k])
    && (forall i | 0 <= i < |s.guards| :: s.guards[i] == Guard(None, false))
  }

  predicate Dead(s: State, i: nat) { i < |s.guards| && s.guards[i] == Guard(None, false) }

  predicate Refers(s: State, i: nat) {
    i < |s.guards| && (s.guards[i].lock.Some? ==> s.guards[i].lock.value < |s.locked| == |s.loose|)
  }

  /** Locking through a guard is enabled when it can return: with an error, or with the lock. */
  predicate Enabled(s: State, a: Action) {
    match a
    case Acquire(k) => k < |s.locked| == |s.loose| && !s.locked[k]
    case Abandon(k) => k < |s.locked| == |s.loose| && s.loose[k]
    case Defer(i, k) => Dead(s, i) && k < |s.locked|
    case Adopt(i, k) => Dead(s, i) && k < |s.locked| == |s.loose| && s.loose[k]
    case Lock(i) => Refers(s, i) && (s.guards[i].lock.Some? && !s.guards[i].owns ==> !s.locked[s.guards[i].lock.value])
    case TryLock(i) => Refers(s, i)
    case Unlock(i) => Refers(s, i)
    case Move(i, j) => Dead(s, i) && j < |s.guards| && i != j
    case Swap(i, j) => i < |s.guards| && j < |s.guards|
    case Release(i) => Refers(s, i)
    case Destroy(i) => Refers(s, i)
  }

  function SetGuard(s: State, i: nat, g: Guard): State
    requires i < |s.guards|
  {
    s.(guards := s.guards[i := g])
  }

  /** async_lock::unlock throws when the lock is not locked; in a destructor that would be fatal. */
  function UnlockAt(s: State, k: nat): State
    requires k < |s.locked|
  {
    s.(locked := s.locked[k := false], fault := s.fault || !s.locked[k])
  }

  function TryLocked(s: State, i: nat): State
    requires Refers(s, i)
  {
    var g := s.guards[i];
    if g.lock == None || g.owns || s.locked[g.lock.value] then s
    else SetGuard(s, i, g.(owns := true)).(locked := s.locked[g.lock.value := true])
  }

  function Unlocked(s: State, i: nat, g: Guard): State
    requires Refers(s, i)
  {
    if s.guards[i].owns && s.guards[i].lock.Some? then UnlockAt(SetGuard(s, i, g), s.guards[i].lock.value)
    else SetGuard(s, i, g)
  }

  function Next(s: State, a: Action): State
    requires Enabled(s, a)
  {
    match a
    case Acquire(k) => s.(locked := s.locked[k := true], loose := s.loose[k := true])
    case Abandon(k) => UnlockAt(s.(loose := s.loose[k := false]), k)
    case Defer(i, k) => SetGuard(s, i, Guard(Some(k), false))
    case Adopt(i, k) => SetGuard(s, i, Guard(Some(k), true)).(loose := s.loose[k := false])
    case Lock(i) => TryLocked(s, i)
    case TryLock(i) => TryLocked(s, i)
    case Unlock(i) => if s.guards[i].owns then Unlocked(s, i, s.guards[i].(owns := false)) else s
    case Move(i, j) => SetGuard(SetGuard(s, i, s.guards[j]), j, Guard(None, false))
    case Swap(i, j) => SetGuard(SetGuard(s, i, s.guards[j]), j, s.guards[i])
    case Release(i) =>
      var g := s.guards[i];
      var s' := SetGuard(s, i, Guard(None, false));
      if g.owns && g.lock.Some? then s'.(loose := s.loose[g.lock.value := true]) else s'
    case Destroy(i) => Unlocked(s, i, Guard(None, false))
  }

  ghost predicate Executes(s: State, trace: seq<Action>, t: State)
    decreases |trace|
  {
    if trace == [] then s == t
    else Enabled(s, trace[0]) && Executes(Next(s, trace[0]), trace[1..], t)
  }

  ghost predicate Reachable(t: State) {
    exists s, trace :: Init(s) && Executes(s, trace, t)
  }

  function Bit(b: bool): int { if b then 1 else 0 }

  ghost function Owns(k: nat): Guard -> int {
    (g: Guard) => if g.owns && g.lock == Some(k) then 1 else 0
  }

  ghost function Owners(s: State, k: nat): int
    requires k < |s.loose|
  {
    Sum(s.guards, Owns(k)) + Bit(s.loose[k])
  }

  ghost predicate Inv(s: State) {
    && !s.fault && |s.loose| == |s.locked|
    && (forall i: nat | i < |s.guards| :: Refers(s, i) && (s.guards[i].owns ==> s.guards[i].lock.Some?))
    && (forall k: nat | k < |s.locked| :: Owners(s, k) == Bit(s.locked[k]))
  }

  /** What becomes of the guards: of those that an operation names, and of a third one. */
  lemma GuardsAfter(s: State, a: Action, m: nat)
    requires Inv(s) && Enabled(s, a) && !a.Acquire? && !a.Abandon? && m < |s.guards|
    ensures |Next(s, a).guards| == |s.guards|
    ensures var g, g' := s.guards[a.i], Next(s, a).guards[a.i];
            match a
            case Defer(_, k) => g' == Guard(Some(k), false)
            case Adopt(_, k) => g' == Guard(Some(k), true)
            case Lock(_) => g' == if g.lock == None then g else g.(owns := true)
            case TryLock(_) => g' == if g.lock == None then g else g.(owns := g.owns || !s.locked[g.lock.value])
            case Unlock(_) => g' == g.(owns := false)
            case Move(_, j) => g' == s.guards[j] && Next(s, a).guards[j] == Guard(None, false)
            case Swap(_, j) => g' == s.guards[j] && Next(s, a).guards[j] == g
            case _ => g' == Guard(None, false)
    ensures m != a.i && !((a.Move? || a.Swap?) && m == a.j) ==> Next(s, a).guards[m] == s.guards[m]
  {
    assert Refers(s, a.i);
  }

  /** One guard changes, and with it whether its lock is locked or loose. */
  lemma GuardKeepsInv(s: State, i: nat, g: Guard, locked: seq<bool>, loose: seq<bool>)
    requires Inv(s) && i < |s.guards| && |locked| == |s.locked| == |loose|
    requires (g.lock.Some? ==> g.lock.value < |locked|) && (g.owns ==> g.lock.Some?)
    requires forall k: nat | k < |locked| ::
               Bit(locked[k]) - Bit(loose[k]) - Owns(k)(g) == Bit(s.locked[k]) - Bit(s.loose[k]) - Owns(k)(s.guards[i])
    ensures Inv(State(locked, loose, s.guards[i := g], s.fault))
  {
    var s' := State(locked, loose, s.guards[i := g], s.fault);
    forall k: nat | k < |locked| ensures Owners(s', k) == Bit(locked[k]) {
      SumUpdate(s.guards, i, g, Owns(k));
      assert Owners(s, k) == Bit(s.locked[k]);
    }
    forall j: nat | j < |s'.guards| ensures Refers(s', j) && (s'.guards[j].owns ==> s'.guards[j].lock.Some?) {
      assert Refers(s, j);
    }
  }

  lemma OwnedIsLocked(s: State, i: nat, k: nat)
    requires Inv(s) && i < |s.guards| && s.guards[i] == Guard(Some(k), true)
    ensures k < |s.locked| && s.locked[k] && !s.loose[k]
  {
    assert Refers(s, i);
    SumAtLeast(s.guards, Owns(k));
    assert Owns(k)(s.guards[i]) == 1 && Owners(s, k) == Bit(s.locked[k]);
  }

  lemma TwoGuardsKeepInv(s: State, i: nat, j: nat)
    requires Inv(s) && i < |s.guards| && j < |s.guards|
    ensures Inv(SetGuard(SetGuard(s, i, s.guards[j]), j, s.guards[i]))
  {
    var s' := SetGuard(SetGuard(s, i, s.guards[j]), j, s.guards[i]);
    forall k: nat | k < |s.locked| ensures Owners(s', k) == Owners(s, k) {
      SumUpdate(s.guards, i, s.guards[j], Owns(k));
      SumUpdate(s.guards[i := s.guards[j]], j, s.guards[i], Owns(k));
    }
    forall m: nat | m < |s'.guards| ensures Refers(s', m) && (s'.guards[m].owns ==> s'.guards[m].lock.Some?) {
      assert Refers(s, i) && Refers(s, j) && Refers(s, m);
    }
  }

  lemma UnlockedKeepsInv(s: State, i: nat, g: Guard)
    requires Inv(s) && i < |s.guards| && !g.owns && (g.lock == None || g.lock == s.guards[i].lock)
    ensures Refers(s, i) && Inv(Unlocked(s, i, g))
  {
    assert Refers(s, i);
    if s.guards[i].owns {
      var k := s.guards[i].lock.value;
      OwnedIsLocked(s, i, k);
      GuardKeepsInv(s, i, g, s.locked[k := false], s.loose);
    } else {
      GuardKeepsInv(s, i, g, s.locked, s.loose);
    }
  }

  lemma OutsideKeepsInv(s: State, a: Action)
    requires Inv(s) && Enabled(s, a) && (a.Acquire? || a.Abandon?)
    ensures Inv(Next(s, a))
  {
    SumAtLeast(s.guards, Owns(a.k));
    assert Owners(s, a.k) == Bit(s.locked[a.k]);
    var s' := Next(s, a);
    forall k: nat | k < |s'.locked| ensures Owners(s', k) == Bit(s'.locked[k]) {
      assert Owners(s, k) == Bit(s.locked[k]);
    }
    forall m: nat | m < |s'.guards| ensures Refers(s', m) { assert Refers(s, m); }
  }

  lemma StepKeepsInv(s: State, a: Action)
    requires Inv(s) && Enabled(s, a)
    ensures Inv(Next(s, a))
  {
    match a
    case Acquire(_) => OutsideKeepsInv(s, a);
    case Abandon(_) => OutsideKeepsInv(s, a);
    case Defer(i, k) => GuardKeepsInv(s, i, Guard(Some(k), false), s.locked, s.loose);
    case Adopt(i, k) => GuardKeepsInv(s, i, Guard(Some(k), true), s.locked, s.loose[k := false]);
    case Lock(i) => TryLockedKeepsInv(s, i);
    case TryLock(i) => TryLockedKeepsInv(s, i);
    case Unlock(i) => if s.guards[i].owns { UnlockedKeepsInv(s, i, s.guards[i].(owns := false)); }
    case Move(i, j) => TwoGuardsKeepInv(s, i, j);
    case Swap(i, j) => TwoGuardsKeepInv(s, i, j);
    case Release(i) => ReleaseKeepsInv(s, i);
    case Destroy(i) => UnlockedKeepsInv(s, i, Guard(None, false));
  }

  lemma TryLockedKeepsInv(s: State, i: nat)
    requires Inv(s) && Refers(s, i)
    ensures Inv(TryLocked(s, i))
  {
    var g := s.guards[i];
    if g.lock.Some? && !g.owns && !s.locked[g.lock.value] {
      GuardKeepsInv(s, i, g.(owns := true), s.locked[g.lock.value := true], s.loose);
    }
  }

  lemma ReleaseKeepsInv(s: State, i: nat)
    requires Inv(s) && Enabled(s, Release(i))
    ensures Inv(Next(s, Release(i)))
  {
    var g := s.guards[i];
    if g.owns {
      OwnedIsLocked(s, i, g.lock.value);
      GuardKeepsInv(s, i, Guard(None, false), s.locked, s.loose[g.lock.value := true]);
    } else {
      GuardKeepsInv(s, i, Guard(None, false), s.locked, s.loose);
    }
  }

  lemma {:induction false} RunKeepsInv(s: State, trace: seq<Action>, t: State)
    requires Inv(s) && Executes(s, trace, t)
    ensures Inv(t)
    decreases |trace|
  {
    if trace != [] {
      StepKeepsInv(s, trace[0]);
      RunKeepsInv(Next(s, trace[0]), trace[1..], t);
    }
  }

  /**
   Over any sequence of guard operations a lock is locked exactly while one owner is left, a guard
   or somebody who released or never used one; no guard unlocks a lock that is not locked.
   */
  lemma LockedWhileOwned(t: State, k: nat)
    requires Reachable(t) && k < |t.locked|
    ensures !t.fault && |t.loose| == |t.locked|
    ensures Owners(t, k) == Bit(t.locked[k])
    ensures forall i: nat | i < |t.guards| && t.guards[i] == Guard(Some(k), true) :: t.locked[k]
  {
    var s, trace :| Init(s) && Executes(s, trace, t);
    forall m: nat | m < |s.locked| ensures Owners(s, m) == 0 { SumZero(s.guards, Owns(m)); }
    RunKeepsInv(s, trace, t);
    forall i: nat | i < |t.guards| && t.guards[i] == Guard(Some(k), true) ensures t.locked[k] {
      OwnedIsLocked(t, i, k);
    }
  }

  /** When all guards are gone and nobody holds a lock without one, every lock is free again. */
  lemma AllFreeAgain(t: State, k: nat)
    requires Reachable(t) && k < |t.locked|
    requires (forall g | g in t.guards :: !g.owns) && (forall m | 0 <= m < |t.loose| :: !t.loose[m])
    ensures !t.locked[k]
  {
    LockedWhileOwned(t, k);
    SumZero(t.guards, Owns(k));
  }
}
