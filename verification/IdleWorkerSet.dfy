/**
 The set of idle workers of the thread pool: one atomic flag per worker and an approximate size,
 updated after the flag. The first part is the scanning code, with other threads changing flags
 and size between any two atomic operations; the second is the accounting over every interleaving.
 */
module IdleWorkerSet {
  import opened Prelude

  // ---------------------------------------------------------------- scanning

  /** The k-th worker of a scan from `start`. */
  function Position(start: nat, k: nat, n: nat): nat
    requires start < n && k < n
  {
    if start + k < n then start + k else start + k - n
  }

  lemma ModOnce(x: nat, n: nat)
    requires 0 < n <= x < 2 * n
    ensures x % n == x - n
  {
    assert x / n == 1;
  }

  /** This is the index that the code computes: a scan wraps round at most once. */
  lemma PositionIsModulus(start: nat, k: nat, n: nat)
    requires start < n && k < n
    ensures Position(start, k, n) == (start + k) % n
  {
    if start + k >= n { ModOnce(start + k, n); }
  }

  /** The workers acquired by a scan from the `first`-th behind `start` whose attempts went as `tries`. */
  function Picks(start: nat, first: nat, n: nat, tries: seq<bool>): seq<nat>
    requires start < n && first + |tries| <= n
  {
    if tries == [] then []
    else
      var last := |tries| - 1;
      Picks(start, first, n, tries[..last]) + if tries[last] then [Position(start, first + last, n)] else []
  }

  lemma {:induction false} PicksAreAttempts(start: nat, first: nat, n: nat, tries: seq<bool>, p: nat)
    requires start < n && first + |tries| <= n && p in Picks(start, first, n, tries)
    ensures exists k | 0 <= k < |tries| :: tries[k] && p == Position(start, first + k, n)
  {
    var last := |tries| - 1;
    if p in Picks(start, first, n, tries[..last]) {
      PicksAreAttempts(start, first, n, tries[..last], p);
      var k :| 0 <= k < last && tries[..last][k] && p == Position(start, first + k, n);
      assert tries[k];
    } else {
      assert tries[last] && p == Position(start, first + last, n);
    }
  }

  /** A scan acquires different workers; one that starts behind its caller never acquires the caller. */
  lemma {:induction false} PicksAreDistinct(start: nat, first: nat, n: nat, tries: seq<bool>)
    requires start < n && first + |tries| <= n
    ensures forall p | p in Picks(start, first, n, tries) :: p < n && (first > 0 ==> p != start)
    ensures NoDup(Picks(start, first, n, tries))
  {
    if tries != [] {
      var last := |tries| - 1;
      var before := Picks(start, first, n, tries[..last]);
      PicksAreDistinct(start, first, n, tries[..last]);
      forall p | p in before ensures p != Position(start, first + last, n) {
        PicksAreAttempts(start, first, n, tries[..last], p);
        var k :| 0 <= k < last && tries[..last][k] && p == Position(start, first + k, n);
      }
      var after := Picks(start, first, n, tries);
      assert after == before + if tries[last] then [Position(start, first + last, n)] else [];
      forall i, j | 0 <= i < j < |after| ensures after[i] != after[j] {
        assert after[i] == before[i] && before[i] in before;
        if j < |before| { assert after[j] == before[j] != before[i]; }
      }
    }
  }

  // ---------------------------------------------------------------- what one call does, whatever others do

  ghost function IsIdle(b: bool): int { if b then 1 else 0 }

  /** What other threads do to the memory: exchange a flag, or update the size. */
  datatype Change = Store(i: nat, value: bool) | AddSize(d: int)

  /** By how much somebody has changed flag i, an idle flag counting one. */
  datatype Stored = Stored(i: nat, delta: int)

  /**
   The memory, and what other threads are going to do to it: the k-th element of `script` happens
   before the k-th atomic operation from now on. The last two fields are histories: what the others
   have still to add to the size for the flags they have exchanged, and how they have changed flags.
   */
  datatype Mem = Mem(flags: seq<bool>, size: int, script: seq<seq<Change>>, owed: int, stores: seq<Stored>)

  ghost function Changed(m: Mem, c: Change): (r: Mem)
    ensures |r.flags| == |m.flags| && r.script == m.script
  {
    match c
    case Store(i, value) =>
      if i >= |m.flags| then m
      else
        var delta := IsIdle(value) - IsIdle(m.flags[i]);
        m.(flags := m.flags[i := value], owed := m.owed + delta, stores := m.stores + [Stored(i, delta)])
    case AddSize(d) => m.(size := m.size + d, owed := m.owed - d)
  }

  ghost function ChangedBy(m: Mem, cs: seq<Change>): (r: Mem)
    ensures |r.flags| == |m.flags| && r.script == m.script
  {
    if cs == [] then m else Changed(ChangedBy(m, cs[..|cs| - 1]), cs[|cs| - 1])
  }

  /** The memory at the next atomic operation. */
  ghost function Interfered(m: Mem): (r: Mem)
    ensures |r.flags| == |m.flags|
  {
    if m.script == [] then m else ChangedBy(m.(script := m.script[1..]), m.script[0])
  }

  /** Exchange the flag; the size follows, later, if this has changed it. */
  ghost function Exchanged(m: Mem, i: nat, value: bool): (r: Mem)
    requires i < |m.flags|
    ensures |r.flags| == |m.flags|
  {
    var a := Interfered(m);
    var b := a.(flags := a.flags[i := value]);
    if a.flags[i] == value then b
    else
      var c := Interfered(b);
      c.(size := c.size + IsIdle(value) - IsIdle(a.flags[i]))
  }

  /** A worker can be acquired if it is idle when looked at and still idle when its flag is exchanged. */
  ghost function Acquired(m: Mem, i: nat): bool
    requires i < |m.flags|
  {
    Interfered(m).flags[i] && Interfered(Interfered(m)).flags[i]
  }

  ghost function AfterAttempt(m: Mem, i: nat): (r: Mem)
    requires i < |m.flags|
    ensures |r.flags| == |m.flags|
  {
    if Interfered(m).flags[i] then Exchanged(Interfered(m), i, false) else Interfered(m)
  }

  /** An attempt to acquire worker i leads from one memory to another. */
  ghost predicate Tried(m: Mem, i: nat, after: Mem, acquired: bool) {
    i < |m.flags| && after == AfterAttempt(m, i) && acquired == Acquired(m, i)
  }

  /**
   A scan of n workers, from the `first`-th behind `start`: the outcomes of its attempts, and the
   memories before, between and after them.
   */
  ghost predicate IsScan(mems: seq<Mem>, tries: seq<bool>, start: nat, first: nat, n: nat) {
    && |mems| == |tries| + 1 && start < n && first + |tries| <= n
    && forall k: nat | k < |tries| :: TriedAt(mems, tries, start, first, n, k)
  }

  ghost predicate TriedAt(mems: seq<Mem>, tries: seq<bool>, start: nat, first: nat, n: nat, k: nat)
    requires k < |tries| < |mems| && start < n && first + |tries| <= n
  {
    Tried(mems[k], Position(start, first + k, n), mems[k + 1], tries[k])
  }

  lemma ScanGoesOn(mems: seq<Mem>, tries: seq<bool>, start: nat, first: nat, n: nat, after: Mem, acquired: bool)
    requires IsScan(mems, tries, start, first, n) && first + |tries| < n
    requires Tried(mems[|tries|], Position(start, first + |tries|, n), after, acquired)
    ensures IsScan(mems + [after], tries + [acquired], start, first, n)
    ensures Picks(start, first, n, tries + [acquired])
         == Picks(start, first, n, tries) + if acquired then [Position(start, first + |tries|, n)] else []
  {
    assert (tries + [acquired])[..|tries|] == tries;
    var mems', tries' := mems + [after], tries + [acquired];
    forall k: nat | k < |tries'| ensures TriedAt(mems', tries', start, first, n, k) {
      if k < |tries| { assert TriedAt(mems, tries, start, first, n, k); }
    }
  }

  // ---------------------------------------------------------------- the size is accounted for

  /** The size is the number of idle flags, but for what other threads have still to add. */
  ghost predicate Balanced(m: Mem) { m.size + m.owed == Sum(m.flags, IsIdle) }

  lemma {:induction false} ChangesKeepBalance(m: Mem, cs: seq<Change>)
    requires Balanced(m)
    ensures Balanced(ChangedBy(m, cs))
  {
    if cs != [] {
      var last := |cs| - 1;
      ChangesKeepBalance(m, cs[..last]);
      var before, c := ChangedBy(m, cs[..last]), cs[last];
      if c.Store? && c.i < |m.flags| { SumUpdate(before.flags, c.i, c.value, IsIdle); }
    }
  }

  /** Interference leaves the difference between the size and the flags to those who cause it. */
  lemma InterferenceIsOwed(m: Mem)
    ensures Interfered(m).size + Interfered(m).owed - Sum(Interfered(m).flags, IsIdle)
         == m.size + m.owed - Sum(m.flags, IsIdle)
  {
    if m.script != [] {
      var d := Sum(m.flags, IsIdle) - m.size - m.owed;
      var n := m.(script := m.script[1..], owed := m.owed + d);
      ChangesKeepBalance(n, m.script[0]);
      OwedShifts(m.(script := m.script[1..]), m.script[0], d);
    }
  }

  lemma {:induction false} OwedShifts(m: Mem, cs: seq<Change>, d: int)
    ensures ChangedBy(m.(owed := m.owed + d), cs) == ChangedBy(m, cs).(owed := ChangedBy(m, cs).owed + d)
  {
    if cs != [] { OwedShifts(m, cs[..|cs| - 1], d); }
  }

  /** A call of set_idle or set_active owes nothing to the size when it returns. */
  lemma ExchangeIsAccountedFor(m: Mem, i: nat, value: bool)
    requires Balanced(m) && i < |m.flags|
    ensures Balanced(Exchanged(m, i, value))
  {
    InterferenceIsOwed(m);
    var a := Interfered(m);
    var b := a.(flags := a.flags[i := value]);
    SumUpdate(a.flags, i, value, IsIdle);
    InterferenceIsOwed(b);
  }

  lemma AttemptIsAccountedFor(m: Mem, i: nat)
    requires Balanced(m) && i < |m.flags|
    ensures Balanced(AfterAttempt(m, i))
  {
    InterferenceIsOwed(m);
    if Interfered(m).flags[i] { ExchangeIsAccountedFor(Interfered(m), i, false); }
  }

  /** However far a scan has come, it owes nothing to the size. */
  lemma {:induction false} ScanIsAccountedFor(mems: seq<Mem>, tries: seq<bool>, start: nat, first: nat, n: nat, k: nat)
    requires IsScan(mems, tries, start, first, n) && Balanced(mems[0]) && k <= |tries|
    ensures Balanced(mems[k])
  {
    if k > 0 {
      ScanIsAccountedFor(mems, tries, start, first, n, k - 1);
      assert TriedAt(mems, tries, start, first, n, k - 1);
      AttemptIsAccountedFor(mems[k - 1], Position(start, first + k - 1, n));
    }
  }

  // ---------------------------------------------------------------- what a call has changed itself

  ghost function OnFlag(i: nat): Stored -> int { (x: Stored) => if x.i == i then x.delta else 0 }

  /** How flag i has changed from one memory to another, less what the others have done to it. */
  ghost function OwnChange(m: Mem, r: Mem, i: nat): int
    requires i < |m.flags| == |r.flags|
  {
    IsIdle(r.flags[i]) - IsIdle(m.flags[i]) - (Sum(r.stores, OnFlag(i)) - Sum(m.stores, OnFlag(i)))
  }

  lemma ChangeIsOthers(m: Mem, c: Change, i: nat)
    requires i < |m.flags|
    ensures OwnChange(m, Changed(m, c), i) == 0
  {
    if c.Store? && c.i < |m.flags| {
      SumAppend(m.stores, Stored(c.i, IsIdle(c.value) - IsIdle(m.flags[c.i])), OnFlag(i));
    }
  }

  lemma {:induction false} ChangesAreOthers(m: Mem, cs: seq<Change>, i: nat)
    requires i < |m.flags|
    ensures OwnChange(m, ChangedBy(m, cs), i) == 0
  {
    if cs != [] {
      ChangesAreOthers(m, cs[..|cs| - 1], i);
      ChangeIsOthers(ChangedBy(m, cs[..|cs| - 1]), cs[|cs| - 1], i);
    }
  }

  lemma InterferenceIsOthers(m: Mem, i: nat)
    requires i < |m.flags|
    ensures OwnChange(m, Interfered(m), i) == 0
  {
    if m.script != [] { ChangesAreOthers(m.(script := m.script[1..]), m.script[0], i); }
  }

  /** set_idle and set_active change the flag from what their exchange has found, and no other flag. */
  lemma ExchangeIsOwn(m: Mem, i: nat, value: bool, j: nat)
    requires i < |m.flags| && j < |m.flags|
    ensures OwnChange(m, Exchanged(m, i, value), j)
         == if j == i then IsIdle(value) - IsIdle(Interfered(m).flags[i]) else 0
  {
    InterferenceIsOthers(m, j);
    var a := Interfered(m);
    InterferenceIsOthers(a.(flags := a.flags[i := value]), j);
  }

  /** An attempt succeeds exactly if it has itself made an idle worker active; it changes no other flag. */
  lemma SuccessIsOwnChange(m: Mem, i: nat, j: nat)
    requires i < |m.flags| && j < |m.flags|
    ensures OwnChange(m, AfterAttempt(m, i), j) == if j == i && Acquired(m, i) then -1 else 0
  {
    InterferenceIsOthers(m, j);
    if Interfered(m).flags[i] { ExchangeIsOwn(Interfered(m), i, false, j); }
  }

  /** A scan has itself made active exactly the workers that it has acquired. */
  lemma {:induction false} PicksAreOwnChanges(mems: seq<Mem>, tries: seq<bool>, start: nat, first: nat, n: nat, j: nat)
    requires IsScan(mems, tries, start, first, n) && |mems[0].flags| == n && j < n
    ensures |mems[|tries|].flags| == n
    ensures OwnChange(mems[0], mems[|tries|], j) == if j in Picks(start, first, n, tries) then -1 else 0
  {
    if tries != [] {
      var last := |tries| - 1;
      var before, p := Picks(start, first, n, tries[..last]), Position(start, first + last, n);
      ScanPrefix(mems, tries, start, first, n);
      PicksAreOwnChanges(mems[..|tries|], tries[..last], start, first, n, j);
      assert TriedAt(mems, tries, start, first, n, last);
      SuccessIsOwnChange(mems[last], p, j);
      NewPick(start, first, n, tries, j);
      assert OwnChange(mems[0], mems[|tries|], j)
          == (if j in before then -1 else 0) + if j == p && tries[last] then -1 else 0;
    }
  }

  lemma NewPick(start: nat, first: nat, n: nat, tries: seq<bool>, j: nat)
    requires start < n && first + |tries| <= n && tries != []
    ensures var before := Picks(start, first, n, tries[..|tries| - 1]);
            var taken := j == Position(start, first + |tries| - 1, n) && tries[|tries| - 1];
            (j in Picks(start, first, n, tries) <==> j in before || taken) && !(j in before && taken)
  {
    PicksAreDistinct(start, first, n, tries);
    var before, p := Picks(start, first, n, tries[..|tries| - 1]), Position(start, first + |tries| - 1, n);
    assert Picks(start, first, n, tries) == before + if tries[|tries| - 1] then [p] else [];
    if tries[|tries| - 1] && p in before { NotTwice(before, p); }
  }

  lemma NotTwice(s: seq<nat>, p: nat)
    requires p in s
    ensures !NoDup(s + [p])
  {
    var k :| 0 <= k < |s| && s[k] == p;
    assert (s + [p])[k] == (s + [p])[|s|];
  }

  lemma ScanPrefix(mems: seq<Mem>, tries: seq<bool>, start: nat, first: nat, n: nat)
    requires IsScan(mems, tries, start, first, n) && tries != []
    ensures IsScan(mems[..|tries|], tries[..|tries| - 1], start, first, n)
  {
    var mems', tries' := mems[..|tries|], tries[..|tries| - 1];
    forall k: nat | k < |tries'| ensures TriedAt(mems', tries', start, first, n, k) {
      assert TriedAt(mems, tries, start, first, n, k);
    }
  }

  class IdleWorkerSet {
    const idle: array<bool>
    var approxSize: int
    var script: seq<seq<Change>>
    ghost var owed: int
    ghost var stores: seq<Stored>

    ghost function Value(): Mem
      reads this, idle
    {
      Mem(idle[..], approxSize, script, owed, stores)
    }

    constructor (n: nat, script: seq<seq<Change>>)
      ensures fresh(idle) && idle.Length == n && Balanced(Value())
      ensures approxSize == 0 && this.script == script && forall i | 0 <= i < n :: !idle[i]
    {
      idle := new bool[n](i => false);
      approxSize, this.script, owed, stores := 0, script, 0, [];
      new;
      SumZero(idle[..], IsIdle);
    }

    method OtherRuns(c: Change)
      modifies `approxSize, `owed, `stores, idle
      ensures Value() == Changed(old(Value()), c)
    {
      match c
      case Store(i, value) =>
        if i < idle.Length {
          ghost var delta := IsIdle(value) - IsIdle(idle[i]);
          owed, stores := owed + delta, stores + [Stored(i, delta)];
          idle[i] := value;
          assert idle[..] == old(idle[..])[i := value];
        }
      case AddSize(d) =>
        approxSize, owed := approxSize + d, owed - d;
    }

    /** Interference, as the script says. */
    method OthersRun()
      modifies this, idle
      ensures Value() == Interfered(old(Value()))
    {
      if script == [] { return; }
      var cs := script[0];
      script := script[1..];
      ghost var m := Value();
      for k := 0 to |cs|
        invariant script == old(script)[1..] && Value() == ChangedBy(m, cs[..k])
      {
        assert cs[..k + 1][..k] == cs[..k];
        OtherRuns(cs[k]);
      }
      assert cs[..|cs|] == cs;
    }

    /** The exchange of a flag. */
    method Exchange(i: nat, value: bool) returns (before: bool)
      requires i < idle.Length
      modifies this, idle
      ensures before == Interfered(old(Value())).flags[i]
      ensures Value() == Interfered(old(Value())).(flags := Interfered(old(Value())).flags[i := value])
    {
      OthersRun();
      before := idle[i];
      ghost var flags := idle[..];
      idle[i] := value;
      assert idle[..] == flags[i := value];
    }

    method AddToSize(d: int)
      modifies this, idle
      ensures var m := Interfered(old(Value())); Value() == m.(size := m.size + d)
    {
      OthersRun();
      approxSize := approxSize + d;
    }

    /** The flag is idle, and one is added to the size exactly if the exchange found it active. */
    method SetIdle(i: nat)
      requires i < idle.Length && Balanced(Value())
      modifies this, idle
      ensures Value() == Exchanged(old(Value()), i, true) && Balanced(Value())
      ensures var a := Interfered(old(Value()));
              if a.flags[i] then Value() == a
              else var c := Interfered(a.(flags := a.flags[i := true])); Value() == c.(size := c.size + 1)
      ensures forall j: nat | j < idle.Length && j != i :: OwnChange(old(Value()), Value(), j) == 0
      ensures OwnChange(old(Value()), Value(), i) in {0, 1}
    {
      ExchangeIsAccountedFor(Value(), i, true);
      forall j: nat | j < idle.Length { ExchangeIsOwn(Value(), i, true, j); }
      var before := Exchange(i, true);
      if before {
        return;
      }
      AddToSize(1);
    }

    method SetActive(i: nat)
      requires i < idle.Length && Balanced(Value())
      modifies this, idle
      ensures Value() == Exchanged(old(Value()), i, false) && Balanced(Value())
      ensures var a := Interfered(old(Value()));
              if !a.flags[i] then Value() == a
              else var c := Interfered(a.(flags := a.flags[i := false])); Value() == c.(size := c.size - 1)
      ensures forall j: nat | j < idle.Length && j != i :: OwnChange(old(Value()), Value(), j) == 0
      ensures OwnChange(old(Value()), Value(), i) in {0, -1}
    {
      ExchangeIsAccountedFor(Value(), i, false);
      forall j: nat | j < idle.Length { ExchangeIsOwn(Value(), i, false, j); }
      var before := Exchange(i, false);
      if !before {
        return;
      }
      AddToSize(-1);
    }

    /** Succeeds exactly when the flag is idle both when it is loaded and when it is exchanged. */
    method TryAcquireFlag(i: nat) returns (acquired: bool)
      requires i < idle.Length
      modifies this, idle
      ensures acquired == Acquired(old(Value()), i) && Value() == AfterAttempt(old(Value()), i)
      ensures old(Balanced(Value())) ==> Balanced(Value())
      ensures var a := Interfered(old(Value())); acquired == (a.flags[i] && Interfered(a).flags[i])
      ensures forall j: nat | j < idle.Length ::
                OwnChange(old(Value()), Value(), j) == if j == i && acquired then -1 else 0
    {
      forall j: nat | j < idle.Length { SuccessIsOwnChange(Value(), i, j); }
      if Balanced(Value()) { AttemptIsAccountedFor(Value(), i); }
      OthersRun();
      if !idle[i] {
        return false;
      }
      acquired := Exchange(i, false);
      if acquired {
        AddToSize(-1);
      }
    }

    /** The next attempt of a scan. */
    method TryNext(start: nat, i: nat, ghost first: nat, ghost mems: seq<Mem>, ghost tries: seq<bool>)
      returns (acquired: bool, ghost mems': seq<Mem>, ghost tries': seq<bool>)
      requires IsScan(mems, tries, start, first, idle.Length) && i == first + |tries| < idle.Length
      requires mems[|tries|] == Value()
      modifies this, idle
      ensures IsScan(mems', tries', start, first, idle.Length)
      ensures mems' == mems + [Value()] && tries' == tries + [acquired]
      ensures Picks(start, first, idle.Length, tries')
           == Picks(start, first, idle.Length, tries) + if acquired then [Position(start, i, idle.Length)] else []
    {
      acquired := TryAcquireFlag(Position(start, i, idle.Length));
      mems', tries' := mems + [Value()], tries + [acquired];
      ScanGoesOn(mems, tries, start, first, idle.Length, Value(), acquired);
    }

    method LoadSize() returns (size: int)
      modifies this, idle
      ensures Value() == Interfered(old(Value())) && size == Value().size
    {
      OthersRun();
      size := approxSize;
    }

    /**
     Tries every other worker in turn, starting behind the caller, until it has acquired as many
     as it may: no more than `maxCount`, and no more than the size it read at the beginning.
     */
    method FindIdleWorkers(caller: nat, maxCount: nat)
      returns (found: seq<nat>, ghost mems: seq<Mem>, ghost tries: seq<bool>)
      requires caller < idle.Length
      modifies this, idle
      ensures IsScan(mems, tries, caller, 1, idle.Length)
      ensures mems[0] == Interfered(old(Value())) && mems[|tries|] == Value()
      ensures found == Picks(caller, 1, idle.Length, tries)
      ensures StopsAt(Limit(mems[0].size, maxCount), |found|, tries, idle.Length - 1)
      ensures |found| <= maxCount && (found != [] ==> |found| <= mems[0].size)
      ensures |found| < maxCount && |found| < mems[0].size ==> |tries| == idle.Length - 1
      ensures forall j: nat | j < idle.Length :: OwnChange(old(Value()), Value(), j) == if j in found then -1 else 0
    {
      ghost var m := Value();
      var size := LoadSize();
      found, mems, tries := [], [Value()], [];
      forall j: nat | j < idle.Length { InterferenceIsOthers(m, j); }
      if size <= 0 {
        return;
      }
      found, mems, tries := ScanForMany(caller, if size < maxCount then size else maxCount);
      forall j: nat | j < idle.Length ensures OwnChange(m, Value(), j) == if j in found then -1 else 0 {
        PicksAreOwnChanges(mems, tries, caller, 1, idle.Length, j);
        assert OwnChange(m, mems[0], j) == 0;
      }
    }

    method ScanForMany(caller: nat, maxWaiters: nat)
      returns (found: seq<nat>, ghost mems: seq<Mem>, ghost tries: seq<bool>)
      requires caller < idle.Length
      modifies this, idle
      ensures IsScan(mems, tries, caller, 1, idle.Length) && mems[0] == old(Value()) && mems[|tries|] == Value()
      ensures found == Picks(caller, 1, idle.Length, tries)
      ensures StopsAt(maxWaiters, |found|, tries, idle.Length - 1)
    {
      found, mems, tries := [], [Value()], [];
      var i := 0;
      while i < idle.Length && |found| < maxWaiters
        invariant 0 <= i <= idle.Length && |found| <= maxWaiters
        invariant |tries| == if i == 0 then 0 else i - 1
        invariant IsScan(mems, tries, caller, 1, idle.Length) && mems[0] == old(Value()) && mems[|tries|] == Value()
        invariant found == Picks(caller, 1, idle.Length, tries)
        invariant |found| == maxWaiters && tries != [] ==> tries[|tries| - 1]
      {
        var index := Position(caller, i, idle.Length);
        if index != caller {
          var acquired;
          acquired, mems, tries := TryNext(caller, i, 1, mems, tries);
          if acquired {
            found := found + [index];
          }
        }
        i := i + 1;
      }
    }

    /** The first worker that could be acquired, if there is one; a caller outside the pool starts anywhere. */
    method FindIdleWorker(caller: Option<nat>, hash: nat)
      returns (found: Option<nat>, ghost mems: seq<Mem>, ghost tries: seq<bool>)
      requires idle.Length > 0 && (caller.Some? ==> caller.value < idle.Length)
      modifies this, idle
      ensures var start := if caller.Some? then caller.value else hash % idle.Length;
              && IsScan(mems, tries, start, First(caller), idle.Length)
              && mems[0] == Interfered(old(Value())) && mems[|tries|] == Value()
              && if mems[0].size <= 0 then found.None? && tries == []
                 else IsFirstPick(start, First(caller), idle.Length, found, tries)
      ensures forall j: nat | j < idle.Length ::
                OwnChange(old(Value()), Value(), j) == if found == Some(j) then -1 else 0
    {
      ghost var m := Value();
      var size := LoadSize();
      found, mems, tries := None, [Value()], [];
      forall j: nat | j < idle.Length { InterferenceIsOthers(m, j); }
      if size <= 0 {
        return;
      }
      var start := if caller.Some? then caller.value else hash % idle.Length;
      found, mems, tries := ScanForOne(start, caller);
      forall j: nat | j < idle.Length ensures OwnChange(m, Value(), j) == if found == Some(j) then -1 else 0 {
        PicksAreOwnChanges(mems, tries, start, First(caller), idle.Length, j);
        assert OwnChange(m, mems[0], j) == 0;
      }
    }

    method ScanForOne(start: nat, caller: Option<nat>)
      returns (found: Option<nat>, ghost mems: seq<Mem>, ghost tries: seq<bool>)
      requires start < idle.Length && (caller.Some? ==> caller.value == start)
      modifies this, idle
      ensures IsScan(mems, tries, start, First(caller), idle.Length)
      ensures mems[0] == old(Value()) && mems[|tries|] == Value()
      ensures IsFirstPick(start, First(caller), idle.Length, found, tries)
    {
      found, mems, tries := None, [Value()], [];
      for i := 0 to idle.Length
        invariant |tries| == (if i < First(caller) then 0 else i - First(caller)) && found.None?
        invariant IsScan(mems, tries, start, First(caller), idle.Length)
        invariant mems[0] == old(Value()) && mems[|tries|] == Value()
        invariant Picks(start, First(caller), idle.Length, tries) == []
      {
        var index := Position(start, i, idle.Length);
        if Some(index) != caller {
          var acquired;
          acquired, mems, tries := TryNext(start, i, First(caller), mems, tries);
          if acquired {
            found := Some(index);
            break;
          }
        }
      }
    }
  }

  /** A scan stops early only at its limit, and then right after the attempt that reached it. */
  ghost predicate StopsAt(limit: nat, count: nat, tries: seq<bool>, all: int) {
    && count <= limit && (count == limit || |tries| == all)
    && (count == limit && tries != [] ==> tries[|tries| - 1])
  }

  /** A caller that is a worker of the pool is not tried itself. */
  ghost function First(caller: Option<nat>): nat { if caller.Some? then 1 else 0 }

  /** The one worker picked is found by the last attempt; or none was, and all the workers were tried. */
  ghost predicate IsFirstPick(start: nat, first: nat, n: nat, found: Option<nat>, tries: seq<bool>)
    requires start < n && first + |tries| <= n
  {
    if found.None? then Picks(start, first, n, tries) == [] && first + |tries| == n
    else Picks(start, first, n, tries) == [found.value] && tries != [] && tries[|tries| - 1]
  }

  /** How many workers a scan may acquire. */
  function Limit(size: int, maxCount: nat): nat {
    if size <= 0 then 0 else if size < maxCount then size else maxCount
  }

  // ---------------------------------------------------------------- accounting

  /** What a thread has still to do to the size after its exchange of a flag. */
  datatype Thread = Free | OwesAdd | OwesSub

  datatype State = State(
    approxSize: int,
    idle: seq<bool>,
    threads: seq<Thread>,
    becameIdle: seq<nat>,      // how often each flag went from active to idle
    claims: seq<nat>)          // how often a thread found it idle and made it active

  datatype Action =
    | ExchangeIdle(t: nat, i: nat)     // in set_idle
    | ExchangeActive(t: nat, i: nat)   // in set_active and try_acquire_flag
    | UpdateSize(t: nat)

  ghost predicate Init(s: State) {
    && s.approxSize == 0 && |s.idle| == |s.becameIdle| == |s.claims|
    && (forall i | 0 <= i < |s.idle| :: !s.idle[i] && s.becameIdle[i] == 0 == s.claims[i])
    && (forall t | 0 <= t < |s.threads| :: s.threads[t].Free?)
  }

  predicate Enabled(s: State, a: Action) {
    && a.t < |s.threads| && |s.idle| == |s.becameIdle| == |s.claims|
    && match a
       case ExchangeIdle(t, i) => s.threads[t].Free? && i < |s.idle|
       case ExchangeActive(t, i) => s.threads[t].Free? && i < |s.idle|
       case UpdateSize(t) => !s.threads[t].Free?
  }

  function Next(s: State, a: Action): State
    requires Enabled(s, a)
  {
    match a
    case ExchangeIdle(t, i) =>
      if s.idle[i] then s
      else s.(idle := s.idle[i := true], threads := s.threads[t := OwesAdd],
              becameIdle := s.becameIdle[i := s.becameIdle[i] + 1])
    case ExchangeActive(t, i) =>
      if !s.idle[i] then s
      else s.(idle := s.idle[i := false], threads := s.threads[t := OwesSub], claims := s.claims[i := s.claims[i] + 1])
    case UpdateSize(t) =>
      s.(approxSize := s.approxSize + (if s.threads[t].OwesAdd? then 1 else -1), threads := s.threads[t := Free])
  }

  ghost predicate Executes(s: State, trace: seq<Action>, t: State)
    decreases |trace|
  {
    if trace == [] then s == t
    else Enabled(s, trace[0]) && Executes(Next(s, trace[0]), trace[1..], t)
  }

  ghost predicate Reachable(t: State) {
    exists s, trace :: Init(s) && Executes(s, trace, t)
  }

  /** Pending decrements minus pending increments. */
  ghost function Owed(t: Thread): int { match t case Free => 0 case OwesAdd => -1 case OwesSub => 1 }

  ghost predicate Inv(s: State) {
    && |s.idle| == |s.becameIdle| == |s.claims|
    && s.approxSize == Sum(s.idle, IsIdle) + Sum(s.threads, Owed)
    && forall i | 0 <= i < |s.idle| :: s.becameIdle[i] == s.claims[i] + if s.idle[i] then 1 else 0
  }

  lemma StepKeepsInv(s: State, a: Action)
    requires Inv(s) && Enabled(s, a)
    ensures Inv(Next(s, a))
  {
    var u := Next(s, a);
    SumUpdate(s.threads, a.t, u.threads[a.t], Owed);
    assert u.threads == s.threads[a.t := u.threads[a.t]];
    if !a.UpdateSize? {
      SumUpdate(s.idle, a.i, u.idle[a.i], IsIdle);
      assert u.idle == s.idle[a.i := u.idle[a.i]];
    }
  }

  lemma {:induction false} RunKeepsInv(s: State, trace: seq<Action>, t: State)
    requires Inv(s) && Executes(s, trace, t)
    ensures Inv(t)
    decreases |trace|
  {
    if trace != [] {
      StepKeepsInv(s, trace[0]);
      RunKeepsInv(Next(s, trace[0]), trace[1..], t);
    }
  }

  /**
   In every interleaving the size is the number of idle flags, corrected by the updates that are
   still to come; it is exact once there are none. And every time a flag became idle, exactly one
   thread has claimed it, or nobody yet.
   */
  lemma SizeIsAccountedFor(t: State)
    requires Reachable(t)
    ensures t.approxSize == Sum(t.idle, IsIdle) + Sum(t.threads, Owed)
    ensures (forall x | x in t.threads :: x.Free?) ==> t.approxSize == Sum(t.idle, IsIdle)
    ensures |t.idle| == |t.becameIdle| == |t.claims|
    ensures forall i | 0 <= i < |t.idle| :: t.becameIdle[i] == t.claims[i] + if t.idle[i] then 1 else 0
  {
    var s, trace :| Init(s) && Executes(s, trace, t);
    SumZero(s.idle, IsIdle);
    SumZero(s.threads, Owed);
    RunKeepsInv(s, trace, t);
    if forall x | x in t.threads :: x.Free? { SumZero(t.threads, Owed); }
  }
}
