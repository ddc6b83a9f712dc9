/**
 concurrencpp::task, a type-erased callable that can only be moved. A task owns one object in its
 buffer: the functor that resumes a coroutine awaiting an executor, a bare coroutine handle, or
 some other callable. Moving, assigning, calling, clearing and destroying tasks must resume or free
 what they own exactly once. A ledger records what has happened to every object.
 */
module Task {
  import opened Prelude

  /** Which vtable a task points to; the flags of an ordinary callable are those of make_vtable. */
  datatype Kind =
    | AwaitVia
    | CoroutineHandle
    | Callable(inlinable: bool, trivialMove: bool, trivialDestroy: bool)

  /** The buffer. An object is armed as long as it has not been moved from or, for a coroutine, used. */
  datatype Buffer = Raw | Object(kind: Kind, id: nat, armed: bool)

  datatype Slot = Slot(vtable: Option<Kind>, buffer: Buffer)

  /** What has happened to an object: calls of it, resumptions of its coroutine, destructions. */
  datatype Entry = Entry(kind: Kind, calls: nat, resumptions: nat, interrupted: bool, frees: nat)

  datatype State = State(slots: seq<Slot>, ledger: seq<Entry>)

  // ---------------------------------------------------------------- what operations do

  /** An armed object is destroyed without having been called. */
  function Dropped(e: Entry): Entry {
    match e.kind
    case AwaitVia => e.(interrupted := true, resumptions := e.resumptions + 1)
    case CoroutineHandle => e.(frees := e.frees + 1)
    case Callable(_, _, trivialDestroy) => if trivialDestroy then e else e.(frees := e.frees + 1)
  }

  /** An armed object is called and then destroyed. */
  function Used(e: Entry): Entry {
    match e.kind
    case Callable(_, _, trivialDestroy) => e.(calls := e.calls + 1, frees := e.frees + if trivialDestroy then 0 else 1)
    case _ => e.(calls := e.calls + 1, resumptions := e.resumptions + 1)
  }

  /** What a move leaves in the buffer it moves from. */
  function Leftover(b: Buffer): Buffer {
    if b.Object? && b.kind.Callable? && b.kind.trivialMove then b
    else if b.Object? && b.kind.Callable? && !b.kind.inlinable then b.(armed := false)
    else Raw
  }

  function MovedFrom(src: Slot): Slot {
    Slot(None, if src.vtable == None then src.buffer else Leftover(src.buffer))
  }

  predicate SlotOk(s: Slot, ledger: seq<Entry>) {
    s.vtable.Some? ==>
      s.buffer.Object? && s.buffer.kind == s.vtable.value && s.buffer.armed
      && s.buffer.id < |ledger| && ledger[s.buffer.id].kind == s.vtable.value
  }

  function Cleared(s: Slot): Slot {
    if s.vtable == None then s
    else if s.vtable.value.Callable? && s.vtable.value.trivialDestroy then s.(vtable := None)
    else Slot(None, Raw)
  }

  function ClearedLedger(s: Slot, ledger: seq<Entry>): seq<Entry>
    requires SlotOk(s, ledger)
  {
    if s.vtable == None then ledger else ledger[s.buffer.id := Dropped(ledger[s.buffer.id])]
  }

  function CalledLedger(s: Slot, ledger: seq<Entry>): seq<Entry>
    requires SlotOk(s, ledger)
  {
    if s.vtable == None then ledger else ledger[s.buffer.id := Used(ledger[s.buffer.id])]
  }

  // ---------------------------------------------------------------- a task as an object

  predicate HasTrivialDestructor(kind: Kind) { kind.Callable? && kind.trivialDestroy }

  /** Nothing but the entry of the object that the task owned has changed, and of that not the kind. */
  ghost predicate OnlyEntry(before: seq<Entry>, after: seq<Entry>, s: Slot) {
    && |after| == |before|
    && (forall x | 0 <= x < |before| :: after[x].kind == before[x].kind)
    && (forall x | 0 <= x < |before| && !(s.vtable.Some? && s.buffer.Object? && s.buffer.id == x) ::
          after[x] == before[x])
  }

  class Ledger {
    var entries: seq<Entry>
  }

  class Task {
    var vtable: Option<Kind>
    var buffer: Buffer

    function Value(): Slot
      reads this
    {
      Slot(vtable, buffer)
    }

    /** The call operators of the functors and of an ordinary callable. */
    method CallObject(w: Ledger)
      requires buffer.Object? && buffer.armed && buffer.id < |w.entries| && w.entries[buffer.id].kind == buffer.kind
      modifies `buffer, w
      ensures buffer == old(buffer).(armed := old(buffer).kind.Callable?)
      ensures var e := old(w.entries)[old(buffer).id];
              w.entries == old(w.entries)[old(buffer).id :=
                e.(calls := e.calls + 1, resumptions := e.resumptions + if e.kind.Callable? then 0 else 1)]
    {
      var e := w.entries[buffer.id];
      if buffer.kind.Callable? {
        w.entries := w.entries[buffer.id := e.(calls := e.calls + 1)];
      } else {
        w.entries := w.entries[buffer.id := e.(calls := e.calls + 1, resumptions := e.resumptions + 1)];
        buffer := buffer.(armed := false);
      }
    }

    /** The destructor of the object in the buffer: an armed functor still resumes its coroutine. */
    method DestroyObject(w: Ledger)
      requires buffer.Object? && buffer.id < |w.entries| && w.entries[buffer.id].kind == buffer.kind
      modifies `buffer, w
      ensures buffer == Raw && (!old(buffer).armed ==> w.entries == old(w.entries))
      ensures old(buffer).armed ==>
                var e := old(w.entries)[old(buffer).id];
                w.entries == old(w.entries)[old(buffer).id :=
                  match e.kind
                  case AwaitVia => e.(interrupted := true, resumptions := e.resumptions + 1)
                  case _ => e.(frees := e.frees + if HasTrivialDestructor(e.kind) then 0 else 1)]
    {
      var e := w.entries[buffer.id];
      if buffer.armed {
        match buffer.kind
        case AwaitVia =>
          w.entries := w.entries[buffer.id := e.(interrupted := true, resumptions := e.resumptions + 1)];
        case CoroutineHandle =>
          w.entries := w.entries[buffer.id := e.(frees := e.frees + 1)];
        case Callable(_, _, trivialDestroy) =>
          if !trivialDestroy {
            w.entries := w.entries[buffer.id := e.(frees := e.frees + 1)];
          } else {
            assert w.entries == w.entries[buffer.id := e];
          }
      }
      buffer := Raw;
    }

    /** Move-construct the object of `rhs` into this buffer, then destroy the one moved from. */
    method MoveDestroy(rhs: Task, w: Ledger)
      requires rhs != this
      requires rhs.buffer.Object? && rhs.buffer.id < |w.entries| && w.entries[rhs.buffer.id].kind == rhs.buffer.kind
      modifies `buffer, rhs`buffer, w
      ensures buffer == old(rhs.buffer) && w.entries == old(w.entries)
      ensures rhs.buffer == if old(rhs.buffer).kind.Callable? && !old(rhs.buffer).kind.inlinable
                            then old(rhs.buffer).(armed := false) else Raw
    {
      buffer := rhs.buffer;
      rhs.buffer := rhs.buffer.(armed := false);
      if !(buffer.kind.Callable? && !buffer.kind.inlinable) {
        rhs.DestroyObject(w);
      }
    }

    method BuildFrom(rhs: Task, w: Ledger)
      requires rhs != this && SlotOk(rhs.Value(), w.entries)
      modifies this, rhs, w
      ensures w.entries == old(w.entries)
      ensures vtable == old(rhs.vtable) && (vtable.Some? ==> buffer == old(rhs.buffer))
      ensures vtable == None ==> buffer == old(buffer)
      ensures rhs.vtable == None && rhs.Value() == MovedFrom(old(rhs.Value()))
    {
      vtable, rhs.vtable := rhs.vtable, None;
      if vtable == None { return; }
      if vtable.value == CoroutineHandle || vtable.value == AwaitVia {
        MoveDestroy(rhs, w);
        return;
      }
      if vtable.value.trivialMove {
        buffer := rhs.buffer;
        return;
      }
      MoveDestroy(rhs, w);
    }

    method Call(w: Ledger)
      requires SlotOk(Value(), w.entries)
      modifies this, w
      ensures vtable == None && buffer == (if old(vtable) == None then old(buffer) else Raw)
      ensures w.entries == CalledLedger(old(Value()), old(w.entries))
      ensures OnlyEntry(old(w.entries), w.entries, old(Value()))
      ensures old(vtable).Some? ==>
                var e, e' := old(w.entries)[old(buffer).id], w.entries[old(buffer).id];
                && e'.calls == e.calls + 1 && e'.interrupted == e.interrupted
                && e'.resumptions == e.resumptions + (if e.kind.Callable? then 0 else 1)
                && e'.frees == e.frees + if e.kind.Callable? && !e.kind.trivialDestroy then 1 else 0
    {
      var table := vtable;
      vtable := None;
      if table == None { return; }
      CallObject(w);
      DestroyObject(w);
    }

    method Clear(w: Ledger)
      requires SlotOk(Value(), w.entries)
      modifies this, w
      ensures vtable == None && Value() == Cleared(old(Value()))
      ensures w.entries == ClearedLedger(old(Value()), old(w.entries))
      ensures OnlyEntry(old(w.entries), w.entries, old(Value()))
      ensures old(vtable).Some? ==>
                var e, e' := old(w.entries)[old(buffer).id], w.entries[old(buffer).id];
                && e'.calls == e.calls && e'.interrupted == (e.interrupted || e.kind == AwaitVia)
                && e'.resumptions == e.resumptions + (if e.kind == AwaitVia then 1 else 0)
                && e'.frees == e.frees + if e.kind == AwaitVia || HasTrivialDestructor(e.kind) then 0 else 1
    {
      if vtable == None { return; }
      var table := vtable.value;
      vtable := None;
      if table.Callable? && table.trivialDestroy {
        assert w.entries == w.entries[buffer.id := w.entries[buffer.id]];
        return;
      }
      DestroyObject(w);
    }

    /** Move assignment; nothing happens when a task is assigned to itself. */
    method Assign(rhs: Task, w: Ledger)
      requires SlotOk(Value(), w.entries) && SlotOk(rhs.Value(), w.entries)
      modifies this, rhs, w
      ensures rhs == this ==> Value() == old(Value()) && w.entries == old(w.entries)
      ensures rhs != this ==> w.entries == ClearedLedger(old(Value()), old(w.entries))
      ensures rhs != this ==> rhs.Value() == MovedFrom(old(rhs.Value()))
      ensures rhs != this ==> Value() == Received(old(Value()), old(rhs.Value()))
      ensures rhs != this ==> vtable == old(rhs.vtable) && rhs.vtable == None
      ensures rhs != this && vtable.Some? ==> buffer == old(rhs.buffer)
      ensures rhs != this ==> OnlyEntry(old(w.entries), w.entries, old(Value()))
      ensures rhs != this && old(vtable).Some? ==>
                var e, e' := old(w.entries)[old(buffer).id], w.entries[old(buffer).id];
                && e'.calls == e.calls && e'.interrupted == (e.interrupted || e.kind == AwaitVia)
                && e'.resumptions == e.resumptions + (if e.kind == AwaitVia then 1 else 0)
                && e'.frees == e.frees + if e.kind == AwaitVia || HasTrivialDestructor(e.kind) then 0 else 1
    {
      if rhs == this { return; }
      Clear(w);
      BuildFrom(rhs, w);
    }
  }

  /** A task after it has been cleared and has received what `src` owned. */
  function Received(dst: Slot, src: Slot): Slot {
    if src.vtable == None then Cleared(dst) else src
  }

  // ---------------------------------------------------------------- any sequence of operations

  datatype Action =
    | Create(i: nat, kind: Kind)     // construct from a functor or a callable, in storage that owns nothing
    | MoveConstruct(i: nat, j: nat)  // slot i from slot j
    | Assign(i: nat, j: nat)
    | Call(i: nat)
    | Clear(i: nat)                  // also the destructor

  ghost predicate Init(s: State) {
    s.ledger == [] && forall x | x in s.slots :: x.vtable == None
  }

  ghost predicate Enabled(s: State, a: Action) {
    && a.i < |s.slots|
    && match a
       case Create(i, _) => s.slots[i].vtable == None
       case MoveConstruct(i, j) => j < |s.slots| && i != j && s.slots[i].vtable == None && SlotOk(s.slots[j], s.ledger)
       case Assign(i, j) => j < |s.slots| && SlotOk(s.slots[i], s.ledger) && SlotOk(s.slots[j], s.ledger)
       case _ => SlotOk(s.slots[a.i], s.ledger)
  }

  ghost function Next(s: State, a: Action): State
    requires Enabled(s, a)
  {
    match a
    case Create(i, kind) =>
      State(s.slots[i := Slot(Some(kind), Object(kind, |s.ledger|, true))], s.ledger + [Entry(kind, 0, 0, false, 0)])
    case MoveConstruct(i, j) => s.(slots := Transfer(s.slots, i, j))
    case Assign(i, j) =>
      if i == j then s
      else State(Transfer(s.slots, i, j), ClearedLedger(s.slots[i], s.ledger))
    case Call(i) =>
      var buffer := if s.slots[i].vtable == None then s.slots[i].buffer else Raw;
      State(s.slots[i := Slot(None, buffer)], CalledLedger(s.slots[i], s.ledger))
    case Clear(i) => State(s.slots[i := Cleared(s.slots[i])], ClearedLedger(s.slots[i], s.ledger))
  }

  function Transfer(slots: seq<Slot>, i: nat, j: nat): seq<Slot>
    requires i < |slots| && j < |slots| && i != j
  {
    slots[i := Received(slots[i], slots[j])][j := MovedFrom(slots[j])]
  }

  ghost predicate Executes(s: State, trace: seq<Action>, t: State)
    decreases |trace|
  {
    if trace == [] then s == t
    else Enabled(s, trace[0]) && Executes(Next(s, trace[0]), trace[1..], t)
  }

  ghost predicate Reachable(t: State) {
    exists s, trace :: Init(s) && Executes(s, trace, t)
  }

  // ---------------------------------------------------------------- one owner, one outcome

  ghost function Owns(x: nat): Slot -> int {
    (s: Slot) => if s.vtable.Some? && s.buffer.Object? && s.buffer.id == x then 1 else 0
  }

  ghost function Owners(slots: seq<Slot>, x: nat): int {
    Sum(slots, Owns(x))
  }

  /** What the ledger says about an object that `owners` tasks own. */
  ghost predicate Balanced(e: Entry, owners: int) {
    && 0 <= owners
    && match e.kind
       case AwaitVia =>
         owners + e.resumptions == 1 && e.calls <= e.resumptions
         && (e.interrupted <==> e.resumptions == 1 && e.calls == 0)
       case CoroutineHandle => owners + e.resumptions + e.frees == 1 && e.calls == e.resumptions
       case Callable(_, _, trivialDestroy) =>
         e.resumptions == 0
         && if trivialDestroy then owners + e.calls <= 1 else owners + e.frees == 1 && e.calls <= e.frees
  }

  ghost predicate Inv(s: State) {
    && (forall i: nat | i < |s.slots| :: SlotOk(s.slots[i], s.ledger))
    && (forall x: nat | x < |s.ledger| :: Balanced(s.ledger[x], Owners(s.slots, x)))
    && (forall x: nat | x >= |s.ledger| :: Owners(s.slots, x) == 0)
  }

  lemma TransferOwners(slots: seq<Slot>, i: nat, j: nat, x: nat)
    requires i < |slots| && j < |slots| && i != j
    ensures Owners(Transfer(slots, i, j), x) == Owners(slots, x) - Owns(x)(slots[i])
  {
    SumUpdate(slots, i, Received(slots[i], slots[j]), Owns(x));
    SumUpdate(slots[i := Received(slots[i], slots[j])], j, MovedFrom(slots[j]), Owns(x));
  }

  lemma SlotOwners(slots: seq<Slot>, i: nat, y: Slot, x: nat)
    requires i < |slots|
    ensures Owners(slots[i := y], x) == Owners(slots, x) - Owns(x)(slots[i]) + Owns(x)(y)
  {
    SumUpdate(slots, i, y, Owns(x));
  }

  lemma OwnersNatural(slots: seq<Slot>, x: nat)
    ensures 0 <= Owners(slots, x)
    ensures forall i: nat | i < |slots| :: Owns(x)(slots[i]) <= Owners(slots, x)
  {
    SumAtLeast(slots, Owns(x));
  }

  /** A task gives up what it owns, and the ledger records how. */
  lemma ReleaseKeepsInv(s: State, i: nat, slots': seq<Slot>, ledger': seq<Entry>, called: bool)
    requires Inv(s) && i < |s.slots| && |slots'| == |s.slots|
    requires s.slots[i].vtable.Some?
    requires var id := s.slots[i].buffer.id;
             ledger' == s.ledger[id := if called then Used(s.ledger[id]) else Dropped(s.ledger[id])]
    requires forall x: nat :: Owners(slots', x) == Owners(s.slots, x) - Owns(x)(s.slots[i])
    requires forall k: nat | k < |slots'| :: SlotOk(slots'[k], s.ledger)
    ensures Inv(State(slots', ledger'))
  {
    var id := s.slots[i].buffer.id;
    forall x: nat | x < |ledger'| ensures Balanced(ledger'[x], Owners(slots', x)) {
      OwnersNatural(s.slots, x);
    }
  }

  lemma TransferKeepsSlots(slots: seq<Slot>, ledger: seq<Entry>, i: nat, j: nat, k: nat)
    requires i < |slots| && j < |slots| && i != j && k < |slots|
    requires SlotOk(slots[j], ledger) && SlotOk(slots[k], ledger)
    ensures SlotOk(Transfer(slots, i, j)[k], ledger)
  {
  }

  /** Nothing changes owner but by moving from one task to another. */
  lemma SameOwnersKeepInv(s: State, slots': seq<Slot>)
    requires Inv(s) && |slots'| == |s.slots|
    requires forall x: nat :: Owners(slots', x) == Owners(s.slots, x)
    requires forall k: nat | k < |slots'| :: SlotOk(slots'[k], s.ledger)
    ensures Inv(State(slots', s.ledger))
  {
  }

  lemma MoveKeepsInv(s: State, i: nat, j: nat)
    requires Inv(s) && i < |s.slots| && j < |s.slots| && i != j && s.slots[i].vtable == None
    ensures Inv(State(Transfer(s.slots, i, j), s.ledger))
  {
    var slots' := Transfer(s.slots, i, j);
    forall x: nat ensures Owners(slots', x) == Owners(s.slots, x) { TransferOwners(s.slots, i, j, x); }
    forall k: nat | k < |slots'| ensures SlotOk(slots'[k], s.ledger) { TransferKeepsSlots(s.slots, s.ledger, i, j, k); }
    SameOwnersKeepInv(s, slots');
  }

  lemma AssignKeepsInv(s: State, i: nat, j: nat)
    requires Inv(s) && Enabled(s, Assign(i, j)) && i != j
    ensures Inv(Next(s, Assign(i, j)))
  {
    if s.slots[i].vtable == None {
      MoveKeepsInv(s, i, j);
    } else {
      var slots' := Transfer(s.slots, i, j);
      forall x: nat ensures Owners(slots', x) == Owners(s.slots, x) - Owns(x)(s.slots[i]) {
        TransferOwners(s.slots, i, j, x);
      }
      forall k: nat | k < |slots'| ensures SlotOk(slots'[k], s.ledger) {
        TransferKeepsSlots(s.slots, s.ledger, i, j, k);
      }
      ReleaseKeepsInv(s, i, slots', Next(s, Assign(i, j)).ledger, false);
    }
  }

  lemma EndKeepsInv(s: State, i: nat, called: bool)
    requires Inv(s) && i < |s.slots| && SlotOk(s.slots[i], s.ledger)
    ensures Inv(Next(s, if called then Call(i) else Clear(i)))
  {
    var s' := Next(s, if called then Call(i) else Clear(i));
    forall x: nat ensures Owners(s'.slots, x) == Owners(s.slots, x) - Owns(x)(s.slots[i]) {
      SlotOwners(s.slots, i, s'.slots[i], x);
    }
    if s.slots[i].vtable.Some? {
      ReleaseKeepsInv(s, i, s'.slots, s'.ledger, called);
    } else {
      assert s'.ledger == s.ledger;
    }
  }

  lemma CreateKeepsInv(s: State, i: nat, kind: Kind)
    requires Inv(s) && Enabled(s, Create(i, kind))
    ensures Inv(Next(s, Create(i, kind)))
  {
    var s' := Next(s, Create(i, kind));
    forall x: nat ensures Owners(s'.slots, x) == Owners(s.slots, x) + if x == |s.ledger| then 1 else 0 {
      SlotOwners(s.slots, i, s'.slots[i], x);
    }
  }

  lemma StepKeepsInv(s: State, a: Action)
    requires Inv(s) && Enabled(s, a)
    ensures Inv(Next(s, a))
  {
    match a
    case Create(i, kind) => CreateKeepsInv(s, i, kind);
    case MoveConstruct(i, j) => MoveKeepsInv(s, i, j);
    case Assign(i, j) => if i != j { AssignKeepsInv(s, i, j); }
    case Call(i) => EndKeepsInv(s, i, true);
    case Clear(i) => EndKeepsInv(s, i, false);
  }

  lemma {:induction false} RunKeepsInv(s: State, trace: seq<Action>, t: State)
    requires Inv(s) && Executes(s, trace, t)
    ensures Inv(t)
    decreases |trace|
  {
    if trace != [] {
      StepKeepsInv(s, trace[0]);
      RunKeepsInv(Next(s, trace[0]), trace[1..], t);
    }
  }

  lemma ReachableInv(t: State)
    requires Reachable(t)
    ensures Inv(t)
  {
    var s, trace :| Init(s) && Executes(s, trace, t);
    forall x: nat ensures Owners(s.slots, x) == 0 { SumZero(s.slots, Owns(x)); }
    RunKeepsInv(s, trace, t);
  }

  // ---------------------------------------------------------------- theorems about every sequence of operations

  /** A move takes over what the other task owns, and leaves every third task alone. */
  lemma MovesHandOver(s: State, a: Action, k: nat)
    requires Enabled(s, a) && (a.MoveConstruct? || a.Assign?) && a.i != a.j && k < |s.slots|
    ensures |Next(s, a).slots| == |s.slots|
    ensures Next(s, a).slots[a.i].vtable == s.slots[a.j].vtable && Next(s, a).slots[a.j].vtable == None
    ensures s.slots[a.j].vtable.Some? ==> Next(s, a).slots[a.i].buffer == s.slots[a.j].buffer
    ensures k != a.i && k != a.j ==> Next(s, a).slots[k] == s.slots[k]
  {
  }

  /** How many calls of a run found a task that owned object x. */
  ghost function Invocations(s: State, trace: seq<Action>, x: nat): nat
    decreases |trace|
  {
    if trace == [] || !Enabled(s, trace[0]) then 0
    else
      (if trace[0].Call? && Owns(x)(s.slots[trace[0].i]) == 1 then 1 else 0)
      + Invocations(Next(s, trace[0]), trace[1..], x)
  }

  ghost function CallsOf(s: State, x: nat): nat { if x < |s.ledger| then s.ledger[x].calls else 0 }

  lemma StepCounts(s: State, a: Action, x: nat)
    requires Inv(s) && Enabled(s, a)
    ensures |s.ledger| <= |Next(s, a).ledger|
    ensures CallsOf(Next(s, a), x)
         == CallsOf(s, x) + if a.Call? && Owns(x)(s.slots[a.i]) == 1 then 1 else 0
  {
    assert SlotOk(s.slots[a.i], s.ledger);
  }

  lemma {:induction false} RunCounts(s: State, trace: seq<Action>, t: State, x: nat)
    requires Inv(s) && Executes(s, trace, t)
    ensures CallsOf(t, x) == CallsOf(s, x) + Invocations(s, trace, x)
    decreases |trace|
  {
    if trace != [] {
      StepKeepsInv(s, trace[0]);
      StepCounts(s, trace[0], x);
      RunCounts(Next(s, trace[0]), trace[1..], t, x);
    }
  }

  /**
   An object of any kind is called exactly if some call of the run finds a task that owns it, and then
   once; constructions, moves, assignments and clears call nothing.
   */
  lemma CalledExactlyByCalls(s: State, trace: seq<Action>, t: State, x: nat)
    requires Init(s) && Executes(s, trace, t) && x < |t.ledger|
    ensures t.ledger[x].calls == Invocations(s, trace, x) <= 1
  {
    forall y: nat ensures Owners(s.slots, y) == 0 { SumZero(s.slots, Owns(y)); }
    RunCounts(s, trace, t, x);
    RunKeepsInv(s, trace, t);
    OwnersNatural(t.slots, x);
  }

  /**
   Over any sequence of constructions, moves, assignments, calls, clears and destructions a coroutine
   that awaits an executor is resumed exactly once or still owned by exactly one task; it finds itself
   interrupted if and only if its functor was never called.
   */
  lemma AwaiterIsResumedOnce(t: State, x: nat)
    requires Reachable(t) && x < |t.ledger| && t.ledger[x].kind == AwaitVia
    ensures Owners(t.slots, x) + t.ledger[x].resumptions == 1
    ensures t.ledger[x].resumptions == 1 ==> (t.ledger[x].interrupted <==> t.ledger[x].calls == 0)
    ensures t.ledger[x].resumptions == 0 ==> !t.ledger[x].interrupted && t.ledger[x].calls == 0
  {
    ReachableInv(t);
  }

  /** No object is called twice, leaked, freed twice, or both run and abandoned. */
  lemma NothingIsLeaked(t: State, x: nat)
    requires Reachable(t) && x < |t.ledger| && forall s | s in t.slots :: s.vtable == None
    ensures t.ledger[x].calls <= 1
    ensures match t.ledger[x].kind
            case AwaitVia => t.ledger[x].resumptions == 1
            case CoroutineHandle => t.ledger[x].resumptions + t.ledger[x].frees == 1
            case Callable(_, _, trivialDestroy) => !trivialDestroy ==> t.ledger[x].frees == 1
  {
    ReachableInv(t);
    SumZero(t.slots, Owns(x));
  }

  /** The preconditions of the operations always hold: whatever a task points to is there and armed. */
  lemma TasksOwnLiveObjects(t: State, i: nat)
    requires Reachable(t) && i < |t.slots|
    ensures SlotOk(t.slots[i], t.ledger)
    ensures forall j: nat | j < |t.slots| && j != i && t.slots[i].vtable.Some? && t.slots[j].vtable.Some? ::
              t.slots[i].buffer.Object? && t.slots[j].buffer.Object? && t.slots[i].buffer.id != t.slots[j].buffer.id
  {
    ReachableInv(t);
    forall j: nat | j < |t.slots| && j != i && t.slots[i].vtable.Some? && t.slots[j].vtable.Some?
      ensures t.slots[i].buffer.id != t.slots[j].buffer.id
    {
      OneOwner(t, i, j);
    }
  }

  lemma OneOwner(t: State, i: nat, j: nat)
    requires Inv(t) && i < |t.slots| && j < |t.slots| && i != j
    requires t.slots[i].vtable.Some? && t.slots[j].vtable.Some?
    ensures t.slots[i].buffer.id != t.slots[j].buffer.id
  {
    var x := t.slots[i].buffer.id;
    var rest := t.slots[i := Slot(None, Raw)];
    SlotOwners(t.slots, i, Slot(None, Raw), x);
    OwnersNatural(rest, x);
    assert rest[j] == t.slots[j];
    assert Balanced(t.ledger[x], Owners(t.slots, x));
  }
}
