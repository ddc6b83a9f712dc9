/**
 Promises and results. A promise owns the producer's side of a result state, and the consumer's
 side too until the result is retrieved; a result, or the awaitable it turns into, owns the
 consumer's side. Sides are moved between handles and given up by assignment, destruction,
 completion and consumption; the side given up last deletes the state. The interleavings within
 one hand-over of the atomic word are the subject of module ResultState; here every operation on
 the word is one step.
 */
module Promise {
  import opened Prelude
  import opened ResultWord

  datatype Outcome = Unset | Value(value: int) | Exception(error: int) | BrokenTask

  /** A result state; `fault` records a failed assertion of the code or an access after deletion. */
  datatype Cell = Cell(
    pc: Pc,
    outcome: Outcome,
    deletions: nat,
    given: Option<Outcome>,    // history: the outcome the promise was given
    retrieved: bool,           // history: the result was taken out of the promise
    fault: bool)

  datatype Role = PromiseRole | ResultRole | AwaitRole(join: bool)

  /** A handle: the sides it owns are positions in the sequence of states. */
  datatype Handle = Handle(role: Role, producer: Option<nat>, consumer: Option<nat>)

  datatype State = State(handles: seq<Handle>, cells: seq<Cell>)

  /** A handle together with the states. */
  datatype View = View(h: Handle, cells: seq<Cell>)

  // ---------------------------------------------------------------- giving up a side

  function CompleteProducer(c: Cell): Cell {
    c.(pc := ProducerDone, deletions := c.deletions + if c.pc.ConsumerDone? then 1 else 0,
       fault := c.fault || c.deletions > 0 || c.pc.ProducerDone?)
  }

  function CompleteConsumer(c: Cell): Cell {
    if c.pc.ProducerDone? then c.(deletions := c.deletions + 1, fault := c.fault || c.deletions > 0)
    else c.(pc := ConsumerDone, fault := c.fault || c.deletions > 0 || !c.pc.Idle?)
  }

  function CompleteJoined(c: Cell): Cell {
    c.(deletions := c.deletions + 1, fault := c.fault || c.deletions > 0 || !c.pc.ProducerDone?)
  }

  function Settle(c: Cell, o: Outcome): Cell {
    c.(outcome := o, fault := c.fault || c.deletions > 0 || !c.outcome.Unset?)
  }

  predicate InRange(v: View) {
    && (v.h.producer.Some? ==> v.h.producer.value < |v.cells|)
    && (v.h.consumer.Some? ==> v.h.consumer.value < |v.cells|)
  }

  function Modify(v: View, k: nat, c: Cell): View
    requires k < |v.cells|
  {
    v.(cells := v.cells[k := c])
  }

  function ResetProducer(v: View): View
    requires InRange(v)
  {
    if v.h.producer == None then v
    else
      var k := v.h.producer.value;
      Modify(v, k, CompleteProducer(v.cells[k])).(h := v.h.(producer := None))
  }

  function ResetConsumer(v: View): View
    requires InRange(v)
  {
    if v.h.consumer == None then v
    else
      var k := v.h.consumer.value;
      Modify(v, k, CompleteConsumer(v.cells[k])).(h := v.h.(consumer := None))
  }

  /** The outcome is built and the producer's side given up. */
  function Published(v: View, o: Outcome, given: Option<Outcome>): View
    requires InRange(v) && v.h.producer.Some?
  {
    var k := v.h.producer.value;
    ResetProducer(Modify(v, k, Settle(v.cells[k], o).(given := given)))
  }

  /** break_task_if_needed: a result that somebody else holds gets to know. */
  function BreakTask(v: View): View
    requires InRange(v)
  {
    if v.h.producer == None || v.h.consumer.Some? then v
    else Published(v, BrokenTask, v.cells[v.h.producer.value].given)
  }

  /** set_result, set_exception and set_from_function, once the outcome is there. */
  function SetOutcome(v: View, o: Outcome): View
    requires InRange(v) && v.h.producer.Some?
  {
    Published(v, o, Some(o))
  }

  /** The destructor: members are destroyed in reverse order of their declaration. */
  function Destroyed(v: View): View
    requires InRange(v)
  {
    ResetProducer(ResetConsumer(if v.h.role.PromiseRole? then BreakTask(v) else v))
  }

  /** What an assignment does to the sides that the handle owned before. */
  function Overwritten(v: View): View
    requires InRange(v)
  {
    ResetConsumer(ResetProducer(if v.h.role.PromiseRole? then BreakTask(v) else v))
  }

  // ---------------------------------------------------------------- operations

  datatype Action =
    | NewPromise(i: nat)
    | MoveConstruct(i: nat, j: nat)    // handle i from handle j
    | Assign(i: nat, j: nat)
    | Destroy(i: nat)
    | Set(i: nat, outcome: Outcome)
    | GetResult(i: nat, r: nat)        // the result is built as handle r
    | Get(i: nat)
    | StartAwait(i: nat, join: bool)   // co_await, or resolve
    | Resume(i: nat)                   // await_resume

  ghost predicate Init(s: State) {
    s.cells == [] && forall h | h in s.handles :: h.producer == None && h.consumer == None
  }

  predicate Empty(h: Handle) { h.producer == None && h.consumer == None }

  predicate Done(s: State, h: Handle) {
    h.consumer.Some? ==> h.consumer.value < |s.cells| && s.cells[h.consumer.value].pc.ProducerDone?
  }

  /** Blocking calls are enabled when they can return. A suspended coroutine is not destroyed. */
  ghost predicate Enabled(s: State, a: Action) {
    a.i < |s.handles| && InRange(View(s.handles[a.i], s.cells)) && Allowed(s, a, s.handles[a.i])
  }

  ghost predicate Allowed(s: State, a: Action, h: Handle) {
    match a
    case NewPromise(_) => Empty(h)
    case MoveConstruct(i, j) => i != j && j < |s.handles| && Empty(h) && !s.handles[j].role.AwaitRole?
    case Assign(i, j) => j < |s.handles| && h.role == s.handles[j].role && !h.role.AwaitRole?
    case Destroy(_) => !h.role.AwaitRole?
    case Set(_, o) => h.role.PromiseRole? && (o.Value? || o.Exception?)
    case GetResult(i, r) => h.role.PromiseRole? && r < |s.handles| && r != i && Empty(s.handles[r])
    case Get(_) => h.role.ResultRole? && Done(s, h)
    case StartAwait(_, _) => h.role.ResultRole?
    case Resume(_) => h.role.AwaitRole? && Done(s, h) && h.consumer.Some?
  }

  function Put(s: State, i: nat, v: View): State
    requires i < |s.handles|
  {
    State(s.handles[i := v.h], v.cells)
  }

  function Transfer(s: State, i: nat, j: nat): State
    requires i < |s.handles| && j < |s.handles| && i != j
  {
    s.(handles := s.handles[i := s.handles[j]][j := Handle(s.handles[j].role, None, None)])
  }

  /** The result of a joined consumer is taken and the state deleted. */
  function Joined(v: View): View
    requires InRange(v) && v.h.consumer.Some?
  {
    var k := v.h.consumer.value;
    Modify(v, k, CompleteJoined(v.cells[k])).(h := Handle(ResultRole, None, None))
  }

  function Awaiting(v: View, join: bool): View
    requires InRange(v) && v.h.consumer.Some?
  {
    var k := v.h.consumer.value;
    var c := v.cells[k];
    Modify(v, k, c.(pc := if c.pc.ProducerDone? then ProducerDone else ConsumerSet,
                    fault := c.fault || c.deletions > 0 || !(c.pc.ProducerDone? || c.pc.Idle?)))
      .(h := v.h.(role := AwaitRole(join)))
  }

  /** get_result: nothing is retrieved from a promise that is empty, set, or was asked before. */
  function Retrieve(s: State, i: nat, r: nat): State
    requires i < |s.handles| && r < |s.handles| && i != r && InRange(View(s.handles[i], s.cells))
  {
    var h := s.handles[i];
    if h.producer == None || h.consumer == None then s
    else
      var k := h.consumer.value;
      State(s.handles[i := h.(consumer := None)][r := Handle(ResultRole, None, h.consumer)],
            s.cells[k := s.cells[k].(retrieved := true)])
  }

  ghost function Next(s: State, a: Action): State
    requires Enabled(s, a)
  {
    var v := View(s.handles[a.i], s.cells);
    match a
    case NewPromise(i) =>
      var k := |s.cells|;
      State(s.handles[i := Handle(PromiseRole, Some(k), Some(k))], s.cells + [Cell(Idle, Unset, 0, None, false, false)])
    case MoveConstruct(i, j) => Transfer(s, i, j)
    case Assign(i, j) => if i == j then s else Transfer(Put(s, i, Overwritten(v)), i, j)
    case Destroy(i) => Put(s, i, Destroyed(v))
    case Set(i, o) => if v.h.producer == None then s else Put(s, i, SetOutcome(v, o))
    case GetResult(i, r) => Retrieve(s, i, r)
    case Get(i) => if v.h.consumer == None then s else Put(s, i, Joined(v))
    case StartAwait(i, join) => if v.h.consumer == None then s else Put(s, i, Awaiting(v, join))
    case Resume(i) => Put(s, i, if v.h.role.join then Joined(v) else v.(h := v.h.(role := ResultRole)))
  }

  ghost predicate Executes(s: State, trace: seq<Action>, t: State)
    decreases |trace|
  {
    if trace == [] then s == t
    else Enabled(s, trace[0]) && Executes(Next(s, trace[0]), trace[1..], t)
  }

  ghost predicate Reachable(t: State) {
    exists s, trace :: Init(s) && Executes(s, trace, t)
  }

  // ---------------------------------------------------------------- who owns which side

  ghost function OwnsProducer(k: nat): Handle -> int {
    (h: Handle) => if h.producer == Some(k) then 1 else 0
  }

  ghost function OwnsConsumer(k: nat): Handle -> int {
    (h: Handle) => if h.consumer == Some(k) then 1 else 0
  }

  ghost function Producers(handles: seq<Handle>, k: nat): int { Sum(handles, OwnsProducer(k)) }

  ghost function Consumers(handles: seq<Handle>, k: nat): int { Sum(handles, OwnsConsumer(k)) }

  /** What a promise whose producer's side is gone has left behind. */
  ghost function Legacy(c: Cell): Outcome {
    if c.given.Some? then c.given.value else if c.retrieved then BrokenTask else Unset
  }

  ghost predicate CellOk(c: Cell, producers: int, consumers: int) {
    && !c.fault && !c.pc.ConsumerWaiting?
    && producers == (if c.pc.ProducerDone? then 0 else 1)
    && consumers == (if c.pc.ConsumerDone? || c.deletions > 0 then 0 else 1)
    && c.deletions == (if producers == 0 && consumers == 0 then 1 else 0)
    && c.outcome == (if producers == 1 then Unset else Legacy(c))
    && (producers == 1 ==> c.given == None)
  }

  ghost predicate HandleOk(h: Handle, cells: seq<Cell>) {
    && InRange(View(h, cells))
    && (!h.role.PromiseRole? ==> h.producer == None)
    && (h.producer.Some? ==> h.consumer == if cells[h.producer.value].retrieved then None else h.producer)
    && (h.consumer.Some? ==>
          var c := cells[h.consumer.value];
          c.retrieved == !h.role.PromiseRole? && if h.role.AwaitRole? then !c.pc.Idle? else !c.pc.ConsumerSet?)
  }

  ghost predicate Inv(s: State) {
    && (forall i: nat | i < |s.handles| :: HandleOk(s.handles[i], s.cells))
    && (forall k: nat | k < |s.cells| :: CellOk(s.cells[k], Producers(s.handles, k), Consumers(s.handles, k)))
    && (forall k: nat | k >= |s.cells| :: Producers(s.handles, k) == 0 == Consumers(s.handles, k))
  }

  lemma CountsAfter(handles: seq<Handle>, i: nat, h: Handle, k: nat)
    requires i < |handles|
    ensures Producers(handles[i := h], k) == Producers(handles, k) - OwnsProducer(k)(handles[i]) + OwnsProducer(k)(h)
    ensures Consumers(handles[i := h], k) == Consumers(handles, k) - OwnsConsumer(k)(handles[i]) + OwnsConsumer(k)(h)
  {
    SumUpdate(handles, i, h, OwnsProducer(k));
    SumUpdate(handles, i, h, OwnsConsumer(k));
  }

  /** A side has at most one owner. */
  lemma OneOwner(s: State, i: nat, j: nat, k: nat)
    requires Inv(s) && i < |s.handles| && j < |s.handles| && i != j
    ensures !(s.handles[i].producer == s.handles[j].producer == Some(k))
    ensures !(s.handles[i].consumer == s.handles[j].consumer == Some(k))
  {
    var rest := s.handles[i := Handle(ResultRole, None, None)];
    CountsAfter(s.handles, i, rest[i], k);
    SumAtLeast(rest, OwnsProducer(k));
    SumAtLeast(rest, OwnsConsumer(k));
    assert rest[j] == s.handles[j];
    if k < |s.cells| { assert CellOk(s.cells[k], Producers(s.handles, k), Consumers(s.handles, k)); }
  }

  // ---------------------------------------------------------------- the invariant

  /** Handle i gives up or keeps its sides of state k, whose word and outcome change. */
  lemma UpdateKeepsInv(s: State, i: nat, h: Handle, k: nat, c: Cell)
    requires Inv(s) && i < |s.handles| && k < |s.cells|
    requires h.producer == s.handles[i].producer || (s.handles[i].producer == Some(k) && h.producer == None)
    requires h.consumer == s.handles[i].consumer || (s.handles[i].consumer == Some(k) && h.consumer == None)
    requires CellOk(c, Producers(s.handles[i := h], k), Consumers(s.handles[i := h], k))
    requires HandleOk(h, s.cells[k := c]) && c.retrieved == s.cells[k].retrieved
    requires s.handles[i].consumer == Some(k) || c.pc.ProducerDone?
    ensures Inv(State(s.handles[i := h], s.cells[k := c]))
  {
    var handles', cells' := s.handles[i := h], s.cells[k := c];
    forall j: nat | j < |handles'| ensures HandleOk(handles'[j], cells') {
      if j != i { OneOwner(s, i, j, k); }
    }
    forall m: nat
      ensures m != k ==> Producers(handles', m) == Producers(s.handles, m)
      ensures m != k ==> Consumers(handles', m) == Consumers(s.handles, m)
    {
      CountsAfter(s.handles, i, h, m);
    }
  }

  /** The producer's side is given up with outcome `o`. */
  lemma PublishKeepsInv(s: State, i: nat, k: nat, c: Cell)
    requires Inv(s) && i < |s.handles| && s.handles[i].producer == Some(k) && k < |s.cells|
    requires c == s.cells[k].(outcome := c.outcome, given := c.given) && c.outcome == Legacy(c)
    ensures Inv(State(s.handles[i := s.handles[i].(producer := None)], s.cells[k := CompleteProducer(c)]))
  {
    assert HandleOk(s.handles[i], s.cells) && CellOk(s.cells[k], Producers(s.handles, k), Consumers(s.handles, k));
    var h := s.handles[i].(producer := None);
    CountsAfter(s.handles, i, h, k);
    SumAtLeast(s.handles, OwnsProducer(k));
    UpdateKeepsInv(s, i, h, k, CompleteProducer(c));
  }

  lemma DropConsumerKeepsInv(s: State, i: nat, k: nat)
    requires Inv(s) && i < |s.handles| && s.handles[i].consumer == Some(k) && k < |s.cells|
    requires s.handles[i].producer == None && !s.handles[i].role.AwaitRole?
    ensures Inv(State(s.handles[i := s.handles[i].(consumer := None)], s.cells[k := CompleteConsumer(s.cells[k])]))
  {
    assert HandleOk(s.handles[i], s.cells) && CellOk(s.cells[k], Producers(s.handles, k), Consumers(s.handles, k));
    var h := s.handles[i].(consumer := None);
    CountsAfter(s.handles, i, h, k);
    SumAtLeast(s.handles, OwnsConsumer(k));
    UpdateKeepsInv(s, i, h, k, CompleteConsumer(s.cells[k]));
  }

  lemma BreakKeepsInv(s: State, i: nat, k: nat)
    requires Inv(s) && i < |s.handles| && s.handles[i] == Handle(PromiseRole, Some(k), None) && k < |s.cells|
    ensures Inv(Put(s, i, BreakTask(View(s.handles[i], s.cells))))
  {
    assert HandleOk(s.handles[i], s.cells) && CellOk(s.cells[k], Producers(s.handles, k), Consumers(s.handles, k));
    SumAtLeast(s.handles, OwnsProducer(k));
    var c := Settle(s.cells[k], BrokenTask);
    PublishKeepsInv(s, i, k, c);
    assert s.cells[k := c][k := CompleteProducer(c)] == s.cells[k := CompleteProducer(c)];
  }

  /** A promise whose result was never retrieved gives up both sides, and the state is deleted. */
  lemma DropBothKeepsInv(s: State, i: nat, k: nat)
    requires Inv(s) && i < |s.handles| && s.handles[i] == Handle(PromiseRole, Some(k), Some(k)) && k < |s.cells|
    ensures Inv(Put(s, i, ResetConsumer(ResetProducer(View(s.handles[i], s.cells)))))
  {
    assert HandleOk(s.handles[i], s.cells) && CellOk(s.cells[k], Producers(s.handles, k), Consumers(s.handles, k));
    SumAtLeast(s.handles, OwnsProducer(k));
    PublishKeepsInv(s, i, k, s.cells[k]);
    var s1 := State(s.handles[i := Handle(PromiseRole, None, Some(k))], s.cells[k := CompleteProducer(s.cells[k])]);
    DropConsumerKeepsInv(s1, i, k);
    assert s1.handles[i := Handle(PromiseRole, None, None)] == s.handles[i := Handle(PromiseRole, None, None)];
  }

  lemma OverwrittenKeepsInv(s: State, i: nat)
    requires Inv(s) && i < |s.handles| && !s.handles[i].role.AwaitRole? && InRange(View(s.handles[i], s.cells))
    ensures Inv(Put(s, i, Overwritten(View(s.handles[i], s.cells))))
    ensures Empty(Overwritten(View(s.handles[i], s.cells)).h)
  {
    var h := s.handles[i];
    assert HandleOk(h, s.cells);
    if h.producer.Some? {
      var k := h.producer.value;
      if h.consumer == None { BreakKeepsInv(s, i, k); } else { DropBothKeepsInv(s, i, k); }
    } else if h.consumer.Some? {
      DropConsumerKeepsInv(s, i, h.consumer.value);
    } else {
      assert Put(s, i, View(h, s.cells)) == s;
    }
  }

  /** It makes no difference which of its two sides a promise gives up first. */
  lemma DestroyedIsOverwritten(s: State, i: nat)
    requires Inv(s) && i < |s.handles| && !s.handles[i].role.AwaitRole? && InRange(View(s.handles[i], s.cells))
    ensures Destroyed(View(s.handles[i], s.cells)) == Overwritten(View(s.handles[i], s.cells))
  {
    var h := s.handles[i];
    assert HandleOk(h, s.cells);
    if h.producer.Some? && h.consumer.Some? {
      var k := h.producer.value;
      assert CellOk(s.cells[k], Producers(s.handles, k), Consumers(s.handles, k));
      SumAtLeast(s.handles, OwnsProducer(k));
      SumAtLeast(s.handles, OwnsConsumer(k));
      var c := s.cells[k];
      assert s.cells[k := CompleteProducer(c)][k := CompleteConsumer(CompleteProducer(c))]
          == s.cells[k := CompleteConsumer(c)][k := CompleteProducer(CompleteConsumer(c))];
    }
  }

  lemma TransferKeepsInv(s: State, i: nat, j: nat)
    requires Inv(s) && i < |s.handles| && j < |s.handles| && i != j && Empty(s.handles[i])
    ensures Inv(Transfer(s, i, j))
  {
    var s' := Transfer(s, i, j);
    forall k: nat
      ensures Producers(s'.handles, k) == Producers(s.handles, k) && Consumers(s'.handles, k) == Consumers(s.handles, k)
    {
      CountsAfter(s.handles, i, s.handles[j], k);
      CountsAfter(s.handles[i := s.handles[j]], j, Handle(s.handles[j].role, None, None), k);
    }
  }

  lemma SetKeepsInv(s: State, i: nat, o: Outcome)
    requires Inv(s) && Enabled(s, Set(i, o)) && s.handles[i].producer.Some?
    ensures Inv(Put(s, i, SetOutcome(View(s.handles[i], s.cells), o)))
  {
    var k := s.handles[i].producer.value;
    assert HandleOk(s.handles[i], s.cells) && CellOk(s.cells[k], Producers(s.handles, k), Consumers(s.handles, k));
    SumAtLeast(s.handles, OwnsProducer(k));
    var c := Settle(s.cells[k], o).(given := Some(o));
    PublishKeepsInv(s, i, k, c);
    assert s.cells[k := c][k := CompleteProducer(c)] == s.cells[k := CompleteProducer(c)];
  }

  lemma NewKeepsInv(s: State, i: nat)
    requires Inv(s) && Enabled(s, NewPromise(i))
    ensures Inv(Next(s, NewPromise(i)))
  {
    var s' := Next(s, NewPromise(i));
    forall k: nat
      ensures Producers(s'.handles, k) == Producers(s.handles, k) + if k == |s.cells| then 1 else 0
      ensures Consumers(s'.handles, k) == Consumers(s.handles, k) + if k == |s.cells| then 1 else 0
    {
      CountsAfter(s.handles, i, s'.handles[i], k);
    }
  }

  lemma RetrieveKeepsCounts(s: State, i: nat, r: nat, m: nat)
    requires Enabled(s, GetResult(i, r))
    ensures Producers(Retrieve(s, i, r).handles, m) == Producers(s.handles, m)
    ensures Consumers(Retrieve(s, i, r).handles, m) == Consumers(s.handles, m)
  {
    var h := s.handles[i];
    if h.producer.Some? && h.consumer.Some? {
      CountsAfter(s.handles, i, h.(consumer := None), m);
      CountsAfter(s.handles[i := h.(consumer := None)], r, Handle(ResultRole, None, h.consumer), m);
    }
  }

  lemma RetrieveKeepsHandle(s: State, i: nat, r: nat, j: nat)
    requires Inv(s) && Enabled(s, GetResult(i, r)) && s.handles[i].producer.Some? && s.handles[i].consumer.Some?
    requires j < |s.handles|
    ensures HandleOk(Retrieve(s, i, r).handles[j], Retrieve(s, i, r).cells)
  {
    var k := s.handles[i].consumer.value;
    assert HandleOk(s.handles[i], s.cells) && HandleOk(s.handles[j], s.cells);
    assert CellOk(s.cells[k], Producers(s.handles, k), Consumers(s.handles, k));
    SumAtLeast(s.handles, OwnsProducer(k));
    if j != i { OneOwner(s, i, j, k); }
  }

  lemma RetrieveKeepsInv(s: State, i: nat, r: nat)
    requires Inv(s) && Enabled(s, GetResult(i, r))
    ensures Inv(Retrieve(s, i, r))
  {
    var h := s.handles[i];
    assert HandleOk(h, s.cells);
    if h.producer.Some? && h.consumer.Some? {
      var k := h.consumer.value;
      assert CellOk(s.cells[k], Producers(s.handles, k), Consumers(s.handles, k));
      SumAtLeast(s.handles, OwnsProducer(k));
      var s' := Retrieve(s, i, r);
      forall m: nat
        ensures Producers(s'.handles, m) == Producers(s.handles, m)
        ensures Consumers(s'.handles, m) == Consumers(s.handles, m)
      {
        RetrieveKeepsCounts(s, i, r, m);
      }
      forall j: nat | j < |s'.handles| ensures HandleOk(s'.handles[j], s'.cells) { RetrieveKeepsHandle(s, i, r, j); }
    }
  }

  lemma JoinedKeepsInv(s: State, i: nat)
    requires Inv(s) && i < |s.handles| && InRange(View(s.handles[i], s.cells))
    requires !s.handles[i].role.PromiseRole? && s.handles[i].consumer.Some? && Done(s, s.handles[i])
    ensures Inv(Put(s, i, Joined(View(s.handles[i], s.cells))))
  {
    var k := s.handles[i].consumer.value;
    assert HandleOk(s.handles[i], s.cells) && CellOk(s.cells[k], Producers(s.handles, k), Consumers(s.handles, k));
    var h := Handle(ResultRole, None, None);
    CountsAfter(s.handles, i, h, k);
    SumAtLeast(s.handles, OwnsConsumer(k));
    UpdateKeepsInv(s, i, h, k, CompleteJoined(s.cells[k]));
  }

  lemma AwaitingKeepsInv(s: State, i: nat, join: bool)
    requires Inv(s) && Enabled(s, StartAwait(i, join)) && s.handles[i].consumer.Some?
    ensures Inv(Put(s, i, Awaiting(View(s.handles[i], s.cells), join)))
  {
    var k := s.handles[i].consumer.value;
    assert HandleOk(s.handles[i], s.cells) && CellOk(s.cells[k], Producers(s.handles, k), Consumers(s.handles, k));
    var v := Awaiting(View(s.handles[i], s.cells), join);
    CountsAfter(s.handles, i, v.h, k);
    SumAtLeast(s.handles, OwnsConsumer(k));
    UpdateKeepsInv(s, i, v.h, k, v.cells[k]);
  }

  lemma ResolvedKeepsInv(s: State, i: nat)
    requires Inv(s) && Enabled(s, Resume(i))
    ensures Inv(Put(s, i, View(s.handles[i].(role := ResultRole), s.cells)))
  {
    var k := s.handles[i].consumer.value;
    assert HandleOk(s.handles[i], s.cells) && CellOk(s.cells[k], Producers(s.handles, k), Consumers(s.handles, k));
    var h := s.handles[i].(role := ResultRole);
    CountsAfter(s.handles, i, h, k);
    UpdateKeepsInv(s, i, h, k, s.cells[k]);
    assert s.cells[k := s.cells[k]] == s.cells;
  }

  lemma AssignKeepsInv(s: State, i: nat, j: nat)
    requires Inv(s) && Enabled(s, Assign(i, j)) && i != j
    ensures Inv(Next(s, Assign(i, j)))
  {
    OverwrittenKeepsInv(s, i);
    TransferKeepsInv(Put(s, i, Overwritten(View(s.handles[i], s.cells))), i, j);
  }

  lemma StepKeepsInv(s: State, a: Action)
    requires Inv(s) && Enabled(s, a)
    ensures Inv(Next(s, a))
  {
    match a
    case NewPromise(i) => NewKeepsInv(s, i);
    case MoveConstruct(i, j) => TransferKeepsInv(s, i, j);
    case Assign(i, j) => if i != j { AssignKeepsInv(s, i, j); }
    case Destroy(i) => DestroyedIsOverwritten(s, i); OverwrittenKeepsInv(s, i);
    case Set(i, o) => if s.handles[i].producer.Some? { SetKeepsInv(s, i, o); }
    case GetResult(i, r) => RetrieveKeepsInv(s, i, r);
    case Get(i) => if s.handles[i].consumer.Some? { JoinedKeepsInv(s, i); }
    case StartAwait(i, join) => if s.handles[i].consumer.Some? { AwaitingKeepsInv(s, i, join); }
    case Resume(i) => if s.handles[i].role.join { JoinedKeepsInv(s, i); } else { ResolvedKeepsInv(s, i); }
  }

  lemma {:induction false} RunKeepsInv(s: State, trace: seq<Action>, t: State)
    requires Inv(s) && Executes(s, trace, t)
    ensures Inv(t)
    decreases |trace|
  {
    if trace != [] {
      StepKeepsInv(s, trace[0]);
      RunKeepsInv(Next(s, trace[0]), trace[1..], t);
    }
  }

  lemma InitInv(s: State)
    requires Init(s)
    ensures Inv(s)
  {
    forall k: nat ensures Producers(s.handles, k) == 0 == Consumers(s.handles, k) {
      SumZero(s.handles, OwnsProducer(k));
      SumZero(s.handles, OwnsConsumer(k));
    }
  }

  lemma ReachableInv(t: State)
    requires Reachable(t)
    ensures Inv(t)
  {
    var s, trace :| Init(s) && Executes(s, trace, t);
    InitInv(s);
    RunKeepsInv(s, trace, t);
  }

  // ---------------------------------------------------------------- theorems about every run

  /**
   A state is deleted exactly when neither side is owned any more, and then once; no assertion about
   the word fails and no operation of an owner reaches a deleted state. Each hand-over counts as one
   step here: what a producer still does after its exchange, and that a deletion can overtake it, is
   the subject of ResultState.TouchedAfterDeletion.
   */
  lemma DeletedByTheLastSide(t: State, k: nat)
    requires Reachable(t) && k < |t.cells|
    ensures !t.cells[k].fault
    ensures Producers(t.handles, k) in {0, 1} && Consumers(t.handles, k) in {0, 1}
    ensures t.cells[k].deletions == if Producers(t.handles, k) == 0 && Consumers(t.handles, k) == 0 then 1 else 0
  {
    ReachableInv(t);
  }

  /**
   Whoever holds a result outside its promise finds, once the producer's side is gone, what the
   promise was given, and broken_task if it was given nothing; before that there is no outcome.
   */
  lemma HeldResultIsSetOrBroken(t: State, i: nat, k: nat)
    requires Reachable(t) && i < |t.handles| && !t.handles[i].role.PromiseRole? && t.handles[i].consumer == Some(k)
    ensures k < |t.cells| && t.cells[k].deletions == 0
    ensures Producers(t.handles, k) == 0 ==> t.cells[k].pc.ProducerDone?
    ensures Producers(t.handles, k) == 0 ==>
              t.cells[k].outcome == if t.cells[k].given.Some? then t.cells[k].given.value else BrokenTask
    ensures Producers(t.handles, k) != 0 ==> t.cells[k].outcome == Unset && t.cells[k].given == None
  {
    ReachableInv(t);
    assert HandleOk(t.handles[i], t.cells);
    SumAtLeast(t.handles, OwnsConsumer(k));
    assert OwnsConsumer(k)(t.handles[i]) == 1;
    assert CellOk(t.cells[k], Producers(t.handles, k), Consumers(t.handles, k));
  }

  /** Who owns which side after an operation, for the handles that it concerns and for all others. */
  lemma OwnershipAfter(s: State, a: Action, m: nat)
    requires Inv(s) && Enabled(s, a) && m < |s.handles|
    ensures |Next(s, a).handles| == |s.handles|
    ensures var h, h' := s.handles[a.i], Next(s, a).handles[a.i];
            match a
            case NewPromise(_) => h'.producer == Some(|s.cells|) == h'.consumer
            case MoveConstruct(_, j) => h' == s.handles[j] && Empty(Next(s, a).handles[j])
            case Assign(i, j) => if i == j then h' == h else h' == s.handles[j] && Empty(Next(s, a).handles[j])
            case Destroy(_) => Empty(h')
            case Set(_, _) => h' == h.(producer := None)
            case GetResult(_, r) =>
              if h.producer.Some? && h.consumer.Some?
              then h' == h.(consumer := None) && Next(s, a).handles[r] == Handle(ResultRole, None, h.consumer)
              else Next(s, a).handles == s.handles
            case Get(_) => Empty(h')
            case StartAwait(_, _) => h'.consumer == h.consumer && h'.producer == h.producer
            case Resume(_) => if h.role.join then Empty(h') else h' == h.(role := ResultRole)
    ensures m != a.i && !((a.MoveConstruct? || a.Assign?) && m == a.j) && !(a.GetResult? && m == a.r) ==>
              Next(s, a).handles[m] == s.handles[m]
  {
    assert HandleOk(s.handles[a.i], s.cells);
  }

  // ---------------------------------------------------------------- outcomes come from the run

  /** The outcome of the first step of a run that sets the promise of state k. */
  ghost function SetBy(s: State, trace: seq<Action>, k: nat): Option<Outcome>
    decreases |trace|
  {
    if trace == [] || !Enabled(s, trace[0]) then None
    else if trace[0].Set? && s.handles[trace[0].i].producer == Some(k) then Some(trace[0].outcome)
    else SetBy(Next(s, trace[0]), trace[1..], k)
  }

  /** Some step of the run takes the result of state k out of its promise, which has not been set. */
  ghost predicate RetrievedBy(s: State, trace: seq<Action>, k: nat)
    decreases |trace|
  {
    && trace != [] && Enabled(s, trace[0])
    && (Retrieves(s, trace[0], k) || RetrievedBy(Next(s, trace[0]), trace[1..], k))
  }

  ghost predicate Retrieves(s: State, a: Action, k: nat)
    requires Enabled(s, a)
  {
    a.GetResult? && s.handles[a.i].producer.Some? && s.handles[a.i].consumer == Some(k)
  }

  ghost function GivenOf(s: State, k: nat): Option<Outcome> { if k < |s.cells| then s.cells[k].given else None }

  ghost predicate IsRetrieved(s: State, k: nat) { k < |s.cells| && s.cells[k].retrieved }

  lemma OwnedProducerIsUnset(s: State, i: nat, k: nat)
    requires Inv(s) && i < |s.handles| && s.handles[i].producer == Some(k)
    ensures k < |s.cells| && s.cells[k].given == None
  {
    assert HandleOk(s.handles[i], s.cells);
    SumAtLeast(s.handles, OwnsProducer(k));
    assert OwnsProducer(k)(s.handles[i]) == 1;
    assert CellOk(s.cells[k], Producers(s.handles, k), Consumers(s.handles, k));
  }

  ghost predicate SameRecords(before: seq<Cell>, after: seq<Cell>) {
    && |after| == |before|
    && forall k: nat | k < |before| :: after[k].given == before[k].given && after[k].retrieved == before[k].retrieved
  }

  lemma GiveUpRecords(v: View)
    requires InRange(v)
    ensures SameRecords(v.cells, Overwritten(v).cells) && SameRecords(v.cells, Destroyed(v).cells)
  {
    var u := if v.h.role.PromiseRole? then BreakTask(v) else v;
    assert SameRecords(v.cells, u.cells);
    assert SameRecords(u.cells, ResetProducer(u).cells);
    assert SameRecords(u.cells, ResetConsumer(u).cells);
  }

  lemma StepKeepsRecords(s: State, a: Action)
    requires Enabled(s, a) && !a.NewPromise? && !a.Set? && !a.GetResult?
    ensures SameRecords(s.cells, Next(s, a).cells)
  {
    if a.Assign? || a.Destroy? { GiveUpRecords(View(s.handles[a.i], s.cells)); }
  }

  lemma StepRecords(s: State, a: Action, k: nat)
    requires Inv(s) && Enabled(s, a)
    ensures a.Set? && s.handles[a.i].producer == Some(k) ==>
              GivenOf(s, k) == None && GivenOf(Next(s, a), k) == Some(a.outcome)
    ensures !(a.Set? && s.handles[a.i].producer == Some(k)) ==> GivenOf(Next(s, a), k) == GivenOf(s, k)
    ensures IsRetrieved(Next(s, a), k) <==> IsRetrieved(s, k) || Retrieves(s, a, k)
  {
    assert HandleOk(s.handles[a.i], s.cells);
    if !a.NewPromise? && !a.Set? && !a.GetResult? {
      StepKeepsRecords(s, a);
    } else if a.Set? && s.handles[a.i].producer == Some(k) {
      OwnedProducerIsUnset(s, a.i, k);
    }
  }

  lemma {:induction false} RunRecords(s: State, trace: seq<Action>, t: State, k: nat)
    requires Inv(s) && Executes(s, trace, t)
    ensures GivenOf(t, k) == if GivenOf(s, k).Some? then GivenOf(s, k) else SetBy(s, trace, k)
    ensures IsRetrieved(t, k) <==> IsRetrieved(s, k) || RetrievedBy(s, trace, k)
    decreases |trace|
  {
    if trace != [] {
      StepKeepsInv(s, trace[0]);
      StepRecords(s, trace[0], k);
      RunRecords(Next(s, trace[0]), trace[1..], t, k);
    }
  }

  /**
   In every run the outcome of a state is the very outcome that a step of the run has set through its
   promise. If the producer's side was given up without such a step it is broken_task, provided that
   the result was retrieved; and there is no outcome while the producer's side is owned.
   */
  lemma OutcomeIsWhatWasSet(s: State, trace: seq<Action>, t: State, k: nat)
    requires Init(s) && Executes(s, trace, t) && k < |t.cells|
    ensures Producers(t.handles, k) != 0 ==> t.cells[k].outcome == Unset && SetBy(s, trace, k) == None
    ensures Producers(t.handles, k) == 0 ==>
              t.cells[k].outcome == match SetBy(s, trace, k)
                                    case Some(o) => o
                                    case None => if RetrievedBy(s, trace, k) then BrokenTask else Unset
  {
    InitInv(s);
    RunKeepsInv(s, trace, t);
    RunRecords(s, trace, t, k);
    assert CellOk(t.cells[k], Producers(t.handles, k), Consumers(t.handles, k));
  }

  /** When all handles have given up their sides, every state has been deleted. */
  lemma NothingIsLeaked(t: State, k: nat)
    requires Reachable(t) && k < |t.cells| && forall h | h in t.handles :: Empty(h)
    ensures t.cells[k].deletions == 1
  {
    ReachableInv(t);
    SumZero(t.handles, OwnsProducer(k));
    SumZero(t.handles, OwnsConsumer(k));
  }

  // ---------------------------------------------------------------- handles as objects

  datatype Error = EmptyResult | EmptyResultPromise | ResultAlreadyRetrieved | InvalidArgument

  /** All states but k, and of state k what the promise has left in it and what is known of its past. */
  ghost predicate SameBut(before: seq<Cell>, after: seq<Cell>, k: Option<nat>) {
    && |after| == |before|
    && (forall m | 0 <= m < |before| && k != Some(m) :: after[m] == before[m])
    && (forall m | 0 <= m < |before| :: after[m].retrieved == before[m].retrieved)
  }

  /** What a promise leaves behind: broken_task where the result is held elsewhere, the outcomes it found otherwise. */
  ghost predicate BrokenAtMost(before: seq<Cell>, after: seq<Cell>, producer: Option<nat>, consumer: Option<nat>) {
    && |after| == |before|
    && (forall m: nat | m < |before| ::
          after[m].outcome == if producer == Some(m) && consumer == None then BrokenTask else before[m].outcome)
    && (forall m: nat | m < |before| && producer != Some(m) && consumer != Some(m) :: after[m] == before[m])
  }

  /** The states on the heap. */
  class Store {
    var cells: seq<Cell>

    method CompleteProducerOf(k: nat)
      requires k < |cells|
      modifies this
      ensures cells == old(cells)[k := CompleteProducer(old(cells)[k])]
      ensures SameBut(old(cells), cells, Some(k)) && cells[k].pc == ProducerDone
      ensures cells[k].outcome == old(cells)[k].outcome && cells[k].given == old(cells)[k].given
      ensures cells[k].deletions == old(cells)[k].deletions + if old(cells)[k].pc.ConsumerDone? then 1 else 0
    {
      var before := cells[k].pc;
      var fault := cells[k].fault || cells[k].deletions > 0 || before == ProducerDone;
      var deletions := if before == ConsumerDone then cells[k].deletions + 1 else cells[k].deletions;
      cells := cells[k := cells[k].(pc := ProducerDone, deletions := deletions, fault := fault)];
    }

    method CompleteConsumerOf(k: nat)
      requires k < |cells|
      modifies this
      ensures cells == old(cells)[k := CompleteConsumer(old(cells)[k])]
      ensures SameBut(old(cells), cells, Some(k))
      ensures cells[k].outcome == old(cells)[k].outcome && cells[k].given == old(cells)[k].given
      ensures cells[k].pc == if old(cells)[k].pc.ProducerDone? then ProducerDone else ConsumerDone
      ensures cells[k].deletions == old(cells)[k].deletions + if old(cells)[k].pc.ProducerDone? then 1 else 0
    {
      var c := cells[k];
      if c.pc == ProducerDone {
        cells := cells[k := c.(deletions := c.deletions + 1, fault := c.fault || c.deletions > 0)];
        return;
      }
      cells := cells[k := c.(pc := ConsumerDone, fault := c.fault || c.deletions > 0 || c.pc != Idle)];
    }
  }

  class ResultPromise {
    var producer: Option<nat>
    var consumer: Option<nat>

    function AsHandle(): Handle
      reads this
    {
      Handle(PromiseRole, producer, consumer)
    }

    constructor (w: Store)
      modifies w
      ensures w.cells == old(w.cells) + [Cell(Idle, Unset, 0, None, false, false)]
      ensures producer == consumer == Some(|old(w.cells)|)
    {
      producer, consumer := Some(|w.cells|), Some(|w.cells|);
      new;
      w.cells := w.cells + [Cell(Idle, Unset, 0, None, false, false)];
    }

    /** `m_producer_state.reset()` gives the side up once the new value is in place. */
    method ReplaceProducer(p: Option<nat>, w: Store)
      requires InRange(View(AsHandle(), w.cells))
      modifies `producer, w
      ensures producer == p && w.cells == ResetProducer(View(old(AsHandle()), old(w.cells))).cells
    {
      var before := producer;
      producer := p;
      if before.Some? { w.CompleteProducerOf(before.value); }
    }

    method ReplaceConsumer(p: Option<nat>, w: Store)
      requires InRange(View(AsHandle(), w.cells))
      modifies `consumer, w
      ensures consumer == p && w.cells == ResetConsumer(View(old(AsHandle()), old(w.cells))).cells
    {
      var before := consumer;
      consumer := p;
      if before.Some? { w.CompleteConsumerOf(before.value); }
    }

    method Publish(o: Outcome, given: Option<Outcome>, w: Store)
      requires InRange(View(AsHandle(), w.cells)) && producer.Some?
      modifies `producer, w
      ensures View(AsHandle(), w.cells) == Published(View(old(AsHandle()), old(w.cells)), o, given)
      ensures producer == None && SameBut(old(w.cells), w.cells, old(producer))
      ensures var c := w.cells[old(producer).value];
              c.outcome == o && c.given == given && c.pc == ProducerDone
    {
      var k := producer.value;
      w.cells := w.cells[k := Settle(w.cells[k], o).(given := given)];
      ReplaceProducer(None, w);
    }

    method BreakTaskIfNeeded(w: Store)
      requires InRange(View(AsHandle(), w.cells))
      modifies this, w
      ensures View(AsHandle(), w.cells) == BreakTask(View(old(AsHandle()), old(w.cells)))
      ensures consumer == old(consumer) && producer == if consumer.Some? then old(producer) else None
      ensures SameBut(old(w.cells), w.cells, if consumer.Some? then None else old(producer))
      ensures old(producer).Some? && consumer == None ==>
                w.cells[old(producer).value].outcome == BrokenTask && w.cells[old(producer).value].pc == ProducerDone
    {
      if producer == None { return; }
      if consumer.Some? { return; }
      Publish(BrokenTask, w.cells[producer.value].given, w);
    }

    method Destroy(w: Store)
      requires InRange(View(AsHandle(), w.cells))
      modifies this, w
      ensures View(AsHandle(), w.cells) == Destroyed(View(old(AsHandle()), old(w.cells)))
      ensures producer == None == consumer
      ensures BrokenAtMost(old(w.cells), w.cells, old(producer), old(consumer))
    {
      BreakTaskIfNeeded(w);
      ReplaceConsumer(None, w);
      ReplaceProducer(None, w);
    }

    method MoveAssign(rhs: ResultPromise, w: Store)
      requires InRange(View(AsHandle(), w.cells)) && InRange(View(rhs.AsHandle(), w.cells))
      modifies this, rhs, w
      ensures rhs == this ==> AsHandle() == old(AsHandle()) && w.cells == old(w.cells)
      ensures rhs != this ==> w.cells == Overwritten(View(old(AsHandle()), old(w.cells))).cells
      ensures rhs != this ==> AsHandle() == old(rhs.AsHandle()) && Empty(rhs.AsHandle())
      ensures rhs != this ==> BrokenAtMost(old(w.cells), w.cells, old(producer), old(consumer))
    {
      if this == rhs { return; }
      BreakTaskIfNeeded(w);
      var p, c := rhs.producer, rhs.consumer;
      rhs.producer := None;
      ReplaceProducer(p, w);
      rhs.consumer := None;
      ReplaceConsumer(c, w);
    }

    method SetResult(value: int, w: Store) returns (error: Option<Error>)
      requires InRange(View(AsHandle(), w.cells))
      modifies this, w
      ensures error == if old(producer) == None then Some(EmptyResultPromise) else None
      ensures View(AsHandle(), w.cells) == if error.Some? then View(old(AsHandle()), old(w.cells))
                                        else SetOutcome(View(old(AsHandle()), old(w.cells)), Outcome.Value(value))
      ensures error == None ==>
                && producer == None && consumer == old(consumer) && SameBut(old(w.cells), w.cells, old(producer))
                && w.cells[old(producer).value].outcome == Outcome.Value(value)
                && w.cells[old(producer).value].pc == ProducerDone
    {
      if producer == None { return Some(EmptyResultPromise); }
      Publish(Outcome.Value(value), Some(Outcome.Value(value)), w);
      return None;
    }

    /** A null exception is rejected, but only by a promise that is not empty. */
    method SetException(exception: Option<int>, w: Store) returns (error: Option<Error>)
      requires InRange(View(AsHandle(), w.cells))
      modifies this, w
      ensures error == if old(producer) == None then Some(EmptyResultPromise)
                       else if exception == None then Some(InvalidArgument) else None
      ensures View(AsHandle(), w.cells) == if error.Some? then View(old(AsHandle()), old(w.cells))
                                        else SetOutcome(View(old(AsHandle()), old(w.cells)), Exception(exception.value))
      ensures error == None ==>
                && producer == None && consumer == old(consumer) && SameBut(old(w.cells), w.cells, old(producer))
                && w.cells[old(producer).value].outcome == Exception(exception.value)
                && w.cells[old(producer).value].pc == ProducerDone
    {
      if producer == None { return Some(EmptyResultPromise); }
      if exception == None { return Some(InvalidArgument); }
      Publish(Exception(exception.value), Some(Exception(exception.value)), w);
      return None;
    }

    /** The result can be retrieved once, and only while the promise has not been set. */
    method GetResult(w: Store) returns (error: Option<Error>, result: ResultObject)
      requires InRange(View(AsHandle(), w.cells))
      modifies this
      ensures fresh(result)
      ensures error == if old(producer) == None then Some(EmptyResultPromise)
                       else if old(consumer) == None then Some(ResultAlreadyRetrieved) else None
      ensures producer == old(producer) && consumer == if error == None then None else old(consumer)
      ensures result.state == if error == None then old(consumer) else None
    {
      if producer == None {
        error := Some(EmptyResultPromise);
        result := new ResultObject(None);
      } else if consumer == None {
        error := Some(ResultAlreadyRetrieved);
        result := new ResultObject(None);
      } else {
        error := None;
        result := new ResultObject(consumer);
        consumer := None;
      }
    }
  }

  class ResultObject {
    var state: Option<nat>

    constructor (state: Option<nat>)
      ensures this.state == state
    {
      this.state := state;
    }

    function AsHandle(): Handle
      reads this
    {
      Handle(ResultRole, None, state)
    }

    /** `get`, from the moment its wait has returned; the result is empty afterwards. */
    method Get(w: Store) returns (error: Option<Error>, outcome: Outcome)
      requires InRange(View(AsHandle(), w.cells))
      requires state.Some? ==> w.cells[state.value].pc.ProducerDone?
      modifies this, w
      ensures state == None
      ensures error == if old(state) == None then Some(EmptyResult) else None
      ensures error == None ==> outcome == old(w.cells)[old(state).value].outcome
      ensures w.cells == if error.Some? then old(w.cells) else Joined(View(old(AsHandle()), old(w.cells))).cells
      ensures SameBut(old(w.cells), w.cells, old(state))
      ensures error == None ==> w.cells[old(state).value].deletions == old(w.cells)[old(state).value].deletions + 1
    {
      if state == None { return Some(EmptyResult), Unset; }
      var k := state.value;
      state := None;
      outcome := w.cells[k].outcome;
      error := None;
      w.cells := w.cells[k := CompleteJoined(w.cells[k])];
    }

    method MoveAssign(rhs: ResultObject, w: Store)
      requires InRange(View(AsHandle(), w.cells)) && InRange(View(rhs.AsHandle(), w.cells))
      modifies this, rhs, w
      ensures rhs == this ==> AsHandle() == old(AsHandle()) && w.cells == old(w.cells)
      ensures rhs != this ==> w.cells == Overwritten(View(old(AsHandle()), old(w.cells))).cells
      ensures rhs != this ==> AsHandle() == old(rhs.AsHandle()) && Empty(rhs.AsHandle())
      ensures rhs != this ==> SameBut(old(w.cells), w.cells, old(state))
      ensures rhs != this && old(state).Some? ==>
                var c, c' := old(w.cells)[old(state).value], w.cells[old(state).value];
                && c'.outcome == c.outcome && c'.pc == (if c.pc.ProducerDone? then ProducerDone else ConsumerDone)
                && c'.deletions == c.deletions + if c.pc.ProducerDone? then 1 else 0
    {
      if this == rhs { return; }
      var before := state;
      state, rhs.state := rhs.state, None;
      if before.Some? { w.CompleteConsumerOf(before.value); }
    }
  }
}
