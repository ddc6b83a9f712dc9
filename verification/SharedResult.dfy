/**
 The state behind a shared result. Any number of coroutines may await it and any number of threads
 may wait for it. Suspended coroutines form a chain through their own contexts; the producer
 detaches the chain when it publishes the result and walks it. A resumed coroutine may destroy
 its context, so the walk must not touch a context after its coroutine has been resumed.
 */
module SharedResult {
  import opened Prelude

  datatype Pc =
    | Start
    | AwaitLock                // co_await: not ready, about to take the mutex
    | Suspended
    | Resumed
    | WaitLock                 // wait: not ready, about to take the mutex
    | Blocked                  // in the queue of the condition variable
    | Relocking                // woken up, about to take the mutex
    | Returned                 // told that the result is ready
    | GaveUp                   // wait_for has timed out

  /**
   A client; `next` is the link of its await context, which is its own again once it is resumed, and
   `timed` says that it waits with a timeout.
   */
  datatype Client = Client(pc: Pc, next: Option<nat>, resumptions: nat, timed: bool)

  datatype Producer =
    | Building
    | AtLock                   // the outcome is built
    | Walking(cur: Option<nat>)
    | Resuming(current: nat, next: Option<nat>)
    | Finished

  datatype State = State(
    ready: bool,
    head: Option<nat>,         // m_awaiters
    hasCondition: bool,
    clients: seq<Client>,
    producer: Producer,
    chain: seq<nat>,           // history: who is suspended and not resumed, the last one first
    stack: seq<nat>,           // history: whoever has suspended, the last one first
    log: seq<nat>,             // history: who has been resumed, in order
    fault: bool)

  datatype Action =
    | Await(i: nat)
    | AwaitRegion(i: nat)
    | Wait(i: nat, timed: bool)  // wait, or wait_for
    | WaitRegion(i: nat)
    | Wake(i: nat)             // spurious
    | WaitRelock(i: nat)
    | Timeout(i: nat)
    | Reuse(i: nat, link: Option<nat>)
    | Produce

  ghost predicate Init(s: State) {
    && !s.ready && s.head == None && !s.hasCondition && s.producer == Building
    && s.chain == s.stack == s.log == [] && !s.fault
    && forall i | 0 <= i < |s.clients| :: s.clients[i] == Client(Start, None, 0, false)
  }

  ghost predicate At(s: State, i: nat, pc: Pc) {
    i < |s.clients| && s.clients[i].pc == pc
  }

  ghost predicate Enabled(s: State, a: Action) {
    match a
    case Await(i) => At(s, i, Start)
    case AwaitRegion(i) => At(s, i, AwaitLock)
    case Wait(i, _) => At(s, i, Start)
    case WaitRegion(i) => At(s, i, WaitLock)
    case Wake(i) => At(s, i, Blocked)
    case WaitRelock(i) => At(s, i, Relocking)
    case Timeout(i) => At(s, i, Blocked) && s.clients[i].timed
    case Reuse(i, _) => At(s, i, Resumed)
    case Produce => !s.producer.Finished?
  }

  function Go(s: State, i: nat, pc: Pc): State
    requires i < |s.clients|
  {
    s.(clients := s.clients[i := s.clients[i].(pc := pc)])
  }

  /** await_impl. The link of the first awaiter is left as it was. */
  function Suspend(s: State, i: nat): State
    requires i < |s.clients|
  {
    var link := if s.head == None then s.clients[i].next else s.head;
    s.(clients := s.clients[i := s.clients[i].(pc := Suspended, next := link)], head := Some(i),
       chain := [i] + s.chain, stack := [i] + s.stack)
  }

  function NotifyAll(clients: seq<Client>): (r: seq<Client>)
    ensures |r| == |clients|
  {
    seq(|clients|, i requires 0 <= i < |clients| =>
      if clients[i].pc.Blocked? then clients[i].(pc := Relocking) else clients[i])
  }

  /** The region of complete_producer. */
  function Publish(s: State): State {
    s.(head := None, ready := true, producer := Walking(s.head),
       clients := if s.hasCondition then NotifyAll(s.clients) else s.clients)
  }

  function Resume(s: State, i: nat, next: Option<nat>): State {
    if i < |s.clients| && s.clients[i].pc.Suspended? then
      s.(clients := s.clients[i := s.clients[i].(pc := Resumed, resumptions := s.clients[i].resumptions + 1)],
         producer := Walking(next), log := s.log + [i], chain := if s.chain == [] then [] else s.chain[1..])
    else s.(fault := true)
  }

  function ProducerStep(s: State): State
    requires !s.producer.Finished?
  {
    match s.producer
    case Building => s.(producer := AtLock)
    case AtLock => Publish(s)
    case Walking(cur) =>
      if cur == None then s.(producer := Finished)
      else if cur.value < |s.clients| && s.clients[cur.value].pc.Suspended? then
        s.(producer := Resuming(cur.value, s.clients[cur.value].next))
      else s.(fault := true)
    case Resuming(i, next) => Resume(s, i, next)
  }

  ghost function Next(s: State, a: Action): State
    requires Enabled(s, a)
  {
    match a
    case Await(i) => Go(s, i, if s.ready then Returned else AwaitLock)
    case AwaitRegion(i) => if s.ready then Go(s, i, Returned) else Suspend(s, i)
    case Wait(i, timed) =>
      s.(clients := s.clients[i := s.clients[i].(pc := if s.ready then Returned else WaitLock, timed := timed)])
    case WaitRegion(i) => if s.ready then Go(s, i, Returned) else Go(s, i, Blocked).(hasCondition := true)
    case Wake(i) => Go(s, i, Relocking)
    case WaitRelock(i) => Go(s, i, if s.ready then Returned else Blocked)
    case Timeout(i) => Go(s, i, if s.ready then Returned else GaveUp)
    case Reuse(i, link) => s.(clients := s.clients[i := s.clients[i].(next := link)])
    case Produce => ProducerStep(s)
  }

  ghost predicate Executes(s: State, trace: seq<Action>, t: State)
    decreases |trace|
  {
    if trace == [] then s == t
    else Enabled(s, trace[0]) && Executes(Next(s, trace[0]), trace[1..], t)
  }

  ghost predicate Reachable(t: State) {
    exists s, trace :: Init(s) && Executes(s, trace, t)
  }

  // ---------------------------------------------------------------- the chain

  /** Following the links from `start` visits exactly `chain`. */
  ghost predicate Linked(clients: seq<Client>, start: Option<nat>, chain: seq<nat>)
    decreases |chain|
  {
    if chain == [] then start == None
    else start == Some(chain[0]) && chain[0] < |clients| && Linked(clients, clients[chain[0]].next, chain[1..])
  }

  /** Only the links of the clients on the chain matter. */
  lemma {:induction false} LinkedFrame(clients: seq<Client>, clients': seq<Client>, start: Option<nat>, chain: seq<nat>)
    requires Linked(clients, start, chain) && |clients'| == |clients|
    requires forall i | i in chain :: i < |clients| && clients'[i].next == clients[i].next
    ensures Linked(clients', start, chain)
    decreases |chain|
  {
    if chain != [] {
      assert chain[0] in chain && forall i | i in chain[1..] :: i in chain;
      LinkedFrame(clients, clients', clients[chain[0]].next, chain[1..]);
    }
  }

  lemma Popped(chain: seq<nat>)
    requires chain != [] && NoDup(chain)
    ensures NoDup(chain[1..]) && chain[0] !in chain[1..] && chain[0] in chain
    ensures forall k :: k in chain[1..] <==> k in chain && k != chain[0]
  {
    assert chain == [chain[0]] + chain[1..];
  }

  lemma Moved(log: seq<nat>, chain: seq<nat>)
    requires chain != []
    ensures log + [chain[0]] + chain[1..] == log + chain
  {
  }

  // ---------------------------------------------------------------- invariant

  ghost predicate ChainOk(s: State) {
    && NoDup(s.chain)
    && (forall i: nat | i < |s.clients| :: s.clients[i].pc.Suspended? <==> i in s.chain)
    && (forall i | i in s.chain :: i < |s.clients|)
    && s.stack == s.log + s.chain
  }

  ghost predicate ProducerOk(s: State) {
    match s.producer
    case Walking(cur) => s.ready && s.head == None && Linked(s.clients, cur, s.chain)
    case Resuming(i, next) =>
      s.ready && s.head == None && s.chain != [] && s.chain[0] == i && Linked(s.clients, next, s.chain[1..])
    case Finished => s.ready && s.head == None && s.chain == []
    case _ => !s.ready && s.log == [] && Linked(s.clients, s.head, s.chain)
  }

  ghost predicate ClientOk(c: Client, ready: bool, hasCondition: bool) {
    && c.resumptions == (if c.pc.Resumed? then 1 else 0)
    && (c.pc.Start? || c.pc.AwaitLock? ==> c.next == None)
    && (c.pc.Resumed? || c.pc.Returned? ==> ready)
    && (c.pc.Blocked? || c.pc.Relocking? ==> hasCondition)
    && (c.pc.Blocked? ==> !ready)
    && (c.pc.GaveUp? ==> c.timed)
  }

  ghost predicate Inv(s: State) {
    && !s.fault
    && ChainOk(s)
    && ProducerOk(s)
    && forall i: nat | i < |s.clients| :: ClientOk(s.clients[i], s.ready, s.hasCondition)
  }

  /** A client that is not on the chain does not disturb the producer's walk. */
  lemma ClientKeepsProducer(s: State, i: nat, c: Client)
    requires ChainOk(s) && ProducerOk(s) && i < |s.clients| && i !in s.chain
    ensures ProducerOk(s.(clients := s.clients[i := c]))
  {
    var clients' := s.clients[i := c];
    match s.producer
    case Walking(cur) => LinkedFrame(s.clients, clients', cur, s.chain);
    case Resuming(j, next) =>
      assert forall k | k in s.chain[1..] :: k in s.chain;
      LinkedFrame(s.clients, clients', next, s.chain[1..]);
    case Finished =>
    case _ => LinkedFrame(s.clients, clients', s.head, s.chain);
  }

  /** A client that is not on the chain changes its own record. */
  lemma ClientKeepsInv(s: State, i: nat, c: Client)
    requires Inv(s) && i < |s.clients| && !s.clients[i].pc.Suspended? && !c.pc.Suspended?
    requires ClientOk(c, s.ready, s.hasCondition)
    ensures Inv(s.(clients := s.clients[i := c]))
  {
    assert i !in s.chain;
    ClientKeepsProducer(s, i, c);
  }

  lemma Pushed(chain: seq<nat>, i: nat)
    requires NoDup(chain) && i !in chain
    ensures NoDup([i] + chain) && ([i] + chain)[1..] == chain && ([i] + chain)[0] == i
    ensures forall k :: k in [i] + chain <==> k == i || k in chain
  {
  }

  lemma SuspendKeepsChain(s: State, i: nat)
    requires Inv(s) && At(s, i, AwaitLock) && !s.ready
    ensures ChainOk(Suspend(s, i))
  {
    Pushed(s.chain, i);
    assert s.log == [];
  }

  lemma SuspendKeepsInv(s: State, i: nat)
    requires Inv(s) && At(s, i, AwaitLock) && !s.ready
    ensures Inv(Suspend(s, i))
  {
    SuspendKeepsChain(s, i);
    var s' := Suspend(s, i);
    Pushed(s.chain, i);
    assert s'.clients[i].next == s.head;
    LinkedFrame(s.clients, s'.clients, s.head, s.chain);
  }

  lemma PublishKeepsInv(s: State)
    requires Inv(s) && s.producer == AtLock
    ensures Inv(Publish(s))
  {
    LinkedFrame(s.clients, Publish(s).clients, s.head, s.chain);
  }

  lemma ResumeKeepsInv(s: State, i: nat, next: Option<nat>)
    requires Inv(s) && s.producer == Resuming(i, next)
    ensures Inv(Resume(s, i, next))
  {
    var s' := Resume(s, i, next);
    Popped(s.chain);
    LinkedFrame(s.clients, s'.clients, next, s'.chain);
    assert s'.stack == s'.log + s'.chain by { Moved(s.log, s.chain); }
  }

  lemma ProduceKeepsInv(s: State)
    requires Inv(s) && !s.producer.Finished?
    ensures Inv(ProducerStep(s))
  {
    match s.producer
    case Building =>
    case AtLock => PublishKeepsInv(s);
    case Walking(cur) => if s.chain != [] { assert s.chain[0] in s.chain; }
    case Resuming(i, next) => ResumeKeepsInv(s, i, next);
  }

  lemma StepKeepsInv(s: State, a: Action)
    requires Inv(s) && Enabled(s, a)
    ensures Inv(Next(s, a))
  {
    match a
    case Produce => ProduceKeepsInv(s);
    case AwaitRegion(i) =>
      if s.ready { ClientKeepsInv(s, i, s.clients[i].(pc := Returned)); } else { SuspendKeepsInv(s, i); }
    case WaitRegion(i) =>
      if s.ready {
        ClientKeepsInv(s, i, s.clients[i].(pc := Returned));
      } else {
        var s' := s.(hasCondition := true);
        assert Inv(s');
        ClientKeepsInv(s', i, s.clients[i].(pc := Blocked));
      }
    case _ => ClientKeepsInv(s, a.i, Next(s, a).clients[a.i]);
  }

  lemma {:induction false} RunKeepsInv(s: State, trace: seq<Action>, t: State)
    requires Inv(s) && Executes(s, trace, t)
    ensures Inv(t)
    decreases |trace|
  {
    if trace != [] {
      StepKeepsInv(s, trace[0]);
      RunKeepsInv(Next(s, trace[0]), trace[1..], t);
    }
  }

  lemma ReachableInv(t: State)
    requires Reachable(t)
    ensures Inv(t)
  {
    var s, trace :| Init(s) && Executes(s, trace, t);
    RunKeepsInv(s, trace, t);
  }

  // ---------------------------------------------------------------- theorems about every run

  /**
   A coroutine is resumed at most once, and only after it was told to suspend and the result is
   ready; one that was told not to suspend finds the result ready and is never resumed. The
   producer never touches the context of a coroutine that has been resumed.
   */
  lemma ResumedAtMostOnce(t: State, i: nat)
    requires Reachable(t) && i < |t.clients|
    ensures !t.fault
    ensures t.clients[i].resumptions == (if t.clients[i].pc.Resumed? then 1 else 0)
    ensures t.clients[i].pc.Resumed? || t.clients[i].pc.Returned? ==> t.ready
    ensures t.clients[i].pc.Suspended? || t.clients[i].pc.Resumed? <==> i in t.stack
    ensures t.ready ==> !t.producer.Building? && !t.producer.AtLock?
  {
    ReachableInv(t);
    ResumedAreLogged(t, i);
  }

  /** Whoever has been resumed is in the log: this is kept by every step. */
  ghost predicate Logged(s: State) {
    forall i: nat | i < |s.clients| :: s.clients[i].pc.Resumed? <==> i in s.log
  }

  lemma StepKeepsLogged(s: State, a: Action)
    requires Inv(s) && Logged(s) && Enabled(s, a)
    ensures Logged(Next(s, a))
  {
    var s' := Next(s, a);
    match a
    case Produce =>
      match s.producer { case Resuming(i, _) => assert i in s.chain && s'.log == s.log + [i]; case _ => }
    case AwaitRegion(_) =>
    case _ => assert s'.clients == s.clients[a.i := s'.clients[a.i]];
  }

  lemma {:induction false} RunKeepsLogged(s: State, trace: seq<Action>, t: State)
    requires Inv(s) && Logged(s) && Executes(s, trace, t)
    ensures Logged(t)
    decreases |trace|
  {
    if trace != [] {
      StepKeepsInv(s, trace[0]);
      StepKeepsLogged(s, trace[0]);
      RunKeepsLogged(Next(s, trace[0]), trace[1..], t);
    }
  }

  lemma ResumedAreLogged(t: State, i: nat)
    requires Reachable(t) && i < |t.clients|
    ensures t.clients[i].pc.Resumed? <==> i in t.log
  {
    var s, trace :| Init(s) && Executes(s, trace, t);
    RunKeepsLogged(s, trace, t);
  }

  /** The client that a step concerns, if the step takes it to the given place. */
  ghost function Entering(s: State, a: Action, pc: Pc): seq<nat>
    requires Enabled(s, a)
  {
    var i := if !a.Produce? then Some(a.i) else if s.producer.Resuming? then Some(s.producer.current) else None;
    if i.Some? && At(Next(s, a), i.value, pc) && !At(s, i.value, pc) then [i.value] else []
  }

  /** The clients that a run takes to the given place, in order. */
  ghost function Entered(s: State, trace: seq<Action>, pc: Pc): seq<nat>
    decreases |trace|
  {
    if trace == [] || !Enabled(s, trace[0]) then []
    else Entering(s, trace[0], pc) + Entered(Next(s, trace[0]), trace[1..], pc)
  }

  ghost function Reversed(q: seq<nat>): seq<nat> { if q == [] then [] else Reversed(q[1..]) + [q[0]] }

  lemma {:induction false} ReversedAt(q: seq<nat>, k: nat)
    requires k < |q|
    ensures |Reversed(q)| == |q| && Reversed(q)[k] == q[|q| - 1 - k]
  {
    if |q| > 1 { ReversedAt(q[1..], if k < |q| - 1 then k else 0); }
  }

  lemma StepEnters(s: State, a: Action)
    requires Inv(s) && Enabled(s, a)
    ensures Next(s, a).stack == Entering(s, a, Suspended) + s.stack
    ensures Next(s, a).log == s.log + Entering(s, a, Resumed)
    ensures |Entering(s, a, Suspended)| <= 1
  {
    if a.Produce? && s.producer.Resuming? { assert s.producer.current in s.chain; }
  }

  lemma PrependReversed(e: seq<nat>, rest: seq<nat>, stack: seq<nat>)
    requires |e| <= 1
    ensures Reversed(e + rest) + stack == Reversed(rest) + (e + stack)
  {
    if e == [] {
      assert e + rest == rest && e + stack == stack;
    } else {
      assert (e + rest)[1..] == rest && e + stack == [e[0]] + stack;
    }
  }

  lemma Associative(x: seq<nat>, y: seq<nat>, z: seq<nat>)
    ensures (x + y) + z == x + (y + z)
  {
  }

  /** One step at the front of a run, on the histories alone. */
  lemma EntersFirst(stack: seq<nat>, log: seq<nat>, in1: seq<nat>, in2: seq<nat>, out1: seq<nat>, out2: seq<nat>)
    requires |in1| <= 1
    ensures Reversed(in2) + (in1 + stack) == Reversed(in1 + in2) + stack
    ensures (log + out1) + out2 == log + (out1 + out2)
  {
    PrependReversed(in1, in2, stack);
    Associative(log, out1, out2);
  }

  ghost predicate Enters(s: State, t: State, suspended: seq<nat>, resumed: seq<nat>) {
    t.stack == Reversed(suspended) + s.stack && t.log == s.log + resumed
  }

  lemma EntersThen(s: State, a: Action, t: State, in2: seq<nat>, out2: seq<nat>)
    requires Inv(s) && Enabled(s, a) && Enters(Next(s, a), t, in2, out2)
    ensures Enters(s, t, Entering(s, a, Suspended) + in2, Entering(s, a, Resumed) + out2)
  {
    StepEnters(s, a);
    EntersFirst(s.stack, s.log, Entering(s, a, Suspended), in2, Entering(s, a, Resumed), out2);
  }

  lemma {:induction false} RunEnters(s: State, trace: seq<Action>, t: State)
    requires Inv(s) && Executes(s, trace, t)
    ensures Enters(s, t, Entered(s, trace, Suspended), Entered(s, trace, Resumed))
    decreases |trace|
  {
    if trace != [] {
      var u := Next(s, trace[0]);
      StepKeepsInv(s, trace[0]);
      RunEnters(u, trace[1..], t);
      EntersThen(s, trace[0], t, Entered(u, trace[1..], Suspended), Entered(u, trace[1..], Resumed));
    }
  }

  lemma FromTheStart(s: State, t: State, suspended: seq<nat>, resumed: seq<nat>)
    requires Init(s) && Inv(t) && Enters(s, t, suspended, resumed)
    ensures Reversed(suspended) == resumed + t.chain && (t.producer.Finished? ==> t.chain == [])
  {
    assert Reversed(suspended) + s.stack == Reversed(suspended) && s.log + resumed == resumed;
  }

  /** The elements of r are the last ones of q, from the end. */
  ghost predicate InReverse(q: seq<nat>, r: seq<nat>) {
    |r| <= |q| && forall k | 0 <= k < |r| :: r[k] == q[|q| - 1 - k]
  }

  lemma PrefixOfReversed(q: seq<nat>, r: seq<nat>, rest: seq<nat>)
    requires Reversed(q) == r + rest
    ensures |r| + |rest| == |q| && InReverse(q, r)
  {
    if q != [] { ReversedAt(q, 0); }
    forall k | 0 <= k < |r| ensures r[k] == q[|q| - 1 - k] {
      ReversedAt(q, k);
      assert r[k] == Reversed(q)[k];
    }
  }

  /**
   Coroutines are resumed in the reverse order of their suspension: the k-th to be resumed in a run is
   the k-th from the end to have been suspended. Nobody is skipped.
   */
  lemma LastInFirstOut(s: State, trace: seq<Action>, t: State)
    requires Init(s) && Executes(s, trace, t)
    ensures var suspended, resumed := Entered(s, trace, Suspended), Entered(s, trace, Resumed);
            InReverse(suspended, resumed) && (t.producer.Finished? ==> |resumed| == |suspended|)
  {
    RunKeepsInv(s, trace, t);
    RunEnters(s, trace, t);
    var suspended, resumed := Entered(s, trace, Suspended), Entered(s, trace, Resumed);
    FromTheStart(s, t, suspended, resumed);
    PrefixOfReversed(suspended, resumed, t.chain);
  }

  /** Nothing can happen except spurious wakeups, timeouts, and what resumed coroutines do. */
  ghost predicate Quiet(t: State) {
    forall a: Action | !a.Wake? && !a.Timeout? && !a.Reuse? :: !Enabled(t, a)
  }

  /**
   When a run comes to rest every client has been served; nobody stays suspended or blocked, and only
   a client that waits with a timeout may have given up.
   */
  lemma RestsOnlyWhenServed(t: State, i: nat)
    requires Reachable(t) && Quiet(t) && i < |t.clients|
    ensures t.ready
    ensures match t.clients[i].pc
            case Returned => true
            case Resumed => t.clients[i].resumptions == 1
            case GaveUp => t.clients[i].timed
            case _ => false
  {
    ReachableInv(t);
    assert !Enabled(t, Produce);
    assert !Enabled(t, Await(i)) && !Enabled(t, AwaitRegion(i));
    assert !Enabled(t, WaitRegion(i)) && !Enabled(t, WaitRelock(i));
  }

  // ---------------------------------------------------------------- runs come to rest

  ghost function Weight(c: Client): int {
    match c.pc
    case Start => 6
    case AwaitLock => 5
    case WaitLock => 5
    case Suspended => 3
    case Relocking => 3
    case Blocked => 2
    case _ => 0
  }

  ghost function ProducerWork(s: State): nat {
    match s.producer
    case Building => |s.clients| + 4
    case AtLock => |s.clients| + 3
    case Walking(_) => 2
    case Resuming(_, _) => 1
    case Finished => 0
  }

  ghost function Work(s: State): int { Sum(s.clients, Weight) + ProducerWork(s) }

  /** The publication wakes every blocked client, at most all of them. */
  lemma {:induction false} NotifyAllWork(clients: seq<Client>)
    ensures Sum(NotifyAll(clients), Weight) <= Sum(clients, Weight) + |clients|
  {
    if clients != [] {
      var last := |clients| - 1;
      NotifyAllWork(clients[..last]);
      assert NotifyAll(clients)[..last] == NotifyAll(clients[..last]);
    }
  }

  lemma ProduceDecreases(s: State)
    requires Inv(s) && Enabled(s, Produce)
    ensures Work(Next(s, Produce)) < Work(s)
  {
    match s.producer
    case AtLock => NotifyAllWork(s.clients);
    case Resuming(i, _) =>
      assert i in s.chain;
      SumUpdate(s.clients, i, Next(s, Produce).clients[i], Weight);
    case _ =>
  }

  /** A step of a client changes its own record only, to one of less weight. */
  lemma ClientStepDecreases(s: State, a: Action)
    requires Inv(s) && Enabled(s, a) && !a.Produce? && !a.Wake? && !a.Reuse?
    ensures a.i < |s.clients| == |Next(s, a).clients| && Next(s, a).producer == s.producer
    ensures Next(s, a).clients == s.clients[a.i := Next(s, a).clients[a.i]]
    ensures Weight(Next(s, a).clients[a.i]) < Weight(s.clients[a.i])
  {
  }

  lemma StepDecreases(s: State, a: Action)
    requires Inv(s) && Enabled(s, a) && !a.Wake? && !a.Reuse?
    ensures Work(Next(s, a)) < Work(s)
  {
    if a.Produce? {
      ProduceDecreases(s);
    } else {
      ClientStepDecreases(s, a);
      SumUpdate(s.clients, a.i, Next(s, a).clients[a.i], Weight);
    }
  }

  lemma ExtraStep(s: State, a: Action)
    requires Enabled(s, a) && (a.Wake? || a.Reuse?)
    ensures Work(Next(s, a)) <= Work(s) + 1
  {
    SumUpdate(s.clients, a.i, Next(s, a).clients[a.i], Weight);
  }

  /** Spurious wakeups, and what resumed coroutines do to their contexts. */
  ghost function Extras(trace: seq<Action>): nat {
    if trace == [] then 0 else (if trace[0].Wake? || trace[0].Reuse? then 1 else 0) + Extras(trace[1..])
  }

  /**
   Every run is finite but for spurious wakeups and what resumed coroutines do: it has as many steps as
   there is work at hand, linear in the clients, and two more for each of those.
   */
  lemma {:induction false} RunsAreFinite(s: State, trace: seq<Action>, t: State)
    requires Inv(s) && Executes(s, trace, t)
    ensures |trace| + Work(t) <= Work(s) + 2 * Extras(trace) && 0 <= Work(t)
    decreases |trace|
  {
    if trace == [] {
      SumAtLeast(s.clients, Weight);
    } else {
      StepKeepsInv(s, trace[0]);
      if trace[0].Wake? || trace[0].Reuse? { ExtraStep(s, trace[0]); } else { StepDecreases(s, trace[0]); }
      RunsAreFinite(Next(s, trace[0]), trace[1..], t);
    }
  }

  // ---------------------------------------------------------------- the chain as objects

  class AwaitContext {
    var next: AwaitContext?
    constructor ()
      ensures next == null
    {
      next := null;
    }
  }

  ghost predicate Follows(start: AwaitContext?, chain: seq<AwaitContext>)
    reads chain
    decreases |chain|
  {
    if chain == [] then start == null
    else start == chain[0] && Follows(chain[0].next, chain[1..])
  }

  class SharedResultState {
    var ready: bool
    var awaiters: AwaitContext?
    ghost var chain: seq<AwaitContext>

    ghost predicate Valid()
      reads this, chain
    {
      Follows(awaiters, chain) && forall i, j | 0 <= i < j < |chain| :: chain[i] != chain[j]
    }

    constructor ()
      ensures Valid() && !ready && chain == []
    {
      ready, awaiters, chain := false, null, [];
    }

    /** The region of `await`: a context joins the chain exactly when the result is not ready. */
    method Await(awaiter: AwaitContext) returns (suspended: bool)
      requires Valid() && awaiter !in chain && awaiter.next == null
      modifies this, awaiter
      ensures Valid()
      ensures suspended == !old(ready) && ready == old(ready)
      ensures chain == if suspended then [awaiter] + old(chain) else old(chain)
    {
      if ready { return false; }
      if awaiters != null {
        awaiter.next := awaiters;
      }
      awaiters := awaiter;
      chain := [awaiter] + chain;
      assert chain[1..] == old(chain);
      assert Follows(old(awaiters), old(chain));
      return true;
    }

    /** A resumed coroutine may do anything to its context. */
    method CallerHandle(awaiter: AwaitContext)
      modifies awaiter
    {
    }

    /** Every context of the chain is handed back exactly once, whatever its coroutine does to it. */
    method CompleteProducer() returns (resumed: seq<AwaitContext>)
      requires Valid()
      modifies this, chain
      ensures Valid() && ready && chain == []
      ensures resumed == old(chain)
    {
      var cur := awaiters;
      ghost var all := chain;
      awaiters, chain, ready := null, [], true;
      resumed := [];
      while cur != null
        invariant |resumed| <= |all| && resumed == all[..|resumed|] && Follows(cur, all[|resumed|..])
        decreases |all| - |resumed|
        modifies all
      {
        ghost var i := |resumed|;
        assert cur == all[i] && cur !in all[i + 1..] && all[i..][1..] == all[i + 1..];
        var next := cur.next;
        CallerHandle(cur);
        resumed := resumed + [cur];
        cur := next;
      }
    }
  }
}
