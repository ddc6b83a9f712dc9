/** The atomic word through which the producer and the consumer of a result agree. */
module ResultWord {
  datatype Pc = Idle | ConsumerSet | ConsumerWaiting | ConsumerDone | ProducerDone
}

/**
 The hand-off between the producer of a result and its one consumer: an atomic five-valued
 word, a consumer context that says how to wake the consumer, and the outcome. Every atomic
 operation and every access to the context is one step; a run is any interleaving of the
 producer with any sequence of consumer calls.
 */
module ResultState {
  import opened Prelude
  import opened ResultWord

  datatype Outcome = Unset | Value(value: int) | Exception(error: int)

  /** `m_consumer`: how the producer has to wake the consumer. Calls are told apart by a number. */
  datatype Context = NoContext | AwaitHandle(call: nat) | WaitForSemaphore(call: nat)

  /** Where the consumer is. `join` calls give the result up once it is there. */
  datatype Consumer =
    | Ready
    | WaitCas(join: bool)          // wait(): the state was not producer_done
    | WaitLoad(join: bool)
    | WaitCompare(join: bool)      // in the atomic wait, before its comparison
    | WaitBlocked(join: bool)      // in the atomic wait, asleep
    | AwaitSet(join: bool)         // await(): about to write the context
    | AwaitCas(join: bool)
    | Suspended(join: bool)
    | ForSet                       // wait_for(): about to write the context
    | ForCas
    | ForAcquire
    | ForRewind
    | ForClear                     // about to clear the context
    | Joining                      // complete_joined_consumer is due
    | DropExchange                 // complete_consumer: the state was not producer_done
    | Gone

  /** Where the producer is; `Acting` has exchanged the state and holds what it found. */
  datatype Producer = Building | Built | Acting(before: Pc) | Finished

  datatype State = State(
    pc: Pc,
    context: Context,
    outcome: Outcome,
    consumer: Consumer,
    producer: Producer,
    calls: nat,                    // awaits and wait_fors so far; the current one has this number
    released: set<nat>,            // wait_for semaphores released by the producer
    suspended: set<nat>,           // awaits that were told to suspend
    resumed: seq<nat>,             // awaits whose coroutine the producer resumed
    deletions: nat,
    fault: bool)                   // an assertion of the code failed, or a coroutine not suspended was resumed

  datatype Action =
    | CallWait(join: bool)
    | CallAwait(join: bool)
    | CallWaitFor
    | CallStatus
    | CallDrop
    | Consume                      // the next step of the call under way
    | Timeout                      // of wait_for
    | SpuriousWake                 // of the atomic wait
    | Build(outcome: Outcome)
    | Produce                      // the next step of complete_producer

  ghost predicate Init(s: State) {
    s == State(Idle, NoContext, Unset, Ready, Building, 0, {}, {}, [], 0, false)
  }

  predicate Enabled(s: State, a: Action) {
    match a
    case CallWait(_) => s.consumer.Ready?
    case CallAwait(_) => s.consumer.Ready?
    case CallWaitFor => s.consumer.Ready?
    case CallStatus => s.consumer.Ready?
    case CallDrop => s.consumer.Ready?
    case Consume =>
      && !(s.consumer.Ready? || s.consumer.Gone? || s.consumer.Suspended? || s.consumer.WaitBlocked?)
      && (s.consumer.ForAcquire? ==> s.calls in s.released)
    case Timeout => s.consumer.ForAcquire?
    case SpuriousWake => s.consumer.WaitBlocked?
    case Build(o) => s.producer.Building? && !o.Unset?
    case Produce => s.producer.Built? || s.producer.Acting?
  }

  // ---------------------------------------------------------------- consumer steps

  function Return(join: bool): Consumer { if join then Joining else Ready }

  /** `assert_done`, and what follows it. */
  function CheckDone(s: State, next: Consumer): State {
    s.(consumer := next, fault := s.fault || s.pc != ProducerDone)
  }

  /** Returning the status of the outcome, which must have been built. */
  function CheckStatus(s: State): State {
    s.(consumer := Ready, fault := s.fault || s.pc != ProducerDone || s.outcome.Unset?)
  }

  function SetContext(s: State, c: Context, next: Consumer): State {
    s.(context := c, consumer := next, fault := s.fault || !s.context.NoContext?)
  }

  function ConsumerStep(s: State): State {
    match s.consumer
    case WaitCas(join) =>
      if s.pc.Idle? then s.(pc := ConsumerWaiting, consumer := WaitLoad(join)) else CheckDone(s, Return(join))
    case WaitLoad(join) =>
      if s.pc.ProducerDone? then CheckDone(s, Return(join)) else s.(consumer := WaitCompare(join))
    case WaitCompare(join) =>
      s.(consumer := if s.pc.ConsumerWaiting? then WaitBlocked(join) else WaitLoad(join))
    case AwaitSet(join) => SetContext(s, AwaitHandle(s.calls), AwaitCas(join))
    case AwaitCas(join) =>
      if s.pc.Idle? then s.(pc := ConsumerSet, consumer := Suspended(join), suspended := s.suspended + {s.calls})
      else CheckDone(s, Return(join))
    case ForSet => SetContext(s, WaitForSemaphore(s.calls), ForCas)
    case ForCas =>
      if s.pc.Idle? then s.(pc := ConsumerSet, consumer := ForAcquire) else CheckStatus(s)
    case ForAcquire => CheckStatus(s)
    case ForRewind =>
      if s.pc.ConsumerSet? then s.(pc := Idle, consumer := ForClear) else CheckStatus(s)
    case ForClear => s.(context := NoContext, consumer := Ready)
    case Joining =>
      s.(consumer := Gone, deletions := s.deletions + 1, fault := s.fault || !s.pc.ProducerDone? || s.outcome.Unset?)
    case DropExchange =>
      var before := s.pc;
      if before.ProducerDone? then s.(pc := ConsumerDone, consumer := Gone, deletions := s.deletions + 1)
      else s.(pc := ConsumerDone, consumer := Gone, fault := s.fault || !before.Idle?)
    case _ => s
  }

  // ---------------------------------------------------------------- producer steps

  /** `resume_consumer`: what a producer that found `consumer_set` does. */
  function ResumeConsumer(s: State): State {
    match s.context
    case NoContext => s
    case AwaitHandle(call) =>
      var t := s.(resumed := s.resumed + [call]);
      if s.consumer.Suspended? && call == s.calls then t.(consumer := Return(s.consumer.join)) else t.(fault := true)
    case WaitForSemaphore(call) => s.(released := s.released + {call})
  }

  function ProducerStep(s: State): State {
    match s.producer
    case Built =>
      s.(pc := ProducerDone, producer := Acting(s.pc), fault := s.fault || s.pc.ProducerDone?)
    case Acting(before) =>
      var t := match before
        case ConsumerSet => ResumeConsumer(s)
        case Idle => s
        case ConsumerWaiting =>
          if s.consumer.WaitBlocked? then s.(consumer := WaitCompare(s.consumer.join)) else s
        case ConsumerDone => s.(deletions := s.deletions + 1)
        case ProducerDone => s.(fault := true);
      t.(producer := Finished)
    case _ => s
  }

  function Next(s: State, a: Action): State
    requires Enabled(s, a)
  {
    match a
    case CallWait(join) => s.(consumer := if s.pc.ProducerDone? then Return(join) else WaitCas(join))
    case CallAwait(join) =>
      s.(calls := s.calls + 1, consumer := if s.pc.ProducerDone? then Return(join) else AwaitSet(join))
    case CallWaitFor =>
      var t := s.(calls := s.calls + 1);
      if s.pc.ProducerDone? then CheckStatus(t) else t.(consumer := ForSet)
    case CallStatus => s.(fault := s.fault || s.pc.ConsumerSet?)
    case CallDrop =>
      if s.pc.ProducerDone? then s.(consumer := Gone, deletions := s.deletions + 1) else s.(consumer := DropExchange)
    case Consume => ConsumerStep(s)
    case Timeout => s.(consumer := ForRewind)
    case SpuriousWake => s.(consumer := WaitCompare(s.consumer.join))
    case Build(o) => s.(outcome := o, producer := Built, fault := s.fault || !s.outcome.Unset?)
    case Produce => ProducerStep(s)
  }

  ghost predicate Executes(s: State, trace: seq<Action>, t: State)
    decreases |trace|
  {
    if trace == [] then s == t
    else Enabled(s, trace[0]) && Executes(Next(s, trace[0]), trace[1..], t)
  }

  ghost predicate Reachable(t: State) {
    exists s, trace :: Init(s) && Executes(s, trace, t)
  }

  // ---------------------------------------------------------------- the invariant

  predicate Exchanged(s: State) { s.producer.Acting? || s.producer.Finished? }

  /** Before the producer has exchanged the state it mirrors the consumer exactly. */
  predicate BeforeExchange(s: State) {
    match s.consumer
    case Ready => s.pc.Idle? && s.context.NoContext?
    case WaitCas(_) => s.pc.Idle? && s.context.NoContext?
    case WaitLoad(_) => s.pc.ConsumerWaiting? && s.context.NoContext?
    case WaitCompare(_) => s.pc.ConsumerWaiting? && s.context.NoContext?
    case WaitBlocked(_) => s.pc.ConsumerWaiting? && s.context.NoContext?
    case AwaitSet(_) => s.pc.Idle? && s.context.NoContext?
    case AwaitCas(_) => s.pc.Idle? && s.context == AwaitHandle(s.calls)
    case Suspended(_) => s.pc.ConsumerSet? && s.context == AwaitHandle(s.calls)
    case ForSet => s.pc.Idle? && s.context.NoContext?
    case ForCas => s.pc.Idle? && s.context == WaitForSemaphore(s.calls)
    case ForAcquire => s.pc.ConsumerSet? && s.context == WaitForSemaphore(s.calls)
    case ForRewind => s.pc.ConsumerSet? && s.context == WaitForSemaphore(s.calls)
    case ForClear => s.pc.Idle? && s.context == WaitForSemaphore(s.calls)
    case Joining => false
    case DropExchange => s.pc.Idle? && s.context.NoContext?
    case Gone => s.pc.ConsumerDone?
  }

  /** A producer that still has to act on what it found. */
  predicate StillActing(s: State, before: Pc) { s.producer == Acting(before) }

  predicate AfterExchange(s: State) {
    && (s.pc.ProducerDone? || (s.pc.ConsumerDone? && s.consumer.Gone? && s.deletions == 1))
    && (s.producer.Acting? ==> !s.producer.before.ProducerDone?)
    && (StillActing(s, ConsumerDone) ==> s.consumer.Gone? && s.pc.ProducerDone?)
    && (StillActing(s, ConsumerSet) ==>
          || (s.consumer.Suspended? && s.context == AwaitHandle(s.calls))
          || (s.context.WaitForSemaphore? && s.context.call <= s.calls))
    && match s.consumer
       case Ready => true
       case Joining => true
       case Gone => true
       case WaitCas(_) => s.producer.Acting? ==> s.producer.before.Idle?
       case AwaitSet(_) => s.context.NoContext? && (s.producer.Acting? ==> s.producer.before.Idle?)
       case AwaitCas(_) => s.producer.Acting? ==> s.producer.before.Idle?
       case ForSet => s.context.NoContext? && (s.producer.Acting? ==> s.producer.before.Idle?)
       case ForCas => s.producer.Acting? ==> s.producer.before.Idle?
       case ForClear => s.producer.Acting? ==> s.producer.before.Idle?
       case DropExchange => s.producer.Acting? ==> s.producer.before.Idle?
       case WaitLoad(_) => s.producer.Finished? || StillActing(s, ConsumerWaiting)
       case WaitCompare(_) => s.producer.Finished? || StillActing(s, ConsumerWaiting)
       case WaitBlocked(_) => StillActing(s, ConsumerWaiting)
       case Suspended(_) => StillActing(s, ConsumerSet) && s.context == AwaitHandle(s.calls)
       case ForAcquire =>
         || (StillActing(s, ConsumerSet) && s.context == WaitForSemaphore(s.calls))
         || (s.producer.Finished? && s.calls in s.released)
       case ForRewind => s.producer.Finished? || StillActing(s, ConsumerSet)
  }

  ghost function Resumed(s: State): set<nat> { set k | k in s.resumed }

  ghost predicate Tokens(s: State) {
    && |s.resumed| <= 1
    && (s.resumed != [] ==> s.producer.Finished?)
    && (forall k | k in s.suspended || k in s.released :: 1 <= k <= s.calls)
    && (s.released != {} ==> s.producer.Finished?)
    && (forall k | k in s.resumed :: k in s.suspended)
    && (s.consumer.Suspended? ==> s.resumed == [] && s.suspended == {s.calls})
    && (!s.consumer.Suspended? ==> s.suspended == Resumed(s))
  }

  predicate Deletions(s: State) {
    s.deletions == if s.consumer.Gone? && Exchanged(s) && !StillActing(s, ConsumerDone) then 1 else 0
  }

  ghost predicate Inv(s: State) {
    && !s.fault
    && (s.producer.Building? <==> s.outcome.Unset?)
    && (if Exchanged(s) then AfterExchange(s) else BeforeExchange(s))
    && (s.consumer.AwaitSet? || s.consumer.AwaitCas? || s.consumer.Suspended? ==> s.calls > 0)
    && (s.consumer.ForAcquire? || s.consumer.ForSet? || s.consumer.ForCas? || s.consumer.ForRewind? ==> s.calls > 0)
    && (s.context.WaitForSemaphore? ==> s.context.call > 0)
    && Tokens(s)
    && Deletions(s)
  }

  lemma ConsumerFirstKeepsInv(s: State)
    requires Inv(s) && Enabled(s, Consume) && !Exchanged(s)
    ensures Inv(ConsumerStep(s))
  {
  }

  predicate InWaitOrAwait(c: Consumer) {
    c.WaitCas? || c.WaitLoad? || c.WaitCompare? || c.AwaitSet? || c.AwaitCas?
  }

  lemma WaiterLateKeepsInv(s: State)
    requires Inv(s) && Exchanged(s) && InWaitOrAwait(s.consumer)
    ensures Inv(ConsumerStep(s))
  {
  }

  lemma OthersLateKeepInv(s: State)
    requires Inv(s) && Enabled(s, Consume) && Exchanged(s) && !InWaitOrAwait(s.consumer)
    ensures Inv(ConsumerStep(s))
  {
  }

  lemma ConsumerLateKeepsInv(s: State)
    requires Inv(s) && Enabled(s, Consume) && Exchanged(s)
    ensures Inv(ConsumerStep(s))
  {
    if InWaitOrAwait(s.consumer) { WaiterLateKeepsInv(s); } else { OthersLateKeepInv(s); }
  }

  lemma ConsumerKeepsInv(s: State)
    requires Inv(s) && Enabled(s, Consume)
    ensures Inv(ConsumerStep(s))
  {
    if Exchanged(s) { ConsumerLateKeepsInv(s); } else { ConsumerFirstKeepsInv(s); }
  }

  lemma ProducerKeepsInv(s: State)
    requires Inv(s) && Enabled(s, Produce)
    ensures Inv(ProducerStep(s))
  {
  }

  lemma StepKeepsInv(s: State, a: Action)
    requires Inv(s) && Enabled(s, a)
    ensures Inv(Next(s, a))
  {
    if a.Consume? {
      ConsumerKeepsInv(s);
    } else if a.Produce? {
      ProducerKeepsInv(s);
    } else if IsCall(a) {
      CallKeepsInv(s, a);
    } else {
      EventKeepsInv(s, a);
    }
  }

  lemma CallKeepsInv(s: State, a: Action)
    requires Inv(s) && Enabled(s, a) && IsCall(a)
    ensures Inv(Next(s, a))
  {
  }

  lemma EventKeepsInv(s: State, a: Action)
    requires Inv(s) && Enabled(s, a) && (a.Timeout? || a.SpuriousWake? || a.Build?)
    ensures Inv(Next(s, a))
  {
  }

  lemma {:induction false} RunKeepsInv(s: State, trace: seq<Action>, t: State)
    requires Inv(s) && Executes(s, trace, t)
    ensures Inv(t)
    decreases |trace|
  {
    if trace != [] {
      StepKeepsInv(s, trace[0]);
      RunKeepsInv(Next(s, trace[0]), trace[1..], t);
    }
  }

  lemma ReachableInv(t: State)
    requires Reachable(t)
    ensures Inv(t)
  {
    var s, trace :| Init(s) && Executes(s, trace, t);
    RunKeepsInv(s, trace, t);
  }

  // ---------------------------------------------------------------- what every run guarantees

  /**
   No assertion of the code fails. A coroutine is resumed at most once, only if its await told
   it to suspend, and only once the outcome is there; whoever was told to suspend has been
   resumed, or is the current call and still waits.
   */
  lemma ResumedExactlyOnce(t: State)
    requires Reachable(t)
    ensures !t.fault
    ensures forall i, j | 0 <= i < j < |t.resumed| :: t.resumed[i] != t.resumed[j]
    ensures forall k | k in t.resumed :: k in t.suspended && !t.outcome.Unset?
    ensures forall k | k in t.suspended && k !in t.resumed :: t.consumer.Suspended? && k == t.calls
    ensures t.consumer.Suspended? ==> t.calls in t.suspended && t.calls !in t.resumed
  {
    ReachableInv(t);
    forall k | k in t.suspended && k !in t.resumed ensures t.consumer.Suspended? && k == t.calls {
      assert k !in Resumed(t);
    }
  }

  /** Once the producer is through, nobody is left suspended, asleep, or waiting for a semaphore in vain. */
  lemma NoLostWakeup(t: State)
    requires Reachable(t) && t.producer.Finished?
    ensures !t.consumer.Suspended? && !t.consumer.WaitBlocked?
    ensures t.consumer.ForAcquire? ==> t.calls in t.released
    ensures Enabled(t, Consume) || t.consumer.Ready? || t.consumer.Gone?
  {
    ReachableInv(t);
  }

  /**
   The state is deleted at most once, never before the consumer has given it up and the producer has
   exchanged the word, and always by the time both are through. The producer may have a last access
   to the state still before it then: see TouchedAfterDeletion.
   */
  lemma DeletedByTheSecond(t: State)
    requires Reachable(t)
    ensures t.deletions <= 1
    ensures t.deletions == 1 ==> t.consumer.Gone? && Exchanged(t)
    ensures t.consumer.Gone? && t.producer.Finished? ==> t.deletions == 1
    ensures t.consumer.Gone? && Exchanged(t) && !StillActing(t, ConsumerDone) ==> t.deletions == 1
  {
    ReachableInv(t);
  }

  /** The next step of the producer accesses the state: it wakes somebody up, or deletes. */
  predicate Touches(s: State) { s.producer.Acting? && !s.producer.before.Idle? }

  /**
   A producer can access a deleted state in two ways only: to notify a consumer that its exchange
   found in the atomic wait, and to read the context of a wait_for that its exchange found registered.
   */
  lemma TouchedAfterDeletion(t: State)
    requires Reachable(t) && t.deletions == 1 && Touches(t)
    ensures t.producer.before == ConsumerWaiting || (t.producer.before == ConsumerSet && t.context.WaitForSemaphore?)
  {
    ReachableInv(t);
  }

  lemma {:induction false} ExecutesAppend(s: State, trace: seq<Action>, t: State, a: Action)
    requires Executes(s, trace, t) && Enabled(t, a)
    ensures Executes(s, trace + [a], Next(t, a))
    decreases |trace|
  {
    if trace == [] {
      assert (trace + [a])[1..] == [];
    } else {
      assert (trace + [a])[1..] == trace[1..] + [a];
      ExecutesAppend(Next(s, trace[0]), trace[1..], t, a);
    }
  }

  lemma ReachableStep(t: State, a: Action)
    requires Reachable(t) && Enabled(t, a)
    ensures Reachable(Next(t, a))
  {
    var s, trace :| Init(s) && Executes(s, trace, t);
    ExecutesAppend(s, trace, t, a);
  }

  lemma ReachableInit() returns (t: State)
    ensures Reachable(t) && Init(t)
  {
    t := State(Idle, NoContext, Unset, Ready, Building, 0, {}, {}, [], 0, false);
    assert Executes(t, [], t);
  }

  /** A plain `get`: the load in `wait` sees the outcome before the producer notifies. */
  lemma NotifiedAfterGet() returns (t: State)
    ensures Reachable(t) && t.deletions == 1 && t.producer == Acting(ConsumerWaiting) && Enabled(t, Produce)
  {
    t := ReachableInit();
    ReachableStep(t, CallWait(true));
    t := Next(t, CallWait(true));
    ReachableStep(t, Consume);           // idle -> consumer_waiting
    t := Next(t, Consume);
    ReachableStep(t, Build(Value(0)));
    t := Next(t, Build(Value(0)));
    ReachableStep(t, Produce);           // consumer_waiting -> producer_done
    t := Next(t, Produce);
    ReachableStep(t, Consume);           // the load finds producer_done
    t := Next(t, Consume);
    ReachableStep(t, Consume);           // complete_joined_consumer
    t := Next(t, Consume);
  }

  /** A wait_for registers and times out while the producer exchanges the word. */
  lemma RegistersAndTimesOut() returns (t: State)
    ensures Reachable(t) && t.consumer.ForRewind? && t.producer == Acting(ConsumerSet) && t.pc.ProducerDone?
    ensures t.context.WaitForSemaphore? && t.deletions == 0
  {
    t := ReachableInit();
    ReachableStep(t, CallWaitFor);
    t := Next(t, CallWaitFor);
    ReachableStep(t, Consume);           // the context is written
    t := Next(t, Consume);
    ReachableStep(t, Consume);           // idle -> consumer_set
    t := Next(t, Consume);
    ReachableStep(t, Timeout);
    t := Next(t, Timeout);
    ReachableStep(t, Build(Value(0)));
    t := Next(t, Build(Value(0)));
    ReachableStep(t, Produce);           // consumer_set -> producer_done
    t := Next(t, Produce);
  }

  /** The wait_for cannot rewind and returns; then the result is dropped before the producer reads the context. */
  lemma ReadAfterTimeout() returns (t: State)
    ensures Reachable(t) && t.deletions == 1 && t.producer == Acting(ConsumerSet) && t.context.WaitForSemaphore?
    ensures Enabled(t, Produce)
  {
    t := RegistersAndTimesOut();
    ReachableInv(t);
    ReachableStep(t, Consume);           // the rewinding exchange fails
    t := Next(t, Consume);
    ReachableStep(t, CallDrop);
    t := Next(t, CallDrop);
  }

  /** Nobody has waited: the consumer has only awaited, asked for the status or dropped the result. */
  predicate Unwaited(s: State) {
    && !s.pc.ConsumerWaiting? && !s.context.WaitForSemaphore?
    && (s.producer.Acting? ==> !s.producer.before.ConsumerWaiting?)
    && match s.consumer
       case WaitCas(_) => false
       case WaitLoad(_) => false
       case WaitCompare(_) => false
       case WaitBlocked(_) => false
       case ForSet => false
       case ForCas => false
       case ForAcquire => false
       case ForRewind => false
       case ForClear => false
       case _ => true
  }

  lemma {:induction false} StaysUnwaited(s: State, trace: seq<Action>, t: State)
    requires Unwaited(s) && Executes(s, trace, t) && forall a | a in trace :: !a.CallWait? && !a.CallWaitFor?
    ensures Unwaited(t)
    decreases |trace|
  {
    if trace != [] { StaysUnwaited(Next(s, trace[0]), trace[1..], t); }
  }

  /** A result that is only awaited or dropped is never accessed after it has been deleted. */
  lemma AwaitedIsNotTouchedAfterDeletion(s: State, trace: seq<Action>, t: State)
    requires Init(s) && Executes(s, trace, t) && forall a | a in trace :: !a.CallWait? && !a.CallWaitFor?
    ensures t.deletions == 1 ==> !Touches(t)
  {
    StaysUnwaited(s, trace, t);
    if t.deletions == 1 && Touches(t) { TouchedAfterDeletion(t); }
  }

  /** The consumer never writes the context while a producer that found `consumer_set` may read it. */
  lemma ContextIsNotRaced(t: State)
    requires Reachable(t)
    requires t.consumer.AwaitSet? || t.consumer.ForSet? || t.consumer.ForClear?
    ensures !StillActing(t, ConsumerSet)
  {
    ReachableInv(t);
  }

  // ---------------------------------------------------------------- what is built, and who gives it up

  /** The outcome that the producer builds in a run, if it does. */
  ghost function BuiltBy(trace: seq<Action>): Outcome {
    if trace == [] then Unset else if trace[0].Build? then trace[0].outcome else BuiltBy(trace[1..])
  }

  lemma {:induction false} RunBuilds(s: State, trace: seq<Action>, t: State)
    requires Inv(s) && Executes(s, trace, t)
    ensures t.outcome == if s.outcome.Unset? then BuiltBy(trace) else s.outcome
    decreases |trace|
  {
    if trace != [] {
      StepKeepsInv(s, trace[0]);
      RunBuilds(Next(s, trace[0]), trace[1..], t);
    }
  }

  /** The outcome is the one that was built, and it never changes. */
  lemma OutcomeIsWhatWasBuilt(s: State, trace: seq<Action>, t: State)
    requires Init(s) && Executes(s, trace, t)
    ensures t.outcome == BuiltBy(trace)
  {
    RunBuilds(s, trace, t);
  }

  predicate IsCall(a: Action) {
    a.CallWait? || a.CallAwait? || a.CallWaitFor? || a.CallStatus? || a.CallDrop?
  }

  /** A call that gives the result up: a drop, or a wait or await on behalf of `get` and the like. */
  predicate GivesUp(a: Action) { a.CallDrop? || ((a.CallWait? || a.CallAwait?) && a.join) }

  /** The consumer will not have the result any more once the call under way has returned. */
  predicate Leaving(c: Consumer) {
    match c
    case WaitCas(join) => join
    case WaitLoad(join) => join
    case WaitCompare(join) => join
    case WaitBlocked(join) => join
    case AwaitSet(join) => join
    case AwaitCas(join) => join
    case Suspended(join) => join
    case Joining => true
    case DropExchange => true
    case Gone => true
    case _ => false
  }

  lemma StepLeaves(s: State, a: Action)
    requires Inv(s) && Enabled(s, a)
    ensures Leaving(Next(s, a).consumer) <==> Leaving(s.consumer) || GivesUp(a)
  {
  }

  lemma {:induction false} RunLeaves(s: State, trace: seq<Action>, t: State)
    requires Inv(s) && Executes(s, trace, t)
    ensures Leaving(t.consumer) <==> Leaving(s.consumer) || exists a | a in trace :: GivesUp(a)
    decreases |trace|
  {
    if trace != [] {
      StepKeepsInv(s, trace[0]);
      StepLeaves(s, trace[0]);
      RunLeaves(Next(s, trace[0]), trace[1..], t);
      assert trace == [trace[0]] + trace[1..];
    }
  }

  /**
   A result is given up exactly by the calls that are to give it up: without one of them in the run it
   is neither gone nor deleted, and after one of them no call returns with the result still there.
   */
  lemma GivenUpExactlyByCalls(s: State, trace: seq<Action>, t: State)
    requires Init(s) && Executes(s, trace, t)
    ensures (forall a | a in trace :: !GivesUp(a)) ==> !t.consumer.Gone? && t.deletions == 0
    ensures (exists a | a in trace :: GivesUp(a)) ==> !t.consumer.Ready?
  {
    RunLeaves(s, trace, t);
    RunKeepsInv(s, trace, t);
  }

  // ---------------------------------------------------------------- termination

  ghost function ConsumerWork(s: State): nat {
    match s.consumer
    case WaitCas(_) => 6
    case WaitLoad(_) => 4
    case WaitCompare(_) => if s.pc.ConsumerWaiting? then 3 else 5
    case WaitBlocked(_) => 2
    case AwaitSet(_) => 6
    case AwaitCas(_) => 5
    case Suspended(_) => 2
    case ForSet => 6
    case ForCas => 5
    case ForAcquire => 4
    case ForRewind => 3
    case ForClear => 2
    case Joining => 1
    case DropExchange => 1
    case Ready => 0
    case Gone => 0
  }

  ghost function Work(s: State): nat {
    ConsumerWork(s) + match s.producer case Building => 30 case Built => 20 case Acting(_) => 10 case Finished => 0
  }

  lemma StepDecreases(s: State, a: Action)
    requires Inv(s) && Enabled(s, a) && !IsCall(a) && !a.SpuriousWake?
    ensures Work(Next(s, a)) < Work(s)
  {
  }

  /** How often the atomic wait returned without cause. */
  ghost function Spurious(trace: seq<Action>): nat {
    if trace == [] then 0 else (if trace[0].SpuriousWake? then 1 else 0) + Spurious(trace[1..])
  }

  /**
   Between two calls a run is finite, whatever the producer does: it has as many steps as there is
   work at hand, and four more for every time the atomic wait returns without cause.
   */
  lemma {:induction false} RunsAreFinite(s: State, trace: seq<Action>, t: State)
    requires Inv(s) && Executes(s, trace, t) && forall a | a in trace :: !IsCall(a)
    ensures |trace| + Work(t) <= Work(s) + 4 * Spurious(trace)
    decreases |trace|
  {
    if trace != [] {
      StepKeepsInv(s, trace[0]);
      if !trace[0].SpuriousWake? { StepDecreases(s, trace[0]); }
      RunsAreFinite(Next(s, trace[0]), trace[1..], t);
    }
  }

  /** It stops only with the outcome published and every call returned. */
  lemma StopsOnlyWhenServed(t: State)
    requires Reachable(t)
    requires forall a | Enabled(t, a) :: IsCall(a)
    ensures t.producer.Finished? && !t.outcome.Unset?
    ensures t.consumer.Ready? || t.consumer.Gone?
  {
    ReachableInv(t);
    assert !Enabled(t, Build(Value(0))) && !Enabled(t, Produce) && !Enabled(t, Consume) && !Enabled(t, Timeout);
    assert !Enabled(t, SpuriousWake);
  }

  // ---------------------------------------------------------------- the code, call by call

  datatype Status = StatusIdle | StatusValue | StatusException

  function StatusOf(o: Outcome): Status {
    match o case Unset => StatusIdle case Value(_) => StatusValue case Exception(_) => StatusException
  }

  /**
   The shared memory, seen from the consumer. What the producer does meanwhile is an input: which
   outcome it publishes, before which atomic operation it does so, and how much later it releases
   the semaphore of a wait_for. Calls are then functions of the memory and of these.
   */
  class Memory {
    var pc: Pc
    var context: Context
    var outcome: Outcome
    var ticks: nat             // atomic operations so far
    var found: Option<Pc>      // what the producer's exchange has found
    const planned: Outcome
    const due: nat
    const delay: nat

    /** The producer exchanges the word once, when it is due, and nobody else publishes an outcome. */
    ghost predicate Valid()
      reads this
    {
      && !planned.Unset?
      && (found.Some? <==> due < ticks)
      && (found.None? ==> outcome.Unset? && !pc.ProducerDone?)
      && (found.Some? ==> outcome == planned && (pc.ProducerDone? || pc.ConsumerDone?))
    }

    /** What a consumer call may start from and has to leave behind when it returns to the caller. */
    predicate Usable()
      reads this
    {
      (pc.Idle? && context.NoContext?) || pc.ProducerDone?
    }

    constructor (planned: Outcome, due: nat, delay: nat)
      requires !planned.Unset?
      ensures Valid() && Usable() && pc.Idle? && ticks == 0
      ensures this.planned == planned && this.due == due && this.delay == delay
    {
      this.planned, this.due, this.delay := planned, due, delay;
      pc, context, outcome, ticks, found := Idle, NoContext, Unset, 0, None;
    }

    /** Interference: the time of `n` operations passes. */
    method Pass(n: nat)
      requires Valid()
      modifies `pc, `outcome, `ticks, `found
      ensures Valid() && ticks == old(ticks) + n
      ensures found == if old(found).None? && due < ticks then Some(old(pc)) else old(found)
      ensures pc == if old(found) != found then ProducerDone else old(pc)
    {
      ticks := ticks + n;
      if found.None? && due < ticks {
        found, pc, outcome := Some(pc), ProducerDone, planned;
      }
    }

    method Load() returns (value: Pc)
      requires Valid()
      modifies `pc, `outcome, `ticks, `found
      ensures Valid() && ticks == old(ticks) + 1
      ensures found == if old(found).None? && due < ticks then Some(old(pc)) else old(found)
      ensures value == pc == if old(found) != found then ProducerDone else old(pc)
    {
      Pass(1);
      value := pc;
    }

    /** Every exchange of the consumer is tried on the word as the producer has left it. */
    method CompareExchange(expected: Pc, desired: Pc) returns (ok: bool)
      requires Valid() && !expected.ProducerDone? && !desired.ProducerDone?
      requires !expected.ConsumerDone? && !desired.ConsumerDone?
      modifies `pc, `outcome, `ticks, `found
      ensures Valid() && ticks == old(ticks) + 1
      ensures found == if old(found).None? && due < ticks then Some(old(pc)) else old(found)
      ensures ok == (old(found) == found && old(pc) == expected)
      ensures pc == if ok then desired else if old(found) != found then ProducerDone else old(pc)
    {
      Pass(1);
      ok := pc == expected;
      if ok {
        pc := desired;
      }
    }

    /** The atomic wait sleeps until the word is not consumer_waiting any more, which is the producer's doing. */
    method AtomicWait()
      requires Valid() && (pc.ConsumerWaiting? || pc.ProducerDone?)
      modifies `pc, `outcome, `ticks, `found
      ensures Valid() && pc.ProducerDone?
      ensures found == if old(found).None? then Some(old(pc)) else old(found)
      ensures ticks == if old(pc).ConsumerWaiting? then due + 1 else old(ticks)
    {
      if pc.ConsumerWaiting? {
        Pass(due + 1 - ticks);
      }
    }

    /**
     Returns with the outcome published. A producer that comes after the two operations by which the
     consumer registers finds it waiting.
     */
    method Wait()
      requires Valid() && Usable()
      modifies `pc, `outcome, `ticks, `found
      ensures Valid() && pc.ProducerDone?
      ensures found == if due < old(ticks) then old(found)
                       else if due < old(ticks) + 2 then Some(Idle) else Some(ConsumerWaiting)
      ensures ticks == if due <= old(ticks) then old(ticks) + 1
                       else if due <= old(ticks) + 2 then due + 1 else due + 2
    {
      var state := Load();
      if state.ProducerDone? {
        return;
      }
      var idle := CompareExchange(Idle, ConsumerWaiting);
      if !idle {
        assert pc.ProducerDone?;
        return;
      }
      while true
        invariant Valid()
        invariant if found.None? then pc.ConsumerWaiting? && ticks == old(ticks) + 2
                  else pc.ProducerDone? && found == Some(ConsumerWaiting) && old(ticks) + 3 <= due == ticks - 1
        decreases if pc.ProducerDone? then 0 else 1
      {
        state := Load();
        if state.ProducerDone? {
          break;
        }
        AtomicWait();
      }
      assert pc.ProducerDone?;
    }

    /**
     Suspends exactly when the producer comes after its two operations; the producer will then find
     the handle. Otherwise the outcome is there.
     */
    method Await(call: nat) returns (suspend: bool)
      requires Valid() && Usable()
      modifies this
      ensures Valid() && suspend == (old(ticks) + 2 <= due)
      ensures ticks == old(ticks) + if due <= old(ticks) then 1 else 2
      ensures pc == if suspend then ConsumerSet else ProducerDone
      ensures context == if due <= old(ticks) then old(context) else AwaitHandle(call)
      ensures found == if due < old(ticks) then old(found) else if suspend then None else Some(Idle)
    {
      var state := Load();
      if state.ProducerDone? {
        return false;
      }
      assert context.NoContext?;
      context := AwaitHandle(call);
      var idle := CompareExchange(Idle, ConsumerSet);
      assert idle || pc.ProducerDone?;
      return idle;
    }

    /** Sleeps until the semaphore is released, but no longer than `patience`. */
    method TryAcquireFor(patience: nat) returns (acquired: bool)
      requires Valid() && pc.ConsumerSet?
      modifies `pc, `outcome, `ticks, `found
      ensures Valid() && acquired == (due + delay < old(ticks) + patience)
      ensures ticks == if acquired then due + delay + 1 else old(ticks) + patience
      ensures found == if due < ticks then Some(ConsumerSet) else None
      ensures pc == if due < ticks then ProducerDone else ConsumerSet
    {
      acquired := due + delay < ticks + patience;
      Pass(if acquired then due + delay + 1 - ticks else patience);
    }

    /**
     Idle means that the producer comes after all its operations, and then the call has left nothing
     behind; otherwise the status is that of the outcome. A producer that comes while the call sleeps,
     or before its last exchange, finds it registered.
     */
    method WaitFor(call: nat, patience: nat) returns (status: Status)
      requires Valid() && Usable()
      modifies this
      ensures Valid() && Usable()
      ensures status == if due >= old(ticks) + patience + 3 then StatusIdle
                        else if planned.Value? then StatusValue else StatusException
      ensures pc == if due < old(ticks) + patience + 3 then ProducerDone else Idle
      ensures found == if due < old(ticks) then old(found)
                       else if due < old(ticks) + 2 then Some(Idle)
                       else if due < old(ticks) + patience + 3 then Some(ConsumerSet) else None
      ensures context == if due <= old(ticks) then old(context)
                         else if due < old(ticks) + patience + 3 then WaitForSemaphore(call) else NoContext
      ensures due >= old(ticks) + patience + 3 ==> ticks == old(ticks) + patience + 3
    {
      var state := Load();
      if state.ProducerDone? {
        return StatusOf(outcome);
      }
      assert context.NoContext?;
      context := WaitForSemaphore(call);
      var idle0 := CompareExchange(Idle, ConsumerSet);
      if !idle0 {
        assert pc.ProducerDone?;
        return StatusOf(outcome);
      }
      var acquired := TryAcquireFor(patience);
      if acquired {
        assert pc.ProducerDone?;
        return StatusOf(outcome);
      }
      var idle1 := CompareExchange(ConsumerSet, Idle);
      if !idle1 {
        assert pc.ProducerDone?;
        return StatusOf(outcome);
      }
      context := NoContext;
      return StatusIdle;
    }

    /**
     A registration that the producer has not found by the second operation is taken back; then the
     result can be used again. One that it has found is left to it.
     */
    method TryRewindConsumer()
      requires Valid() && (pc.ConsumerSet? || Usable())
      modifies this
      ensures Valid() && Usable()
      ensures ticks == old(ticks) + if old(pc).ConsumerSet? && old(ticks) < due then 2 else 1
      ensures found == if old(found).None? && due < ticks then Some(old(pc)) else old(found)
      ensures pc == if due < ticks then ProducerDone else Idle
      ensures context == if old(pc).ConsumerSet? && ticks <= due then NoContext else old(context)
    {
      var state := Load();
      if !state.ConsumerSet? {
        return;
      }
      var consumer := CompareExchange(ConsumerSet, Idle);
      if !consumer {
        assert pc.ProducerDone?;
        return;
      }
      context := NoContext;
    }

    /** Deletes exactly when the producer is first; otherwise the producer will find consumer_done. */
    method CompleteConsumer() returns (deleted: bool)
      requires Valid() && Usable()
      modifies `pc, `outcome, `ticks, `found
      ensures Valid() && deleted == (due < old(ticks) + 2)
      ensures ticks == old(ticks) + if due <= old(ticks) then 1 else 2
      ensures pc == if due <= old(ticks) then ProducerDone else ConsumerDone
      ensures found == if due < old(ticks) then old(found) else if deleted then Some(Idle) else None
    {
      var state := Load();
      if state.ProducerDone? {
        return true;
      }
      Pass(1);
      var before := pc;
      pc := ConsumerDone;
      assert !before.ConsumerSet?;
      if before.ProducerDone? {
        return true;
      }
      assert before.Idle?;
      return false;
    }
  }
}
