/**
 `when_any`: one coroutine registers the same context with every input result, suspends, and is
 continued by whichever input completes first; afterwards it takes its registrations back. The
 inputs complete concurrently, and the coroutine may go through any number of rounds over the
 same inputs. Every atomic operation and every access to a consumer context is one step.
 */
module WhenAny {
  import opened Prelude
  import opened ResultWord

  /** `when_any_context::m_status`; `Completed` points to the input that finished first. */
  datatype Status = Processing | DoneProcessing | Completed(input: nat)

  /** The producer of one input. It only has work to do if it found `consumer_set`. */
  datatype Producer =
    | Running                              // has not exchanged the state yet
    | Reading                              // found consumer_set, about to read the context
    | TryLoad(round: nat, loads: nat)      // top of the loop of try_resume, after so many loads
    | CasDone(round: nat, loads: nat)      // loaded k_done_processing
    | CasProcessing(round: nat, loads: nat)
    | Resuming(round: nat)                 // won, about to resume the coroutine
    | Through

  /** One input: its state word, its consumer context (the round it is registered for), its producer. */
  datatype Input = Input(pc: Pc, context: Option<nat>, producer: Producer)

  /** Where the coroutine is. The second line is await_suspend, the third await_resume. */
  datatype Stage =
    | Outside | Suspended
    | Check | Load | SetContext | CasSet | Inline | InlineCas
    | Resume | RewindLoad | RewindCas | RewindClear

  datatype Continuation = Inlined | ByProducer(input: nat)

  /** One call of when_any: its context and what has happened to it. */
  datatype Round = Round(
    status: Status,
    viaDone: bool,                         // finish_processing got its way
    continued: seq<Continuation>,          // every continuation of the coroutine
    missed: set<nat>,                      // inputs whose registration CAS failed
    index: Option<nat>)                    // the index await_resume has found

  datatype State = State(
    inputs: seq<Input>,
    rounds: seq<Round>,                    // the last one is the current one
    stage: Stage,
    i: nat,                                // the loop variable of the stage
    fault: bool)

  datatype Action = Call | Consume | Produce(j: nat)

  const FRESH_ROUND := Round(Processing, false, [], {}, None)

  ghost predicate Init(s: State) {
    && |s.inputs| > 0 && s.rounds == [] && s.stage.Outside? && !s.fault
    && forall j | 0 <= j < |s.inputs| :: s.inputs[j] == Input(Idle, None, Running)
  }

  predicate AtInput(c: Stage) {
    c.Load? || c.SetContext? || c.CasSet? || c.Inline? || c.InlineCas? || c.RewindCas? || c.RewindClear?
  }

  /** The loop variable and the round numbers stay in range; every reachable state is shaped. */
  predicate ConsumerShaped(s: State) {
    && (!s.stage.Outside? ==> s.rounds != [])
    && (s.stage.Check? || s.stage.RewindLoad? ==> s.i <= |s.inputs|)
    && (AtInput(s.stage) ==> s.i < |s.inputs|)
  }

  predicate InputShaped(s: State, x: Input) {
    && (x.producer.TryLoad? || x.producer.CasDone? || x.producer.CasProcessing? || x.producer.Resuming? ==>
          x.producer.round < |s.rounds|)
    && (x.context.Some? ==> x.context.value < |s.rounds|)
  }

  predicate Enabled(s: State, a: Action) {
    match a
    case Call => s.stage.Outside?
    case Consume => ConsumerShaped(s) && !s.stage.Outside? && !s.stage.Suspended?
    case Produce(j) => j < |s.inputs| && InputShaped(s, s.inputs[j]) && !s.inputs[j].producer.Through?
  }

  function Current(s: State): Round
    requires s.rounds != []
  {
    s.rounds[|s.rounds| - 1]
  }

  function SetCurrent(s: State, r: Round): State
    requires s.rounds != []
  {
    s.(rounds := s.rounds[|s.rounds| - 1 := r])
  }

  function SetInput(s: State, j: nat, x: Input): State
    requires j < |s.inputs|
  {
    s.(inputs := s.inputs[j := x])
  }

  /** await_suspend returns false: the coroutine goes on in the same thread. */
  function ContinueInline(s: State): State
    requires s.rounds != []
  {
    var r := Current(s);
    SetCurrent(s, r.(continued := r.continued + [Inlined])).(stage := Resume)
  }

  /** try_rewind_consumer has returned; compare the input with the completed one. */
  function NextRewind(s: State, i: nat): State
    requires s.rounds != []
  {
    var r := Current(s);
    SetCurrent(s, if r.status == Completed(i) then r.(index := Some(i)) else r).(stage := RewindLoad, i := i + 1)
  }

  /** The loop of await_suspend up to the choice what to do about input `i`, and finish_processing. */
  function CheckStep(s: State): State
    requires ConsumerShaped(s) && (s.stage.Check? || s.stage.Load?)
  {
    var i := s.i;
    if s.stage.Load? then
      s.(stage := if s.inputs[i].pc.ProducerDone? then Inline else SetContext)
    else
      var r := Current(s);
      var t := s.(fault := s.fault || r.status.DoneProcessing?);
      if !r.status.Processing? then ContinueInline(t)
      else if i < |s.inputs| then t.(stage := Load)
      else SetCurrent(t, r.(status := DoneProcessing, viaDone := true)).(stage := Suspended)
  }

  /** result_state_base::when_any: write the context, then exchange the state. */
  function SetContextStep(s: State): State
    requires ConsumerShaped(s) && s.stage.SetContext?
  {
    var x := s.inputs[s.i];
    SetInput(s, s.i, x.(context := Some(|s.rounds| - 1))).(stage := CasSet, fault := s.fault || x.context.Some?)
  }

  /** It returns the state loaded before, even if the exchange fails. */
  function CasSetStep(s: State): State
    requires ConsumerShaped(s) && s.stage.CasSet?
  {
    var x := s.inputs[s.i];
    if x.pc.Idle? then
      SetInput(s, s.i, x.(pc := ConsumerSet)).(stage := Check, i := s.i + 1)
    else
      SetCurrent(s, Current(s).(missed := Current(s).missed + {s.i}))
        .(stage := Check, i := s.i + 1, fault := s.fault || !x.pc.ProducerDone?)
  }

  /** resume_inline: the second of its two atomic operations ignores whether it succeeds. */
  function InlineStep(s: State): State
    requires ConsumerShaped(s) && (s.stage.Inline? || s.stage.InlineCas?)
  {
    var i := s.i;
    var r := Current(s);
    if s.stage.Inline? then
      var t := s.(fault := s.fault || r.status.DoneProcessing?);
      if r.status.Processing? then t.(stage := InlineCas) else ContinueInline(t)
    else
      ContinueInline(if r.status.Processing? then SetCurrent(s, r.(status := Completed(i))) else s)
  }

  /** await_resume outside of the exchanges of try_rewind_consumer. */
  function ScanStep(s: State): State
    requires ConsumerShaped(s) && (s.stage.Resume? || s.stage.RewindLoad?)
  {
    if s.stage.Resume? then
      SetCurrent(s, Current(s).(index := None)).(stage := RewindLoad, i := 0)
    else
      var i := s.i;
      if i == |s.inputs| then s.(stage := Outside, fault := s.fault || Current(s).index.None?)
      else if s.inputs[i].pc.ConsumerSet? then s.(stage := RewindCas)
      else NextRewind(s, i)
  }

  function RewindCasStep(s: State): State
    requires ConsumerShaped(s) && s.stage.RewindCas?
  {
    var x := s.inputs[s.i];
    if x.pc.ConsumerSet? then SetInput(s, s.i, x.(pc := Idle)).(stage := RewindClear)
    else NextRewind(s.(fault := s.fault || !x.pc.ProducerDone?), s.i)
  }

  function RewindClearStep(s: State): State
    requires ConsumerShaped(s) && s.stage.RewindClear?
  {
    NextRewind(SetInput(s, s.i, s.inputs[s.i].(context := None)), s.i)
  }

  function ConsumerStep(s: State): State
    requires Enabled(s, Consume)
  {
    if s.stage.Check? || s.stage.Load? then CheckStep(s)
    else if s.stage.SetContext? then SetContextStep(s)
    else if s.stage.CasSet? then CasSetStep(s)
    else if s.stage.Inline? || s.stage.InlineCas? then InlineStep(s)
    else if s.stage.Resume? || s.stage.RewindLoad? then ScanStep(s)
    else if s.stage.RewindCas? then RewindCasStep(s)
    else RewindClearStep(s)
  }

  /** complete_producer: publish, and read the context if the consumer is set. */
  function PublishStep(s: State, j: nat): State
    requires j < |s.inputs| && (s.inputs[j].producer.Running? || s.inputs[j].producer.Reading?)
  {
    var x := s.inputs[j];
    if x.producer.Reading? then
      SetInput(s, j, x.(producer := if x.context.None? then Through else TryLoad(x.context.value, 0)))
    else
      SetInput(s, j, x.(pc := ProducerDone, producer := if x.pc.ConsumerSet? then Reading else Through))
        .(fault := s.fault || !(x.pc.ConsumerSet? || x.pc.Idle?))
  }

  /** The load of try_resume. */
  function TryStep(s: State, j: nat): State
    requires j < |s.inputs| && InputShaped(s, s.inputs[j]) && s.inputs[j].producer.TryLoad?
  {
    var x := s.inputs[j];
    var k, l := x.producer.round, x.producer.loads;
    SetInput(s, j, x.(producer := match s.rounds[k].status
                                  case Completed(_) => Through
                                  case DoneProcessing => CasDone(k, l + 1)
                                  case Processing => CasProcessing(k, l + 1)))
  }

  /** The context of round `k` now points to input `j`. */
  function Win(s: State, k: nat, j: nat): State
    requires k < |s.rounds|
  {
    s.(rounds := s.rounds[k := s.rounds[k].(status := Completed(j))])
  }

  /** The exchanges of try_resume: whoever replaces k_done_processing has to resume the coroutine. */
  function CasDoneStep(s: State, j: nat): State
    requires j < |s.inputs| && InputShaped(s, s.inputs[j]) && s.inputs[j].producer.CasDone?
  {
    var x := s.inputs[j];
    var k := x.producer.round;
    if s.rounds[k].status.DoneProcessing? then SetInput(Win(s, k, j), j, x.(producer := Resuming(k)))
    else SetInput(s, j, x.(producer := Through))
  }

  function CasProcessingStep(s: State, j: nat): State
    requires j < |s.inputs| && InputShaped(s, s.inputs[j]) && s.inputs[j].producer.CasProcessing?
  {
    var x := s.inputs[j];
    var k := x.producer.round;
    if s.rounds[k].status.Processing? then SetInput(Win(s, k, j), j, x.(producer := Through))
    else SetInput(s, j, x.(producer := TryLoad(k, x.producer.loads)))
  }

  /** The call of the coroutine handle. */
  function WakeStep(s: State, j: nat): State
    requires j < |s.inputs| && InputShaped(s, s.inputs[j]) && s.inputs[j].producer.Resuming?
  {
    var k := s.inputs[j].producer.round;
    var r := s.rounds[k];
    var t := SetInput(s, j, s.inputs[j].(producer := Through))
               .(rounds := s.rounds[k := r.(continued := r.continued + [ByProducer(j)])]);
    if s.stage.Suspended? && k == |s.rounds| - 1 then t.(stage := Resume) else t.(fault := true)
  }

  function ProducerStep(s: State, j: nat): State
    requires Enabled(s, Produce(j))
  {
    var p := s.inputs[j].producer;
    if p.Running? || p.Reading? then PublishStep(s, j)
    else if p.TryLoad? then TryStep(s, j)
    else if p.Resuming? then WakeStep(s, j)
    else if p.CasDone? then CasDoneStep(s, j)
    else CasProcessingStep(s, j)
  }

  function Next(s: State, a: Action): State
    requires Enabled(s, a)
  {
    match a
    case Call => s.(rounds := s.rounds + [FRESH_ROUND], stage := Check, i := 0)
    case Consume => ConsumerStep(s)
    case Produce(j) => ProducerStep(s, j)
  }

  ghost predicate Executes(s: State, trace: seq<Action>, t: State)
    decreases |trace|
  {
    if trace == [] then s == t
    else Enabled(s, trace[0]) && Executes(Next(s, trace[0]), trace[1..], t)
  }

  ghost predicate Reachable(t: State) {
    exists s, trace :: Init(s) && Executes(s, trace, t)
  }

  // ---------------------------------------------------------------- the invariant

  /** The producer of input `j` will still look at the context of round `k`. */
  predicate WorksFor(x: Input, k: nat) {
    match x.producer
    case Running => x.pc.ConsumerSet?
    case Reading => x.context == Some(k)
    case TryLoad(r, _) => r == k
    case CasDone(r, _) => r == k
    case CasProcessing(r, _) => r == k
    case Resuming(r) => r == k
    case Through => false
  }

  /** The coroutine has written the context of `j` but not yet published or cleared it. */
  predicate Writing(s: State, j: nat) { (s.stage.CasSet? || s.stage.RewindClear?) && s.i == j }

  /** Inputs from this one on are not registered; and inputs before `RewoundTo` no longer are. */
  function RegisteredTo(s: State): nat { if InAwaitSuspend(s.stage) then s.i else |s.inputs| }

  function RewoundTo(s: State): nat {
    if s.stage.Outside? then |s.inputs|
    else if s.stage.RewindLoad? || s.stage.RewindCas? then s.i
    else if s.stage.RewindClear? then s.i + 1
    else 0
  }

  predicate InputOk(s: State, j: nat)
    requires j < |s.inputs|
  {
    var x := s.inputs[j];
    && InputShaped(s, x)
    && (x.producer.Running? <==> !x.pc.ProducerDone?)
    && (x.producer.Running? ==> x.pc.Idle? || x.pc.ConsumerSet?)
    && (x.pc.ConsumerSet? ==>
          s.rounds != [] && x.context == Some(|s.rounds| - 1) && RewoundTo(s) <= j < RegisteredTo(s))
    && (x.pc.Idle? && !Writing(s, j) ==> x.context.None?)
    && ((s.stage.SetContext? && s.i == j) ==> x.context.None? && (x.producer.Running? || x.producer.Through?))
    && (Writing(s, j) ==> x.context == Some(|s.rounds| - 1) && (x.producer.Running? || x.producer.Through?))
    && ((s.stage.Inline? && s.i == j) || (s.stage.InlineCas? && s.i == j) ==> x.pc.ProducerDone?)
    && ((s.stage.RewindCas? && s.i == j) ==> !x.pc.Idle?)
    && (x.producer.Reading? ==> x.context.Some?)
    && ProducerOk(s, x.producer, j)
  }

  /** What a producer inside try_resume knows about the round it works for. */
  predicate ProducerOk(s: State, p: Producer, j: nat)
    requires p.TryLoad? || p.CasDone? || p.CasProcessing? || p.Resuming? ==> p.round < |s.rounds|
  {
    && (p.TryLoad? ==> (p.loads == 0 || (p.loads == 1 && !s.rounds[p.round].status.Processing?)))
    && (p.CasDone? ==> p.loads <= 2 && !s.rounds[p.round].status.Processing?)
    && (p.CasProcessing? ==> p.loads == 1)
    && (p.Resuming? ==> p.round == |s.rounds| - 1 && s.rounds[p.round].status == Completed(j) && s.stage.Suspended?)
  }

  /** A finished round: continued once, by the right side, and the index is that of a completed input. */
  predicate Served(s: State, r: Round) {
    && r.status.Completed? && r.status.input < |s.inputs|
    && r.continued == if r.viaDone then [ByProducer(r.status.input)] else [Inlined]
  }

  predicate InAwaitSuspend(c: Stage) {
    c.Check? || c.Load? || c.SetContext? || c.CasSet? || c.Inline? || c.InlineCas?
  }

  predicate CurrentOk(s: State)
    requires s.rounds != []
  {
    var r := Current(s);
    && (InAwaitSuspend(s.stage) ==> !r.status.DoneProcessing? && !r.viaDone && r.continued == [])
    && (s.stage.Suspended? ==>
          && r.viaDone && r.continued == [] && !r.status.Processing?
          && (r.status.Completed? ==>
                r.status.input < |s.inputs| && s.inputs[r.status.input].producer == Resuming(|s.rounds| - 1)))
    && (!InAwaitSuspend(s.stage) && !s.stage.Suspended? ==> Served(s, r))
    && (s.stage.RewindLoad? || s.stage.RewindCas? || s.stage.RewindClear? ==> IndexOk(r, s.i))
    && (s.stage.Outside? ==> r.status.Completed? && r.index == Some(r.status.input))
  }

  predicate IndexOk(r: Round, i: nat) {
    r.status.Completed? && r.index == if r.status.input < i then Some(r.status.input) else None
  }

  predicate RoundOk(s: State, k: nat)
    requires k < |s.rounds|
  {
    && (s.rounds[k].status.Completed? ==>
          s.rounds[k].status.input < |s.inputs| && s.inputs[s.rounds[k].status.input].pc.ProducerDone?)
    && (k < |s.rounds| - 1 ==>
          Served(s, s.rounds[k]) && s.rounds[k].index == Some(s.rounds[k].status.input))
  }

  /** No registration is lost, except where its exchange failed. */
  predicate CoverOk(s: State, j: nat)
    requires j < |s.inputs| && s.rounds != []
  {
    var r := Current(s);
    && (j in r.missed ==> s.inputs[j].producer.Through? && r.status != Completed(j) && j < RegisteredTo(s))
    && (WorksFor(s.inputs[j], |s.rounds| - 1) ==> j < RegisteredTo(s))
    && (InAwaitSuspend(s.stage) && r.status == Completed(j) ==> j < RegisteredTo(s))
    && (j < RegisteredTo(s) ==> j in r.missed || r.status.Completed? || WorksFor(s.inputs[j], |s.rounds| - 1))
  }

  ghost predicate Inv(s: State) {
    && !s.fault && |s.inputs| > 0 && ConsumerShaped(s)
    && (forall j | 0 <= j < |s.inputs| :: InputOk(s, j))
    && (forall k | 0 <= k < |s.rounds| :: RoundOk(s, k))
    && (s.rounds != [] ==> CurrentOk(s) && forall j | 0 <= j < |s.inputs| :: CoverOk(s, j))
  }

  /** Leaving await_suspend without suspending, once the context points to some input. */
  lemma ContinueInlineKeepsInv(s: State)
    requires Inv(s) && InAwaitSuspend(s.stage) && !s.stage.CasSet? && Current(s).status.Completed?
    ensures Inv(ContinueInline(s))
  {
    assert RoundOk(s, |s.rounds| - 1);
    var t := ContinueInline(s);
    forall i | 0 <= i < |s.inputs| ensures InputOk(t, i) && CoverOk(t, i) { assert InputOk(s, i) && CoverOk(s, i); }
    forall k | 0 <= k < |s.rounds| ensures RoundOk(t, k) { assert RoundOk(s, k); }
  }

  lemma NextRewindKeepsInv(s: State)
    requires Inv(s) && (s.stage.RewindLoad? || s.stage.RewindCas?) && s.i < |s.inputs|
    requires !s.inputs[s.i].pc.ConsumerSet?
    ensures Inv(NextRewind(s, s.i))
  {
    var t := NextRewind(s, s.i);
    forall i | 0 <= i < |s.inputs| ensures InputOk(t, i) && CoverOk(t, i) { assert InputOk(s, i) && CoverOk(s, i); }
    forall k | 0 <= k < |s.rounds| ensures RoundOk(t, k) { assert RoundOk(s, k); }
  }

  lemma CheckKeepsInv(s: State)
    requires Inv(s) && (s.stage.Check? || s.stage.Load?)
    ensures Inv(CheckStep(s))
  {
    if s.stage.Check? && !Current(s).status.Processing? {
      ContinueInlineKeepsInv(s);
    } else {
      var t := CheckStep(s);
      forall i | 0 <= i < |s.inputs| ensures InputOk(t, i) && CoverOk(t, i) { assert InputOk(s, i) && CoverOk(s, i); }
      forall k | 0 <= k < |s.rounds| ensures RoundOk(t, k) { assert RoundOk(s, k); }
    }
  }

  lemma SetContextKeepsInv(s: State)
    requires Inv(s) && s.stage.SetContext?
    ensures Inv(SetContextStep(s))
  {
    assert InputOk(s, s.i);
    var t := SetContextStep(s);
    forall i | 0 <= i < |s.inputs| ensures InputOk(t, i) && CoverOk(t, i) { assert InputOk(s, i) && CoverOk(s, i); }
    forall k | 0 <= k < |s.rounds| ensures RoundOk(t, k) { assert RoundOk(s, k); }
  }

  lemma CasSetKeepsOther(s: State, i: nat)
    requires Inv(s) && s.stage.CasSet? && i < |s.inputs| && i != s.i
    ensures InputOk(CasSetStep(s), i) && CoverOk(CasSetStep(s), i)
  {
    assert InputOk(s, i) && CoverOk(s, i);
  }

  lemma CasSetKeepsThis(s: State)
    requires Inv(s) && s.stage.CasSet?
    ensures s.i < |s.inputs| && InputOk(CasSetStep(s), s.i) && CoverOk(CasSetStep(s), s.i)
  {
    assert InputOk(s, s.i) && CoverOk(s, s.i);
  }

  lemma CasSetKeepsRound(s: State, k: nat)
    requires Inv(s) && s.stage.CasSet? && k < |s.rounds|
    ensures RoundOk(CasSetStep(s), k)
  {
    assert RoundOk(s, k) && InputOk(s, s.i);
  }

  lemma CasSetKeepsInv(s: State)
    requires Inv(s) && s.stage.CasSet?
    ensures Inv(CasSetStep(s))
  {
    assert InputOk(s, s.i) && CoverOk(s, s.i);
    var t := CasSetStep(s);
    forall i | 0 <= i < |s.inputs| ensures InputOk(t, i) && CoverOk(t, i) {
      if i == s.i { CasSetKeepsThis(s); } else { CasSetKeepsOther(s, i); }
    }
    forall k | 0 <= k < |s.rounds| ensures RoundOk(t, k) { CasSetKeepsRound(s, k); }
  }

  lemma InlineKeepsInv(s: State)
    requires Inv(s) && (s.stage.Inline? || s.stage.InlineCas?)
    ensures Inv(InlineStep(s))
  {
    assert InputOk(s, s.i);
    if Current(s).status.Completed? {
      ContinueInlineKeepsInv(s);
    } else {
      var t := InlineStep(s);
      forall i | 0 <= i < |s.inputs| ensures InputOk(t, i) && CoverOk(t, i) { assert InputOk(s, i) && CoverOk(s, i); }
      forall k | 0 <= k < |s.rounds| ensures RoundOk(t, k) { assert RoundOk(s, k); }
    }
  }

  lemma ScanKeepsInv(s: State)
    requires Inv(s) && (s.stage.Resume? || s.stage.RewindLoad?)
    ensures Inv(ScanStep(s))
  {
    if s.stage.RewindLoad? && s.i < |s.inputs| && !s.inputs[s.i].pc.ConsumerSet? {
      NextRewindKeepsInv(s);
    } else {
      var t := ScanStep(s);
      forall i | 0 <= i < |s.inputs| ensures InputOk(t, i) && CoverOk(t, i) { assert InputOk(s, i) && CoverOk(s, i); }
      forall k | 0 <= k < |s.rounds| ensures RoundOk(t, k) { assert RoundOk(s, k); }
    }
  }

  lemma RewindCasKeepsInv(s: State)
    requires Inv(s) && s.stage.RewindCas?
    ensures Inv(RewindCasStep(s))
  {
    assert InputOk(s, s.i);
    if !s.inputs[s.i].pc.ConsumerSet? {
      NextRewindKeepsInv(s);
    } else {
      var t := RewindCasStep(s);
      forall i | 0 <= i < |s.inputs| ensures InputOk(t, i) && CoverOk(t, i) { assert InputOk(s, i) && CoverOk(s, i); }
      forall k | 0 <= k < |s.rounds| ensures RoundOk(t, k) { assert RoundOk(s, k); }
    }
  }

  lemma RewindClearKeepsInv(s: State)
    requires Inv(s) && s.stage.RewindClear?
    ensures Inv(RewindClearStep(s))
  {
    assert InputOk(s, s.i);
    var t := RewindClearStep(s);
    forall i | 0 <= i < |s.inputs| ensures InputOk(t, i) && CoverOk(t, i) { assert InputOk(s, i) && CoverOk(s, i); }
    forall k | 0 <= k < |s.rounds| ensures RoundOk(t, k) { assert RoundOk(s, k); }
  }

  lemma PublishKeepsInput(s: State, j: nat, i: nat)
    requires Inv(s) && j < |s.inputs| && i < |s.inputs|
    requires s.inputs[j].producer.Running? || s.inputs[j].producer.Reading?
    ensures InputOk(PublishStep(s, j), i) && (s.rounds != [] ==> CoverOk(PublishStep(s, j), i))
  {
    assert InputOk(s, j) && InputOk(s, i) && (s.rounds != [] ==> CoverOk(s, i));
  }

  lemma PublishKeepsRound(s: State, j: nat, k: nat)
    requires Inv(s) && j < |s.inputs| && k < |s.rounds|
    requires s.inputs[j].producer.Running? || s.inputs[j].producer.Reading?
    ensures RoundOk(PublishStep(s, j), k)
  {
    assert RoundOk(s, k) && InputOk(s, j);
  }

  lemma PublishKeepsInv(s: State, j: nat)
    requires Inv(s) && j < |s.inputs| && (s.inputs[j].producer.Running? || s.inputs[j].producer.Reading?)
    ensures Inv(PublishStep(s, j))
  {
    assert InputOk(s, j);
    var t := PublishStep(s, j);
    forall i | 0 <= i < |s.inputs| ensures InputOk(t, i) && (s.rounds != [] ==> CoverOk(t, i)) {
      PublishKeepsInput(s, j, i);
    }
    forall k | 0 <= k < |s.rounds| ensures RoundOk(t, k) { PublishKeepsRound(s, j, k); }
  }

  predicate InTryResume(p: Producer) { p.TryLoad? || p.CasDone? || p.CasProcessing? }

  lemma MoveOnKeepsRound(s: State, j: nat, p: Producer, k: nat)
    requires Inv(s) && j < |s.inputs| && InTryResume(s.inputs[j].producer) && k < |s.rounds|
    requires InTryResume(p) && p.round == s.inputs[j].producer.round
    ensures RoundOk(SetInput(s, j, s.inputs[j].(producer := p)), k)
  {
    assert RoundOk(s, k);
  }

  lemma MoveOnKeepsInput(s: State, j: nat, p: Producer, i: nat)
    requires Inv(s) && j < |s.inputs| && i < |s.inputs|
    requires InTryResume(s.inputs[j].producer) && InputShaped(s, s.inputs[j])
    requires InTryResume(p) && p.round == s.inputs[j].producer.round && ProducerOk(s, p, j)
    ensures var t := SetInput(s, j, s.inputs[j].(producer := p)); InputOk(t, i) && CoverOk(t, i)
  {
    assert InputOk(s, i) && CoverOk(s, i);
  }

  /** Going on inside try_resume with what the load has shown. */
  lemma MoveOnKeepsInv(s: State, j: nat, p: Producer)
    requires Inv(s) && j < |s.inputs| && InTryResume(s.inputs[j].producer) && InputShaped(s, s.inputs[j])
    requires InTryResume(p) && p.round == s.inputs[j].producer.round && ProducerOk(s, p, j)
    ensures Inv(SetInput(s, j, s.inputs[j].(producer := p)))
  {
    var t := SetInput(s, j, s.inputs[j].(producer := p));
    forall i | 0 <= i < |s.inputs| ensures InputOk(t, i) && CoverOk(t, i) { MoveOnKeepsInput(s, j, p, i); }
    forall k | 0 <= k < |s.rounds| ensures RoundOk(t, k) { MoveOnKeepsRound(s, j, p, k); }
  }

  /** Bailing out of try_resume, because another input was first. */
  lemma BailKeepsInv(s: State, j: nat)
    requires Inv(s) && j < |s.inputs| && InTryResume(s.inputs[j].producer) && InputShaped(s, s.inputs[j])
    requires s.rounds[s.inputs[j].producer.round].status.Completed?
    ensures Inv(SetInput(s, j, s.inputs[j].(producer := Through)))
  {
    var t := SetInput(s, j, s.inputs[j].(producer := Through));
    forall i | 0 <= i < |s.inputs| ensures InputOk(t, i) && CoverOk(t, i) { assert InputOk(s, i) && CoverOk(s, i); }
    forall k | 0 <= k < |s.rounds| ensures RoundOk(t, k) { assert RoundOk(s, k); }
  }

  lemma TryKeepsInv(s: State, j: nat)
    requires Inv(s) && j < |s.inputs| && s.inputs[j].producer.TryLoad?
    ensures InputShaped(s, s.inputs[j]) && Inv(TryStep(s, j))
  {
    assert InputOk(s, j);
    var p := TryStep(s, j).inputs[j].producer;
    if p.Through? { BailKeepsInv(s, j); } else { MoveOnKeepsInv(s, j, p); }
  }

  /** k_processing -> j: the coroutine is still registering and will find out itself. */
  lemma WinEarlyKeepsInv(s: State, j: nat)
    requires Inv(s) && j < |s.inputs| && s.inputs[j].producer.CasProcessing? && InputShaped(s, s.inputs[j])
    requires s.rounds[s.inputs[j].producer.round].status.Processing?
    ensures Inv(Win(s, s.inputs[j].producer.round, j))
  {
    assert InputOk(s, j) && CoverOk(s, j) && RoundOk(s, s.inputs[j].producer.round);
    var t := Win(s, s.inputs[j].producer.round, j);
    forall i | 0 <= i < |s.inputs| ensures InputOk(t, i) && CoverOk(t, i) { assert InputOk(s, i) && CoverOk(s, i); }
    forall k | 0 <= k < |s.rounds| ensures RoundOk(t, k) { assert RoundOk(s, k); }
  }

  lemma CasProcessingKeepsInv(s: State, j: nat)
    requires Inv(s) && j < |s.inputs| && s.inputs[j].producer.CasProcessing?
    ensures InputShaped(s, s.inputs[j]) && Inv(CasProcessingStep(s, j))
  {
    assert InputOk(s, j);
    var p := s.inputs[j].producer;
    if s.rounds[p.round].status.Processing? {
      WinEarlyKeepsInv(s, j);
      BailKeepsInv(Win(s, p.round, j), j);
    } else {
      MoveOnKeepsInv(s, j, TryLoad(p.round, p.loads));
    }
  }

  lemma CasDoneKeepsInv(s: State, j: nat)
    requires Inv(s) && j < |s.inputs| && s.inputs[j].producer.CasDone?
    ensures InputShaped(s, s.inputs[j]) && Inv(CasDoneStep(s, j))
  {
    assert InputOk(s, j) && CoverOk(s, j) && RoundOk(s, s.inputs[j].producer.round);
    if s.rounds[s.inputs[j].producer.round].status.Completed? {
      BailKeepsInv(s, j);
    } else {
      var t := CasDoneStep(s, j);
      forall i | 0 <= i < |s.inputs| ensures InputOk(t, i) && CoverOk(t, i) { assert InputOk(s, i) && CoverOk(s, i); }
      forall k | 0 <= k < |s.rounds| ensures RoundOk(t, k) { assert RoundOk(s, k); }
    }
  }

  lemma WakeKeepsInv(s: State, j: nat)
    requires Inv(s) && j < |s.inputs| && s.inputs[j].producer.Resuming?
    ensures InputShaped(s, s.inputs[j]) && Inv(WakeStep(s, j))
  {
    assert InputOk(s, j);
    var t := WakeStep(s, j);
    forall i | 0 <= i < |s.inputs| ensures InputOk(t, i) && CoverOk(t, i) { assert InputOk(s, i) && CoverOk(s, i); }
    forall k | 0 <= k < |s.rounds| ensures RoundOk(t, k) { assert RoundOk(s, k); }
  }

  lemma CallKeepsInv(s: State)
    requires Inv(s) && Enabled(s, Call)
    ensures Inv(Next(s, Call))
  {
    var t := Next(s, Call);
    forall j | 0 <= j < |s.inputs| ensures InputOk(t, j) && CoverOk(t, j) {
      assert InputOk(s, j);
    }
    forall k | 0 <= k < |t.rounds| ensures RoundOk(t, k) { assert k < |s.rounds| ==> RoundOk(s, k); }
  }

  lemma StepKeepsInv(s: State, a: Action)
    requires Inv(s) && Enabled(s, a)
    ensures Inv(Next(s, a))
  {
    match a
    case Call => CallKeepsInv(s);
    case Consume =>
      if s.stage.Check? || s.stage.Load? { CheckKeepsInv(s); }
      else if s.stage.SetContext? { SetContextKeepsInv(s); }
      else if s.stage.CasSet? { CasSetKeepsInv(s); }
      else if s.stage.Inline? || s.stage.InlineCas? { InlineKeepsInv(s); }
      else if s.stage.Resume? || s.stage.RewindLoad? { ScanKeepsInv(s); }
      else if s.stage.RewindCas? { RewindCasKeepsInv(s); }
      else { RewindClearKeepsInv(s); }
    case Produce(j) =>
      var p := s.inputs[j].producer;
      if p.Running? || p.Reading? { PublishKeepsInv(s, j); }
      else if p.TryLoad? { TryKeepsInv(s, j); }
      else if p.Resuming? { WakeKeepsInv(s, j); }
      else if p.CasDone? { CasDoneKeepsInv(s, j); }
      else { CasProcessingKeepsInv(s, j); }
  }

  lemma {:induction false} RunKeepsInv(s: State, trace: seq<Action>, t: State)
    requires Inv(s) && Executes(s, trace, t)
    ensures Inv(t)
    decreases |trace|
  {
    if trace != [] {
      StepKeepsInv(s, trace[0]);
      RunKeepsInv(Next(s, trace[0]), trace[1..], t);
    }
  }

  lemma ReachableInv(t: State)
    requires Reachable(t)
    ensures Inv(t)
  {
    var s, trace :| Init(s) && Executes(s, trace, t);
    RunKeepsInv(s, trace, t);
  }

  // ---------------------------------------------------------------- what every run guarantees

  /** The coroutine is past the point of suspension in round `k`. */
  predicate Continued(t: State, k: nat) {
    k < |t.rounds| - 1 || (k == |t.rounds| - 1 && !InAwaitSuspend(t.stage) && !t.stage.Suspended?)
  }

  /**
   In every round the coroutine is continued exactly once: in the thread that called when_any if
   the context went from k_processing straight to an input, by that input's producer if it went
   through k_done_processing. Then the context points to an input that has completed.
   */
  lemma ContinuedExactlyOnce(t: State, k: nat)
    requires Reachable(t) && k < |t.rounds|
    ensures !t.fault
    ensures !Continued(t, k) ==> t.rounds[k].continued == []
    ensures Continued(t, k) ==>
              var r := t.rounds[k];
              && r.status.Completed? && r.status.input < |t.inputs| && t.inputs[r.status.input].pc.ProducerDone?
              && r.continued == if r.viaDone then [ByProducer(r.status.input)] else [Inlined]
  {
    ReachableInv(t);
    assert RoundOk(t, k);
  }

  /** When await_resume has returned, the index it found is that of the completed input. */
  lemma ReturnsCompletedIndex(t: State, k: nat)
    requires Reachable(t) && k < |t.rounds| && (k < |t.rounds| - 1 || t.stage.Outside?)
    ensures t.rounds[k].index.Some? && t.rounds[k].index.value < |t.inputs|
    ensures t.rounds[k].status == Completed(t.rounds[k].index.value)
    ensures t.inputs[t.rounds[k].index.value].pc.ProducerDone?
  {
    ReachableInv(t);
    assert RoundOk(t, k);
  }

  /** Between two rounds every input has completed or is as if it had never been registered. */
  lemma InputsAreReusable(t: State, j: nat)
    requires Reachable(t) && t.stage.Outside? && j < |t.inputs|
    ensures t.inputs[j].pc.ProducerDone? || (t.inputs[j].pc.Idle? && t.inputs[j].context.None?)
  {
    ReachableInv(t);
    assert InputOk(t, j);
  }

  /** The coroutine never writes a context that the producer of the input may be reading. */
  lemma ContextIsNotRaced(t: State)
    requires Reachable(t) && (t.stage.SetContext? || t.stage.RewindClear?)
    ensures t.i < |t.inputs| && !t.inputs[t.i].producer.Reading?
  {
    ReachableInv(t);
    assert InputOk(t, t.i);
  }

  /** try_resume goes round its loop at most twice. */
  lemma TryResumeIsBounded(t: State, j: nat)
    requires Reachable(t) && j < |t.inputs|
    ensures var p := t.inputs[j].producer; p.TryLoad? || p.CasDone? || p.CasProcessing? ==> p.loads <= 2
  {
    ReachableInv(t);
    assert InputOk(t, j);
  }

  /** A suspended coroutine with a completed input is being resumed, unless that input's registration failed. */
  lemma CompletionWakes(t: State, j: nat)
    requires Reachable(t) && t.stage.Suspended? && t.rounds != [] && j < |t.inputs|
    requires t.inputs[j].producer.Through? && j !in Current(t).missed
    ensures exists i | 0 <= i < |t.inputs| :: t.inputs[i].producer == Resuming(|t.rounds| - 1)
  {
    ReachableInv(t);
    assert CoverOk(t, j);
  }

  /**
   Exactly when the coroutine is never woken: in a run that cannot go on without a new call it is
   still suspended if and only if the registration exchange failed for every single input.
   */
  lemma StaysSuspendedIffAllMissed(t: State)
    requires Reachable(t) && t.rounds != []
    requires forall a | Enabled(t, a) :: a.Call?
    ensures t.stage.Suspended? || t.stage.Outside?
    ensures t.stage.Suspended? <==> forall j | 0 <= j < |t.inputs| :: j in Current(t).missed
  {
    ReachableInv(t);
    assert !Enabled(t, Consume);
    forall j | 0 <= j < |t.inputs| ensures t.inputs[j].producer.Through? {
      assert InputOk(t, j) && !Enabled(t, Produce(j));
    }
    if t.stage.Suspended? {
      forall j | 0 <= j < |t.inputs| ensures j in Current(t).missed {
        if j !in Current(t).missed { CompletionWakes(t, j); }
      }
    } else {
      var winner := Current(t).status.input;
      assert RoundOk(t, |t.rounds| - 1) && CoverOk(t, winner);
    }
  }

  /** Input j had completed when the round began, and the coroutine has not come past it. */
  predicate NotPassed(s: State, j: nat) {
    && j < |s.inputs| && s.inputs[j].pc.ProducerDone? && !s.stage.Suspended?
    && (InAwaitSuspend(s.stage) ==> s.i <= j)
    && !((s.stage.SetContext? || s.stage.CasSet?) && s.i == j)
  }

  lemma StepKeepsNotPassed(s: State, a: Action, j: nat)
    requires Inv(s) && Enabled(s, a) && !a.Call? && NotPassed(s, j)
    ensures NotPassed(Next(s, a), j)
  {
    assert InputOk(s, j);
  }

  lemma {:induction false} RunKeepsNotPassed(s: State, trace: seq<Action>, t: State, j: nat)
    requires Inv(s) && Executes(s, trace, t) && (forall a | a in trace :: !a.Call?) && NotPassed(s, j)
    ensures NotPassed(t, j)
    decreases |trace|
  {
    if trace != [] {
      StepKeepsInv(s, trace[0]);
      StepKeepsNotPassed(s, trace[0], j);
      RunKeepsNotPassed(Next(s, trace[0]), trace[1..], t, j);
    }
  }

  /** The wakeup is not lost on inputs that have completed before the call: with one of them it does not suspend. */
  lemma CompletedBeforeCallIsSeen(s: State, trace: seq<Action>, t: State, j: nat)
    requires Reachable(s) && s.stage.Outside? && j < |s.inputs| && s.inputs[j].pc.ProducerDone?
    requires Executes(Next(s, Call), trace, t) && forall a | a in trace :: !a.Call?
    ensures !t.stage.Suspended?
  {
    ReachableInv(s);
    StepKeepsInv(s, Call);
    RunKeepsNotPassed(Next(s, Call), trace, t, j);
  }

  lemma {:induction false} ExecutesAppend(s: State, trace: seq<Action>, t: State, a: Action)
    requires Executes(s, trace, t) && Enabled(t, a)
    ensures Executes(s, trace + [a], Next(t, a))
    decreases |trace|
  {
    if trace == [] {
      assert ([a])[1..] == [];
    } else {
      ExecutesAppend(Next(s, trace[0]), trace[1..], t, a);
      assert (trace + [a])[1..] == trace[1..] + [a];
    }
  }

  lemma ReachableStep(t: State, a: Action)
    requires Reachable(t) && Enabled(t, a)
    ensures Reachable(Next(t, a))
  {
    var s, trace :| Init(s) && Executes(s, trace, t);
    ExecutesAppend(s, trace, t, a);
  }

  /** The one input completes between the load and the exchange of its registration. */
  lemma CompletesDuringRegistration() returns (t: State)
    ensures Reachable(t)
    ensures t == State([Input(ProducerDone, None, Through)], [FRESH_ROUND], SetContext, 0, false)
  {
    t := State([Input(Idle, None, Running)], [], Outside, 0, false);
    assert Init(t) && Executes(t, [], t);
    ReachableStep(t, Call);
    t := Next(t, Call);
    ReachableStep(t, Consume);      // no input has finished
    t := Next(t, Consume);
    ReachableStep(t, Consume);      // the input is not producer_done
    t := Next(t, Consume);
    ReachableStep(t, Produce(0));   // now it is, and its producer found nobody to wake
    t := Next(t, Produce(0));
  }

  /** A run in which the coroutine is never woken. */
  lemma LostWakeup() returns (t: State)
    ensures Reachable(t) && |t.inputs| == 1 && t.inputs[0].pc.ProducerDone?
    ensures t.stage.Suspended? && forall a :: !Enabled(t, a)
  {
    t := CompletesDuringRegistration();
    ReachableStep(t, Consume);      // the context is written
    t := Next(t, Consume);
    ReachableStep(t, Consume);      // the exchange fails
    t := Next(t, Consume);
    ReachableStep(t, Consume);      // k_processing -> k_done_processing
    t := Next(t, Consume);
  }

  // ---------------------------------------------------------------- dropping the inputs

  /** Dropping input `j` now destroys its state, since the producer has published before. */
  predicate DropDeletes(s: State, j: nat)
    requires j < |s.inputs|
  {
    s.inputs[j].pc.ProducerDone?
  }

  /** The producer of input `j` has still to read from its state; try_resume only passes on the address. */
  predicate WillRead(s: State, j: nat)
    requires j < |s.inputs|
  {
    s.inputs[j].producer.Reading?
  }

  /** An input that the current round points to is only read for the sake of an earlier round. */
  predicate ChosenOk(s: State) {
    s.rounds != [] && Current(s).status.Completed? ==>
      var j := Current(s).status.input;
      j < |s.inputs| && WillRead(s, j) ==> !Current(s).viaDone && s.inputs[j].context != Some(|s.rounds| - 1)
  }

  lemma RegisterKeepsChosen(s: State)
    requires Inv(s) && ChosenOk(s) && Enabled(s, Consume) && InAwaitSuspend(s.stage)
    ensures ChosenOk(Next(s, Consume))
  {
    if s.stage.SetContext? || s.stage.InlineCas? { assert InputOk(s, s.i) && CoverOk(s, s.i); }
  }

  lemma RewindKeepsChosen(s: State)
    requires Inv(s) && ChosenOk(s) && Enabled(s, Consume) && !InAwaitSuspend(s.stage)
    ensures ChosenOk(Next(s, Consume))
  {
    if s.stage.RewindClear? { assert InputOk(s, s.i); }
  }

  lemma ProducerKeepsChosen(s: State, j: nat)
    requires Inv(s) && ChosenOk(s) && Enabled(s, Produce(j))
    ensures ChosenOk(Next(s, Produce(j)))
  {
    assert InputOk(s, j);
    if s.rounds != [] { assert RoundOk(s, |s.rounds| - 1); }
  }

  lemma {:induction false} RunKeepsChosen(s: State, trace: seq<Action>, t: State)
    requires Inv(s) && ChosenOk(s) && Executes(s, trace, t)
    ensures ChosenOk(t)
    decreases |trace|
  {
    if trace != [] {
      match trace[0] {
        case Call =>
        case Consume => if InAwaitSuspend(s.stage) { RegisterKeepsChosen(s); } else { RewindKeepsChosen(s); }
        case Produce(j) => ProducerKeepsChosen(s, j);
      }
      StepKeepsInv(s, trace[0]);
      RunKeepsChosen(Next(s, trace[0]), trace[1..], t);
    }
  }

  /**
   Which inputs can still be read when await_resume has returned: only ones that have completed, so
   that dropping them deletes the state at once. The input it has returned is among them only if it
   was registered in an earlier round and this round has found it complete on its way in; so never
   after the first round.
   */
  lemma ReadAfterReturn(t: State, j: nat)
    requires Reachable(t) && t.stage.Outside? && j < |t.inputs| && WillRead(t, j)
    ensures DropDeletes(t, j) && t.rounds != [] && t.inputs[j].context.Some?
    ensures Current(t).index == Some(j) ==>
              && t.inputs[j].context.value < |t.rounds| - 1
              && Current(t).continued == [Inlined]
  {
    ReachableInv(t);
    assert InputOk(t, j);
    var s, trace :| Init(s) && Executes(s, trace, t);
    RunKeepsChosen(s, trace, t);
    assert RoundOk(t, |t.rounds| - 1);
  }

  /** Two inputs: the second one has completed before the first is registered and completes, too. */
  lemma CompletesAfterRegistration() returns (t: State)
    ensures Reachable(t)
    ensures t == State([Input(ProducerDone, Some(0), Reading), Input(ProducerDone, None, Through)],
                       [FRESH_ROUND], Check, 1, false)
  {
    t := State([Input(Idle, None, Running), Input(Idle, None, Running)], [], Outside, 0, false);
    assert Init(t) && Executes(t, [], t);
    ReachableStep(t, Produce(1));
    t := Next(t, Produce(1));
    ReachableStep(t, Call);
    t := Next(t, Call);
    ReachableStep(t, Consume);      // no input has been chosen
    t := Next(t, Consume);
    ReachableStep(t, Consume);      // the first input is not producer_done
    t := Next(t, Consume);
    t := RegisterFirst(t);
  }

  lemma RegisterFirst(s: State) returns (t: State)
    requires Reachable(s)
    requires s == State([Input(Idle, None, Running), Input(ProducerDone, None, Through)],
                        [FRESH_ROUND], SetContext, 0, false)
    ensures Reachable(t)
    ensures t == State([Input(ProducerDone, Some(0), Reading), Input(ProducerDone, None, Through)],
                       [FRESH_ROUND], Check, 1, false)
  {
    t := s;
    ReachableStep(t, Consume);      // the context is written
    t := Next(t, Consume);
    ReachableStep(t, Consume);      // and published
    t := Next(t, Consume);
    ReachableStep(t, Produce(0));   // the producer has found consumer_set
    t := Next(t, Produce(0));
  }

  /** The second input is chosen inline while the first producer has not yet read its context. */
  lemma ChooseSecond() returns (t: State)
    ensures Reachable(t)
    ensures t == State([Input(ProducerDone, Some(0), Reading), Input(ProducerDone, None, Through)],
                       [FRESH_ROUND.(status := Completed(1), continued := [Inlined])], Resume, 1, false)
  {
    t := CompletesAfterRegistration();
    ReachableStep(t, Consume);      // still k_processing
    t := Next(t, Consume);
    ReachableStep(t, Consume);      // the second input is producer_done
    t := Next(t, Consume);
    ReachableStep(t, Consume);      // resume_inline
    t := Next(t, Consume);
    ReachableStep(t, Consume);
    t := Next(t, Consume);
    var none: seq<Continuation> := [];
    assert none + [Inlined] == [Inlined];
    assert t.rounds == [FRESH_ROUND.(status := Completed(1), continued := none + [Inlined])];
  }

  /**
   A run in which when_any returns the second of two results while the producer of the first one has
   still to read the state. Dropping the first result now deletes that state.
   */
  lemma ReadAfterDrop() returns (t: State)
    ensures Reachable(t) && t.stage.Outside? && |t.inputs| == 2 && |t.rounds| == 1
    ensures Current(t).index == Some(1) && DropDeletes(t, 0) && WillRead(t, 0)
  {
    t := ChooseSecond();
    ReachableStep(t, Consume);      // await_resume
    t := Next(t, Consume);
    ReachableStep(t, Consume);      // nothing to take back from the first input
    t := Next(t, Consume);
    ReachableStep(t, Consume);      // the second input is the one that completed
    t := Next(t, Consume);
    ReachableStep(t, Consume);
    t := Next(t, Consume);
  }

  // ---------------------------------------------------------------- termination

  ghost function ConsumerWork(s: State): int {
    var n := |s.inputs|;
    match s.stage
    case Outside => 0
    case RewindLoad => 4 * (n - s.i) + 4
    case RewindCas => 4 * (n - s.i) + 3
    case RewindClear => 4 * (n - s.i) + 2
    case Resume => 4 * n + 5
    case Suspended => 4 * n + 6
    case InlineCas => 4 * n + 7
    case Inline => 4 * n + 8
    case CasSet => 4 * n + 5 * (n - s.i) + 11
    case SetContext => 4 * n + 5 * (n - s.i) + 12
    case Load => 4 * n + 5 * (n - s.i) + 13
    case Check => 4 * n + 5 * (n - s.i) + 14
  }

  ghost function ProducerWork(x: Input): int {
    match x.producer
    case Running => 8
    case Reading => 7
    case TryLoad(_, l) => if l == 0 then 6 else 4
    case CasProcessing(_, _) => 5
    case CasDone(_, _) => 3
    case Resuming(_) => 2
    case Through => 0
  }

  ghost function Work(s: State): int { ConsumerWork(s) + Sum(s.inputs, ProducerWork) }

  ghost predicate Less(t: State, s: State) {
    |t.inputs| == |s.inputs| && ConsumerWork(t) < ConsumerWork(s)
  }

  lemma RegisterDecreases(s: State)
    requires ConsumerShaped(s)
    ensures s.stage.Check? || s.stage.Load? ==> Less(CheckStep(s), s)
    ensures s.stage.SetContext? ==> Less(SetContextStep(s), s)
    ensures s.stage.CasSet? ==> Less(CasSetStep(s), s)
  {
  }

  lemma RewindDecreases(s: State)
    requires ConsumerShaped(s)
    ensures s.stage.Resume? || s.stage.RewindLoad? ==> Less(ScanStep(s), s)
    ensures s.stage.RewindCas? ==> Less(RewindCasStep(s), s)
    ensures s.stage.RewindClear? ==> Less(RewindClearStep(s), s)
  {
  }

  lemma ConsumerStepDecreases(s: State)
    requires Enabled(s, Consume)
    ensures Less(Next(s, Consume), s)
  {
    RegisterDecreases(s);
    RewindDecreases(s);
  }

  lemma ConsumerTouchesOne(s: State)
    requires Enabled(s, Consume)
    ensures var t := Next(s, Consume);
            t.inputs == s.inputs
            || (&& s.i < |s.inputs| == |t.inputs| && t.inputs == s.inputs[s.i := t.inputs[s.i]]
                && t.inputs[s.i].producer == s.inputs[s.i].producer)
  {
  }

  lemma ConsumerKeepsProducers(s: State)
    requires Enabled(s, Consume)
    ensures Sum(Next(s, Consume).inputs, ProducerWork) == Sum(s.inputs, ProducerWork)
  {
    ConsumerTouchesOne(s);
    var t := Next(s, Consume);
    if t.inputs != s.inputs {
      SumUpdate(s.inputs, s.i, t.inputs[s.i], ProducerWork);
    }
  }

  ghost predicate Advances(t: State, s: State, j: nat)
    requires j < |s.inputs|
  {
    && |t.inputs| == |s.inputs| && ConsumerWork(t) <= ConsumerWork(s)
    && t.inputs == s.inputs[j := t.inputs[j]] && ProducerWork(t.inputs[j]) < ProducerWork(s.inputs[j])
  }

  lemma TryAdvances(s: State, j: nat)
    requires j < |s.inputs| && InputShaped(s, s.inputs[j]) && InputOk(s, j) && s.inputs[j].producer.TryLoad?
    ensures Advances(TryStep(s, j), s, j)
  {
  }

  lemma CasDoneAdvances(s: State, j: nat)
    requires j < |s.inputs| && InputShaped(s, s.inputs[j]) && InputOk(s, j) && s.inputs[j].producer.CasDone?
    ensures Advances(CasDoneStep(s, j), s, j)
  {
  }

  lemma CasProcessingAdvances(s: State, j: nat)
    requires j < |s.inputs| && InputShaped(s, s.inputs[j]) && InputOk(s, j) && s.inputs[j].producer.CasProcessing?
    ensures Advances(CasProcessingStep(s, j), s, j)
  {
  }

  lemma ProducerStepDecreases(s: State, j: nat)
    requires Enabled(s, Produce(j)) && InputOk(s, j)
    ensures Advances(Next(s, Produce(j)), s, j)
  {
    match s.inputs[j].producer
    case TryLoad(_, _) => TryAdvances(s, j);
    case CasDone(_, _) => CasDoneAdvances(s, j);
    case CasProcessing(_, _) => CasProcessingAdvances(s, j);
    case _ =>
  }

  lemma StepDecreases(s: State, a: Action)
    requires Inv(s) && Enabled(s, a) && !a.Call?
    ensures Work(Next(s, a)) < Work(s)
  {
    if a.Consume? {
      ConsumerStepDecreases(s);
      ConsumerKeepsProducers(s);
    } else {
      assert InputOk(s, a.j);
      ProducerStepDecreases(s, a.j);
      SumUpdate(s.inputs, a.j, Next(s, a).inputs[a.j], ProducerWork);
    }
  }

  /** One call and everything the producers do end after a number of steps linear in the inputs. */
  lemma {:induction false} RunsAreFinite(s: State, trace: seq<Action>, t: State)
    requires Inv(s) && Executes(s, trace, t) && Call !in trace
    ensures |trace| + Work(t) <= Work(s) && 0 <= Work(t)
    decreases |trace|
  {
    if trace == [] {
      SumAtLeast(s.inputs, ProducerWork);
    } else {
      StepKeepsInv(s, trace[0]);
      StepDecreases(s, trace[0]);
      RunsAreFinite(Next(s, trace[0]), trace[1..], t);
    }
  }
}
