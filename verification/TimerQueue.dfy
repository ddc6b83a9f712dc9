/**
 The timer queue around its worker: owners add and cancel timers through a request queue guarded
 by a mutex; a worker thread takes the requests over, fires what is due, and retires when it has
 nothing left, to be replaced when the next timer is added. Runs before shutdown.
 */
module TimerQueue {
  import opened Prelude
  import opened TimerRequests

  type TimerId = nat

  /** How far the owner has come with cancelling: the flag is set before the request is queued. */
  datatype Cancellation = NotAsked | Flagged | Queued

  datatype Timer = Timer(oneshot: bool, cancellation: Cancellation, fires: nat) {
    predicate Cancelled() { !cancellation.NotAsked? }
    /** The queue still owes this timer something. */
    predicate Live() { !Cancelled() && !(oneshot && fires > 0) }
  }

  datatype Phase = AtLock | Processing | Retired

  /** A worker thread: the requests it has taken over, and its internal state. */
  datatype Worker = Worker(phase: Phase, batch: seq<Request<TimerId>>, contents: set<TimerId>)

  datatype State = State(
    requests: seq<Request<TimerId>>,
    idle: bool,
    workers: seq<Worker>,          // every worker ever started
    timers: seq<Timer>,            // every timer ever added
    fault: bool)                   // an assertion about the index failed

  datatype Action =
    | AddTimer(oneshot: bool)
    | SetCancelled(t: TimerId)
    | QueueRemoval(t: TimerId)
    | Take(w: nat)
    | Process(w: nat, fired: set<TimerId>, dropped: set<TimerId>)
    | Retire(w: nat)

  ghost predicate Init(s: State) {
    s == State([], true, [], [], false)
  }

  /** The queue is taken over once there is something to do or the next deadline has passed. */
  ghost predicate Enabled(s: State, a: Action) {
    match a
    case AddTimer(_) => true
    case SetCancelled(t) => t < |s.timers| && s.timers[t].cancellation.NotAsked?
    case QueueRemoval(t) => t < |s.timers| && s.timers[t].cancellation.Flagged?
    case Take(w) => w < |s.workers| && s.workers[w].phase.AtLock? && (s.requests != [] || s.workers[w].contents != {})
    case Process(w, fired, dropped) =>
      && w < |s.workers| && s.workers[w].phase.Processing?
      && fired !! dropped && fired + dropped <= Apply(s.workers[w].contents, s.workers[w].batch)
      && (forall t | t in fired || t in dropped :: t < |s.timers|)
      && (forall t | t in dropped :: s.timers[t].Cancelled())
    case Retire(w) =>
      w < |s.workers| && s.workers[w].phase.AtLock? && s.requests == [] && s.workers[w].contents == {}
  }

  /** add_timer_internal and remove_timer_internal assert these. */
  ghost predicate Admissible(s: State, contents: set<TimerId>, batch: seq<Request<TimerId>>) {
    forall k | 0 <= k < |batch| ::
      match batch[k]
      case Add(t) => t !in Apply(contents, batch[..k])
      case Remove(t) =>
        t in Apply(contents, batch[..k]) || (t < |s.timers| && (s.timers[t].oneshot || s.timers[t].Cancelled()))
  }

  function Fire(timers: seq<Timer>, fired: set<TimerId>): (r: seq<Timer>)
    ensures |r| == |timers|
    ensures forall t | 0 <= t < |timers| ::
              r[t] == timers[t].(fires := timers[t].fires + if t in fired then 1 else 0)
  {
    seq(|timers|, t requires 0 <= t < |timers| => timers[t].(fires := timers[t].fires + if t in fired then 1 else 0))
  }

  ghost function Next(s: State, a: Action): State
    requires Enabled(s, a)
  {
    match a
    case AddTimer(oneshot) =>
      var workers := if s.idle then s.workers + [Worker(AtLock, [], {})] else s.workers;
      State(s.requests + [Add(|s.timers|)], false, workers, s.timers + [Timer(oneshot, NotAsked, 0)], s.fault)
    case SetCancelled(t) => s.(timers := s.timers[t := s.timers[t].(cancellation := Flagged)])
    case QueueRemoval(t) =>
      s.(timers := s.timers[t := s.timers[t].(cancellation := Queued)], requests := s.requests + [Remove(t)])
    case Take(w) => s.(requests := [], workers := s.workers[w := Worker(Processing, s.requests, s.workers[w].contents)])
    case Process(w, fired, dropped) =>
      var all := Apply(s.workers[w].contents, s.workers[w].batch);
      var gone := dropped + set t | t in fired && s.timers[t].oneshot;
      s.(workers := s.workers[w := Worker(AtLock, [], all - gone)], timers := Fire(s.timers, fired),
         fault := s.fault || !Admissible(s, s.workers[w].contents, s.workers[w].batch))
    case Retire(w) => s.(idle := true, workers := s.workers[w := s.workers[w].(phase := Retired)])
  }

  ghost predicate Executes(s: State, trace: seq<Action>, t: State)
    decreases |trace|
  {
    if trace == [] then s == t
    else Enabled(s, trace[0]) && Executes(Next(s, trace[0]), trace[1..], t)
  }

  ghost predicate Reachable(t: State) {
    exists s, trace :: Init(s) && Executes(s, trace, t)
  }

  // ---------------------------------------------------------------- batches

  /** A batch adds each timer once and no timer that is there; it removes cancelled timers only. */
  ghost predicate GoodBatch(timers: seq<Timer>, contents: set<TimerId>, batch: seq<Request<TimerId>>) {
    && (forall k | 0 <= k < |batch| && batch[k].Add? :: batch[k].timer !in contents)
    && (forall j, k | 0 <= j < k < |batch| && batch[j].Add? && batch[k].Add? :: batch[j].timer != batch[k].timer)
    && (forall k | 0 <= k < |batch| :: batch[k].timer < |timers|)
    && (forall k | 0 <= k < |batch| && batch[k].Remove? :: timers[batch[k].timer].Cancelled())
  }

  lemma {:induction false} ApplyGoodBatch(timers: seq<Timer>, contents: set<TimerId>, batch: seq<Request<TimerId>>)
    requires GoodBatch(timers, contents, batch)
    ensures forall t | t in Apply(contents, batch) :: t in contents || Add(t) in batch
    ensures forall t | 0 <= t < |timers| && !timers[t].Cancelled() && (t in contents || Add(t) in batch) ::
              t in Apply(contents, batch)
  {
    if batch != [] {
      var last := |batch| - 1;
      assert GoodBatch(timers, contents, batch[..last]);
      ApplyGoodBatch(timers, contents, batch[..last]);
      assert batch == batch[..last] + [batch[last]];
    }
  }

  lemma GoodBatchIsAdmissible(s: State, contents: set<TimerId>, batch: seq<Request<TimerId>>)
    requires GoodBatch(s.timers, contents, batch)
    ensures Admissible(s, contents, batch)
  {
    forall k | 0 <= k < |batch| && batch[k].Add? ensures batch[k].timer !in Apply(contents, batch[..k]) {
      assert GoodBatch(s.timers, contents, batch[..k]);
      ApplyGoodBatch(s.timers, contents, batch[..k]);
    }
  }

  // ---------------------------------------------------------------- the invariant

  /** The worker in charge, if there is one. */
  ghost function Contents(s: State): set<TimerId> {
    if s.idle || s.workers == [] then {} else s.workers[|s.workers| - 1].contents
  }

  ghost function Stream(s: State): seq<Request<TimerId>> {
    (if s.idle || s.workers == [] then [] else s.workers[|s.workers| - 1].batch) + s.requests
  }

  ghost predicate Workers(s: State) {
    && (forall w | 0 <= w < |s.workers| - 1 :: s.workers[w].phase.Retired?)
    && (s.idle ==> s.workers == [] || s.workers[|s.workers| - 1].phase.Retired?)
    && (!s.idle ==> s.workers != [] && !s.workers[|s.workers| - 1].phase.Retired?)
    && (forall w | 0 <= w < |s.workers| && s.workers[w].phase.Retired? ::
          s.workers[w].contents == {} && s.workers[w].batch == [])
    && (forall w | 0 <= w < |s.workers| :: s.workers[w].phase.AtLock? ==> s.workers[w].batch == [])
    && (s.idle ==> forall k | 0 <= k < |s.requests| :: s.requests[k].Remove?)
  }

  /** Every timer that is owed something is in the contents or about to be added, and in one place only. */
  ghost predicate Kept(timers: seq<Timer>, contents: set<TimerId>, stream: seq<Request<TimerId>>) {
    && GoodBatch(timers, contents, stream)
    && (forall t | t in contents :: t < |timers| && (timers[t].oneshot ==> timers[t].fires == 0))
    && (forall k | 0 <= k < |stream| && stream[k].Add? :: timers[stream[k].timer].fires == 0)
    && (forall t | 0 <= t < |timers| && timers[t].Live() :: t in contents || Add(t) in stream)
    && (forall t | 0 <= t < |timers| && timers[t].oneshot :: timers[t].fires <= 1)
  }

  ghost predicate Inv(s: State) { !s.fault && Workers(s) && Kept(s.timers, Contents(s), Stream(s)) }

  lemma AddedIsKept(timers: seq<Timer>, contents: set<TimerId>, stream: seq<Request<TimerId>>, oneshot: bool)
    requires Kept(timers, contents, stream)
    ensures Kept(timers + [Timer(oneshot, NotAsked, 0)], contents, stream + [Add(|timers|)])
  {
    assert (stream + [Add(|timers|)])[|stream|] == Add(|timers|);
    assert forall x | x in stream :: x in stream + [Add(|timers|)];
  }

  lemma AddKeepsInv(s: State, oneshot: bool)
    requires Inv(s)
    ensures Inv(Next(s, AddTimer(oneshot)))
  {
    var t := Next(s, AddTimer(oneshot));
    AddedIsKept(s.timers, Contents(s), Stream(s), oneshot);
    assert Contents(t) == Contents(s);
    assert Stream(t) == Stream(s) + [Add(|s.timers|)];
  }

  lemma CancelledIsKept(timers: seq<Timer>, contents: set<TimerId>, stream: seq<Request<TimerId>>,
                        t: TimerId, c: Cancellation)
    requires Kept(timers, contents, stream) && t < |timers| && !c.NotAsked?
    ensures Kept(timers[t := timers[t].(cancellation := c)], contents, stream)
  {
  }

  lemma RemovalIsKept(timers: seq<Timer>, contents: set<TimerId>, stream: seq<Request<TimerId>>, t: TimerId)
    requires Kept(timers, contents, stream) && t < |timers| && timers[t].Cancelled()
    ensures Kept(timers, contents, stream + [Remove(t)])
  {
    assert forall x | x in stream :: x in stream + [Remove(t)];
  }

  lemma CancelKeepsInv(s: State, a: Action)
    requires Inv(s) && Enabled(s, a) && (a.SetCancelled? || a.QueueRemoval?)
    ensures Inv(Next(s, a))
  {
    var t := Next(s, a);
    CancelledIsKept(s.timers, Contents(s), Stream(s), a.t, t.timers[a.t].cancellation);
    if a.QueueRemoval? {
      RemovalIsKept(t.timers, Contents(s), Stream(s), a.t);
      assert Stream(t) == Stream(s) + [Remove(a.t)];
    }
  }

  lemma TakeKeepsWorkers(s: State, w: nat)
    requires Workers(s) && Enabled(s, Take(w))
    ensures w == |s.workers| - 1 && !s.idle && s.workers[w].batch == []
    ensures Workers(Next(s, Take(w))) && Contents(Next(s, Take(w))) == Contents(s)
  {
  }

  lemma TakeKeepsInv(s: State, w: nat)
    requires Inv(s) && Enabled(s, Take(w))
    ensures Inv(Next(s, Take(w)))
  {
    TakeKeepsWorkers(s, w);
    assert Stream(Next(s, Take(w))) == Stream(s);
  }

  lemma SplitBatch(timers: seq<Timer>, contents: set<TimerId>,
                   batch: seq<Request<TimerId>>, rest: seq<Request<TimerId>>)
    requires GoodBatch(timers, contents, batch + rest)
    ensures GoodBatch(timers, contents, batch)
    ensures forall k | 0 <= k < |rest| && rest[k].Add? :: rest[k].timer !in contents && Add(rest[k].timer) !in batch
    ensures GoodBatch(timers, {}, rest)
  {
    var all := batch + rest;
    forall k | 0 <= k < |rest| ensures rest[k] == all[|batch| + k] {}
    forall k | 0 <= k < |batch| ensures batch[k] == all[k] {}
  }

  lemma ScanIsKept(timers: seq<Timer>, contents: set<TimerId>,
                   batch: seq<Request<TimerId>>, rest: seq<Request<TimerId>>,
                   fired: set<TimerId>, dropped: set<TimerId>, gone: set<TimerId>)
    requires Kept(timers, contents, batch + rest)
    requires fired !! dropped && fired + dropped <= Apply(contents, batch)
    requires forall t | t in dropped :: t < |timers| && timers[t].Cancelled()
    requires dropped <= gone <= fired + dropped
    requires forall t | t in fired :: t < |timers| && (t in gone <==> timers[t].oneshot)
    ensures Kept(Fire(timers, fired), Apply(contents, batch) - gone, rest)
  {
    SplitBatch(timers, contents, batch, rest);
    ApplyGoodBatch(timers, contents, batch);
    var after, all := Fire(timers, fired), Apply(contents, batch);
    forall k | 0 <= k < |rest| ensures rest[k] == (batch + rest)[|batch| + k] {}
    forall k | 0 <= k < |batch| ensures batch[k] == (batch + rest)[k] {}
    forall t | t in all - gone ensures t < |after| && (after[t].oneshot ==> after[t].fires == 0) {
      assert t in contents || Add(t) in batch;
    }
    forall t | 0 <= t < |after| && after[t].Live() ensures t in all - gone || Add(t) in rest {
      assert timers[t].Live() && t !in gone;
      assert t in contents || Add(t) in batch + rest;
    }
    forall t | 0 <= t < |after| && after[t].oneshot ensures after[t].fires <= 1 {
      if t in fired { assert t in contents || Add(t) in batch; }
    }
  }

  lemma ProcessKeepsWorkers(s: State, w: nat, fired: set<TimerId>, dropped: set<TimerId>)
    requires Workers(s) && Enabled(s, Process(w, fired, dropped))
    ensures w == |s.workers| - 1 && !s.idle
    ensures Workers(Next(s, Process(w, fired, dropped)))
    ensures Stream(Next(s, Process(w, fired, dropped))) == s.requests
  {
  }

  lemma ProcessKeepsInv(s: State, w: nat, fired: set<TimerId>, dropped: set<TimerId>)
    requires Inv(s) && Enabled(s, Process(w, fired, dropped))
    ensures Inv(Next(s, Process(w, fired, dropped)))
  {
    ProcessKeepsWorkers(s, w, fired, dropped);
    var contents, batch := s.workers[w].contents, s.workers[w].batch;
    var gone := dropped + set x | x in fired && s.timers[x].oneshot;
    assert Kept(Fire(s.timers, fired), Apply(contents, batch) - gone, s.requests) by {
      ScanIsKept(s.timers, contents, batch, s.requests, fired, dropped, gone);
    }
    assert Admissible(s, contents, batch) by {
      SplitBatch(s.timers, contents, batch, s.requests);
      GoodBatchIsAdmissible(s, contents, batch);
    }
  }

  lemma RetireKeepsInv(s: State, w: nat)
    requires Inv(s) && Enabled(s, Retire(w))
    ensures Inv(Next(s, Retire(w)))
  {
    assert w == |s.workers| - 1 && !s.idle;
    assert Stream(s) == [] == Stream(Next(s, Retire(w)));
  }

  lemma StepKeepsInv(s: State, a: Action)
    requires Inv(s) && Enabled(s, a)
    ensures Inv(Next(s, a))
  {
    match a
    case AddTimer(oneshot) => AddKeepsInv(s, oneshot);
    case SetCancelled(_) => CancelKeepsInv(s, a);
    case QueueRemoval(_) => CancelKeepsInv(s, a);
    case Take(w) => TakeKeepsInv(s, w);
    case Process(w, fired, dropped) => ProcessKeepsInv(s, w, fired, dropped);
    case Retire(w) => RetireKeepsInv(s, w);
  }

  lemma {:induction false} RunKeepsInv(s: State, trace: seq<Action>, t: State)
    requires Inv(s) && Executes(s, trace, t)
    ensures Inv(t)
    decreases |trace|
  {
    if trace != [] {
      StepKeepsInv(s, trace[0]);
      RunKeepsInv(Next(s, trace[0]), trace[1..], t);
    }
  }

  lemma ReachableInv(t: State)
    requires Reachable(t)
    ensures Inv(t)
  {
    var s, trace :| Init(s) && Executes(s, trace, t);
    RunKeepsInv(s, trace, t);
  }

  // ---------------------------------------------------------------- what every run guarantees

  /** A queue without a worker holds nothing but removals of cancelled timers, which a later worker ignores. */
  lemma IdleMeansNothingToDo(t: State)
    requires Reachable(t) && t.idle
    ensures forall w | 0 <= w < |t.workers| :: t.workers[w].phase.Retired? && t.workers[w].contents == {}
    ensures forall r | r in t.requests :: r.Remove? && r.timer < |t.timers| && t.timers[r.timer].Cancelled()
    ensures forall x | 0 <= x < |t.timers| :: !t.timers[x].Live()
    ensures Apply({}, t.requests) == {}
  {
    ReachableInv(t);
    assert Stream(t) == t.requests;
    ApplyGoodBatch(t.timers, {}, t.requests);
  }

  /**
   No timer is lost: as long as it is neither cancelled nor a one-shot that has fired, there is
   exactly one worker that has not retired, and the timer is in its contents, in the requests it
   has taken over, or in the requests it has still to take, which keep it from retiring.
   */
  lemma NoTimerIsLost(t: State, x: TimerId)
    requires Reachable(t) && x < |t.timers| && t.timers[x].Live()
    ensures t.workers != [] && !t.workers[|t.workers| - 1].phase.Retired?
    ensures forall w | 0 <= w < |t.workers| - 1 :: t.workers[w].phase.Retired?
    ensures var worker := t.workers[|t.workers| - 1];
            && (x in worker.contents || Add(x) in worker.batch || Add(x) in t.requests)
            && !Enabled(t, Retire(|t.workers| - 1))
            && (worker.phase.AtLock? ==> Enabled(t, Take(|t.workers| - 1)))
  {
    ReachableInv(t);
    IdleMeansNothingToDoUnlessLive(t, x);
    assert Add(x) in Stream(t) ==> Add(x) in t.workers[|t.workers| - 1].batch || Add(x) in t.requests;
  }

  lemma IdleMeansNothingToDoUnlessLive(t: State, x: TimerId)
    requires Inv(t) && x < |t.timers| && t.timers[x].Live()
    ensures !t.idle
  {
    assert t.idle ==> Stream(t) == t.requests;
  }

  /** The assertions about the index hold, and a one-shot timer fires at most once. */
  lemma OneShotsFireOnce(t: State)
    requires Reachable(t)
    ensures !t.fault
    ensures forall x | 0 <= x < |t.timers| && t.timers[x].oneshot :: t.timers[x].fires <= 1
  {
    ReachableInv(t);
  }

  // ---------------------------------------------------------------- removals take effect

  ghost predicate NoAddAfterRemoval(stream: seq<Request<TimerId>>) {
    forall j, k | 0 <= j < k < |stream| && stream[j].Remove? && stream[k].Add? :: stream[j].timer != stream[k].timer
  }

  /** No worker has the timer, and nobody will bring it. */
  ghost predicate Away(s: State, t: TimerId) { t !in Contents(s) && Add(t) !in Stream(s) }

  /** Whoever has asked for a removal finds the request still on its way, or the timer gone. */
  ghost predicate Settled(s: State) {
    && NoAddAfterRemoval(Stream(s))
    && (forall t | 0 <= t < |s.timers| && s.timers[t].cancellation.Queued? :: Remove(t) in Stream(s) || Away(s, t))
  }

  lemma RemovedFromBatch(contents: set<TimerId>, batch: seq<Request<TimerId>>, t: TimerId)
    requires NoAddAfterRemoval(batch) && Remove(t) in batch
    ensures t !in Apply(contents, batch)
  {
    LastRequestDecides(t, contents, batch);
    var j :| 0 <= j < |batch| && batch[j] == Remove(t);
    assert !NotNamedFrom(t, batch, 0);
    forall k | 0 <= k < |batch| && batch[k] == Add(t) ensures !NotNamedFrom(t, batch, k + 1) {
      assert k < j;
    }
  }

  lemma NeverAddedStaysOut(contents: set<TimerId>, batch: seq<Request<TimerId>>, t: TimerId)
    requires t !in contents && Add(t) !in batch
    ensures t !in Apply(contents, batch)
  {
    LastRequestDecides(t, contents, batch);
  }

  lemma SplitInOrder(batch: seq<Request<TimerId>>, rest: seq<Request<TimerId>>, t: TimerId)
    requires NoAddAfterRemoval(batch + rest)
    ensures NoAddAfterRemoval(batch) && NoAddAfterRemoval(rest)
    ensures Remove(t) in batch ==> Add(t) !in rest
    ensures Add(t) !in batch + rest ==> Add(t) !in batch && Add(t) !in rest
  {
    var all := batch + rest;
    forall k | 0 <= k < |batch| ensures batch[k] == all[k] {}
    forall k | 0 <= k < |rest| ensures rest[k] == all[|batch| + k] {}
  }

  lemma ProcessSettles(s: State, w: nat, fired: set<TimerId>, dropped: set<TimerId>, t: TimerId)
    requires Inv(s) && Enabled(s, Process(w, fired, dropped)) && NoAddAfterRemoval(Stream(s))
    requires Remove(t) in s.workers[w].batch || Away(s, t)
    ensures t !in fired && Away(Next(s, Process(w, fired, dropped)), t)
  {
    ProcessKeepsWorkers(s, w, fired, dropped);
    var contents, batch := s.workers[w].contents, s.workers[w].batch;
    assert Stream(s) == batch + s.requests;
    SplitInOrder(batch, s.requests, t);
    assert t !in Apply(contents, batch) by {
      if Remove(t) in batch { RemovedFromBatch(contents, batch, t); } else { NeverAddedStaysOut(contents, batch, t); }
    }
  }

  lemma InEitherPart(batch: seq<Request<TimerId>>, rest: seq<Request<TimerId>>, x: Request<TimerId>)
    ensures x in batch + rest <==> x in batch || x in rest
  {
  }

  lemma ProcessSettlesAny(s: State, w: nat, fired: set<TimerId>, dropped: set<TimerId>, t: TimerId)
    requires Inv(s) && Enabled(s, Process(w, fired, dropped)) && NoAddAfterRemoval(Stream(s))
    requires Remove(t) in Stream(s) || Away(s, t)
    ensures Remove(t) in s.requests || Away(Next(s, Process(w, fired, dropped)), t)
  {
    ProcessKeepsWorkers(s, w, fired, dropped);
    assert Stream(s) == s.workers[w].batch + s.requests;
    InEitherPart(s.workers[w].batch, s.requests, Remove(t));
    if Remove(t) !in s.requests { ProcessSettles(s, w, fired, dropped, t); }
  }

  lemma ProcessKeepsOrder(s: State, w: nat, fired: set<TimerId>, dropped: set<TimerId>)
    requires Inv(s) && Enabled(s, Process(w, fired, dropped)) && NoAddAfterRemoval(Stream(s))
    ensures Stream(Next(s, Process(w, fired, dropped))) == s.requests && NoAddAfterRemoval(s.requests)
  {
    ProcessKeepsWorkers(s, w, fired, dropped);
    assert Stream(s) == s.workers[w].batch + s.requests;
    SplitInOrder(s.workers[w].batch, s.requests, 0);
  }

  lemma ProcessKeepsSettled(s: State, w: nat, fired: set<TimerId>, dropped: set<TimerId>)
    requires Inv(s) && Settled(s) && Enabled(s, Process(w, fired, dropped))
    ensures Settled(Next(s, Process(w, fired, dropped)))
  {
    var u := Next(s, Process(w, fired, dropped));
    ProcessKeepsOrder(s, w, fired, dropped);
    forall t | 0 <= t < |u.timers| && u.timers[t].cancellation.Queued? ensures Remove(t) in Stream(u) || Away(u, t) {
      assert s.timers[t].cancellation.Queued?;
      ProcessSettlesAny(s, w, fired, dropped, t);
    }
  }

  lemma AppendInOrder(stream: seq<Request<TimerId>>, x: Request<TimerId>)
    requires NoAddAfterRemoval(stream)
    requires x.Add? ==> forall k | 0 <= k < |stream| :: stream[k].timer != x.timer
    ensures NoAddAfterRemoval(stream + [x])
    ensures x in stream + [x] && forall y | y in stream :: y in stream + [x]
  {
    assert (stream + [x])[|stream|] == x;
  }

  /** The other steps append to the stream of requests, or leave it and the contents alone. */
  lemma AppendKeepsSettled(s: State, a: Action)
    requires Inv(s) && Settled(s) && Enabled(s, a) && (a.AddTimer? || a.QueueRemoval?)
    ensures Settled(Next(s, a))
  {
    var u := Next(s, a);
    var x := if a.AddTimer? then Add(|s.timers|) else Remove(a.t);
    assert Contents(u) == Contents(s) && Stream(u) == Stream(s) + [x];
    AppendInOrder(Stream(s), x);
  }

  lemma StepKeepsSettled(s: State, a: Action)
    requires Inv(s) && Settled(s) && Enabled(s, a)
    ensures Settled(Next(s, a))
  {
    match a
    case AddTimer(_) => AppendKeepsSettled(s, a);
    case QueueRemoval(_) => AppendKeepsSettled(s, a);
    case SetCancelled(_) =>
    case Take(w) =>
      TakeKeepsWorkers(s, w);
      assert Stream(Next(s, a)) == Stream(s);
    case Process(w, fired, dropped) => ProcessKeepsSettled(s, w, fired, dropped);
    case Retire(w) =>
      assert w == |s.workers| - 1 && !s.idle;
      assert Stream(s) == [] == Stream(Next(s, a));
  }

  lemma {:induction false} RunKeepsSettled(s: State, trace: seq<Action>, t: State)
    requires Inv(s) && Settled(s) && Executes(s, trace, t)
    ensures Settled(t)
    decreases |trace|
  {
    if trace != [] {
      StepKeepsInv(s, trace[0]);
      StepKeepsSettled(s, trace[0]);
      RunKeepsSettled(Next(s, trace[0]), trace[1..], t);
    }
  }

  lemma ReachableSettled(t: State)
    requires Reachable(t)
    ensures Inv(t) && Settled(t)
  {
    ReachableInv(t);
    var s, trace :| Init(s) && Executes(s, trace, t);
    RunKeepsSettled(s, trace, t);
  }

  lemma StepKeepsAway(s: State, a: Action, t: TimerId)
    requires Inv(s) && Settled(s) && Enabled(s, a) && t < |s.timers| && Away(s, t)
    ensures t < |Next(s, a).timers| && Away(Next(s, a), t) && Next(s, a).timers[t].fires == s.timers[t].fires
  {
    match a
    case AddTimer(_) => assert Stream(Next(s, a)) == Stream(s) + [Add(|s.timers|)];
    case QueueRemoval(x) => assert Stream(Next(s, a)) == Stream(s) + [Remove(x)];
    case SetCancelled(_) =>
    case Take(w) =>
      TakeKeepsWorkers(s, w);
      assert Stream(Next(s, a)) == Stream(s);
    case Process(w, fired, dropped) => ProcessSettles(s, w, fired, dropped, t);
    case Retire(w) =>
      assert w == |s.workers| - 1 && !s.idle;
      assert Stream(s) == [] == Stream(Next(s, a));
  }

  lemma {:induction false} RunKeepsAway(s: State, trace: seq<Action>, u: State, t: TimerId)
    requires Inv(s) && Settled(s) && Executes(s, trace, u) && t < |s.timers| && Away(s, t)
    ensures Inv(u) && t < |u.timers| && Away(u, t) && u.timers[t].fires == s.timers[t].fires
    decreases |trace|
  {
    if trace != [] {
      StepKeepsInv(s, trace[0]);
      StepKeepsSettled(s, trace[0]);
      StepKeepsAway(s, trace[0], t);
      RunKeepsAway(Next(s, trace[0]), trace[1..], u, t);
    }
  }

  lemma OnlyLastHasContents(s: State, v: nat)
    requires Inv(s) && v < |s.workers|
    ensures s.workers[v].contents == {} || s.workers[v].contents == Contents(s)
  {
  }

  /**
   A removal takes effect for good: when a worker has processed requests with the removal of a timer
   among them, it has not fired the timer, no worker ever has it again, and no later step fires it.
   */
  lemma RemovedForGood(s: State, w: nat, fired: set<TimerId>, dropped: set<TimerId>,
                       trace: seq<Action>, u: State, t: TimerId)
    requires Reachable(s) && Enabled(s, Process(w, fired, dropped)) && Remove(t) in s.workers[w].batch
    requires Executes(Next(s, Process(w, fired, dropped)), trace, u)
    ensures t < |s.timers| && t < |u.timers| && u.timers[t].fires == s.timers[t].fires
    ensures forall v: nat | v < |u.workers| :: t !in u.workers[v].contents && Add(t) !in u.workers[v].batch
    ensures Add(t) !in u.requests
  {
    ReachableSettled(s);
    var a := Process(w, fired, dropped);
    RemovalIsOfATimer(s, w, fired, dropped, t);
    ProcessSettles(s, w, fired, dropped, t);
    StepKeepsInv(s, a);
    StepKeepsSettled(s, a);
    RunKeepsAway(Next(s, a), trace, u, t);
    AwayIsNowhere(u, t);
  }

  lemma RemovalIsOfATimer(s: State, w: nat, fired: set<TimerId>, dropped: set<TimerId>, t: TimerId)
    requires Inv(s) && Enabled(s, Process(w, fired, dropped)) && Remove(t) in s.workers[w].batch
    ensures t < |s.timers| == |Next(s, Process(w, fired, dropped)).timers|
    ensures t !in fired ==> Next(s, Process(w, fired, dropped)).timers[t] == s.timers[t]
  {
    ProcessKeepsWorkers(s, w, fired, dropped);
    var k :| 0 <= k < |s.workers[w].batch| && s.workers[w].batch[k] == Remove(t);
    assert Stream(s)[k] == Remove(t);
  }

  lemma AwayIsNowhere(u: State, t: TimerId)
    requires Inv(u) && Away(u, t)
    ensures forall v: nat | v < |u.workers| :: t !in u.workers[v].contents && Add(t) !in u.workers[v].batch
    ensures Add(t) !in u.requests
  {
    forall v: nat | v < |u.workers| ensures t !in u.workers[v].contents && Add(t) !in u.workers[v].batch {
      OnlyLastHasContents(u, v);
    }
  }

  /** No removal is lost: once the owner has queued it, it is on its way to the worker or the timer is gone. */
  lemma NoRemovalIsLost(t: State, x: TimerId)
    requires Reachable(t) && x < |t.timers| && t.timers[x].cancellation.Queued?
    ensures Remove(x) in t.requests || (exists w: nat | w < |t.workers| :: Remove(x) in t.workers[w].batch)
            || forall w: nat | w < |t.workers| :: x !in t.workers[w].contents
  {
    ReachableSettled(t);
    if Remove(x) in Stream(t) {
      if !t.idle && t.workers != [] { assert Remove(x) in t.workers[|t.workers| - 1].batch || Remove(x) in t.requests; }
    } else {
      forall w: nat | w < |t.workers| ensures x !in t.workers[w].contents { OnlyLastHasContents(t, w); }
    }
  }

  /** What a scan leaves in the worker: the timers dropped and the one-shots fired are gone, nothing else is. */
  lemma ScanLeaves(s: State, w: nat, fired: set<TimerId>, dropped: set<TimerId>, t: TimerId)
    requires Reachable(s) && Enabled(s, Process(w, fired, dropped)) && t < |s.timers|
    ensures t in Next(s, Process(w, fired, dropped)).workers[w].contents <==>
              && EndsUpIn(t, s.workers[w].contents, s.workers[w].batch)
              && t !in dropped && !(t in fired && s.timers[t].oneshot)
  {
    LastRequestDecides(t, s.workers[w].contents, s.workers[w].batch);
  }

  // ---------------------------------------------------------------- the regions of the mutex

  class RequestQueue {
    var requests: seq<Request<TimerId>>
    var idle: bool
    var abort: bool
    var worker: Option<nat>

    constructor ()
      ensures requests == [] && idle && !abort && worker == None
    {
      requests, idle, abort, worker := [], true, false, None;
    }

    /** A worker is started exactly when there is none; the previous one is returned to be joined. */
    method EnsureWorkerThread(newWorker: nat) returns (stale: Option<nat>)
      modifies `idle, `worker
      ensures !idle
      ensures worker == if old(idle) then Some(newWorker) else old(worker)
      ensures stale == if old(idle) then old(worker) else None
    {
      if !idle { return None; }
      stale := worker;
      worker := Some(newWorker);
      idle := false;
    }

    /** After shutdown nothing is queued and no worker is started. */
    method AddTimer(t: TimerId, newWorker: nat) returns (shutDown: bool, stale: Option<nat>)
      modifies this
      ensures shutDown == old(abort) == abort
      ensures requests == old(requests) + if shutDown then [] else [Add(t)]
      ensures idle == (old(idle) && shutDown)
      ensures worker == if old(idle) && !shutDown then Some(newWorker) else old(worker)
      ensures stale == if old(idle) && !shutDown then old(worker) else None
    {
      if abort { return true, None; }
      stale := EnsureWorkerThread(newWorker);
      requests := requests + [Add(t)];
      shutDown := false;
    }

    method RemoveInternalTimer(t: TimerId)
      modifies `requests
      ensures requests == old(requests) + [Remove(t)]
    {
      requests := requests + [Remove(t)];
    }

    /**
     The region of work_loop once its wait is over. The worker goes on with all the requests there
     are, or ends; it declares the queue idle only if there is no request and its state is empty.
     */
    method TakeRequests(internalEmpty: bool) returns (batch: Option<seq<Request<TimerId>>>)
      modifies `requests, `idle
      ensures batch.Some? <==> !abort && (old(requests) != [] || !internalEmpty)
      ensures batch.Some? ==> batch.value == old(requests) && requests == []
      ensures batch.None? ==> requests == old(requests)
      ensures idle == (old(idle) || (internalEmpty && old(requests) == [] && !abort))
    {
      if internalEmpty && requests == [] && !abort {
        idle := true;
        return None;
      }
      if abort { return None; }
      batch := Some(requests);
      requests := [];
    }
  }
}
