/**
 The thread pool together with its set of idle workers. A worker that waits for tasks must be found
 by whoever looks for an idle one, or somebody who has found it must be about to bring it something:
 otherwise a busy thread would keep its tasks to itself while others sleep.
 */
module IdleMarks {
  import opened Prelude
  import opened ThreadPool

  // ---------------------------------------------------------------- who waits, and who has claimed whom

  predicate IsWaiting(p: Phase) { p.Sleeping? || p.Acquired? || p.Relocking? || p.TimedOut? }

  /** The thread of the worker waits for tasks, or there is none. */
  predicate Waits(s: State, w: nat)
    requires w < |s.workers|
  {
    var x := s.workers[w];
    x.idle || (x.thread.Some? && x.thread.value < |s.threads| && IsWaiting(s.threads[x.thread.value].phase))
  }

  /** How often a thread has claimed worker w and has still to donate to it. */
  ghost function ClaimsOf(w: nat): Thread -> int {
    (t: Thread) =>
      match t.phase
      case Balancing(claimed) => multiset(claimed)[w]
      case Donating(plan) => multiset(Targets(plan))[w]
      case _ => 0
  }

  ghost function Donors(s: State, w: nat): int { Sum(s.threads, ClaimsOf(w)) }

  /** Marked idle, or about to be given something, or it has something already. */
  ghost predicate CanBeFound(s: State, w: nat)
    requires w < |s.workers|
  {
    s.workers[w].marked || s.workers[w].claims > 0 || Donors(s, w) > 0 || s.workers[w].publicQueue != []
  }

  ghost predicate Found(s: State) {
    forall w: nat | w < |s.workers| && Waits(s, w) :: CanBeFound(s, w)
  }

  // ---------------------------------------------------------------- steps

  lemma DonorsAfter(s: State, t: nat, p: Phase, w: nat)
    requires t < |s.threads|
    ensures Donors(SetPhase(s, t, p), w)
         == Donors(s, w) - ClaimsOf(w)(s.threads[t]) + ClaimsOf(w)(s.threads[t].(phase := p))
  {
    SumUpdate(s.threads, t, s.threads[t].(phase := p), ClaimsOf(w));
  }

  lemma DonorsNatural(s: State, w: nat)
    ensures 0 <= Donors(s, w)
  {
    SumAtLeast(s.threads, ClaimsOf(w));
  }

  /** A step of a thread on its own worker does not change whether others wait. */
  lemma OthersWait(s: State, t: nat, y: Worker, p: Phase, v: nat)
    requires Inv(s) && t < |s.threads| && s.threads[t].worker < |s.workers| && !s.threads[t].phase.Retired?
    requires v < |s.workers| && v != s.threads[t].worker
    ensures Waits(SetPhase(SetWorker(s, s.threads[t].worker, y), t, p), v) == Waits(s, v)
  {
    assert WorkerOk(s, v);
  }

  /** The thread in charge of a worker is the one that the worker points to. */
  lemma OwnWait(s: State, t: nat)
    requires Inv(s) && t < |s.threads| && s.threads[t].worker < |s.workers| && !s.threads[t].phase.Retired?
    ensures Waits(s, s.threads[t].worker) == IsWaiting(s.threads[t].phase)
  {
    assert ThreadOk(s, t);
  }

  /** A step of a thread that has claimed nobody, on its own worker. */
  lemma OwnStepKeepsFound(s: State, t: nat, y: Worker, p: Phase)
    requires Inv(s) && Found(s) && t < |s.threads| && s.threads[t].worker < |s.workers| && !s.threads[t].phase.Retired?
    requires forall v: nat :: ClaimsOf(v)(s.threads[t].(phase := p)) == ClaimsOf(v)(s.threads[t])
    requires y.thread == Some(t) && y.idle == p.Retired?
    requires IsWaiting(p) || p.Retired? ==>
               || y.marked
               || (&& IsWaiting(s.threads[t].phase)
                   && y == s.workers[s.threads[t].worker].(tokens := y.tokens, idle := y.idle, stranded := y.stranded))
    ensures Found(SetPhase(SetWorker(s, s.threads[t].worker, y), t, p))
  {
    var w := s.threads[t].worker;
    var s' := SetPhase(SetWorker(s, w, y), t, p);
    OwnWait(s, t);
    forall v: nat | v < |s'.workers| && Waits(s', v) ensures CanBeFound(s', v) {
      DonorsAfter(SetWorker(s, w, y), t, p, v);
      if v != w { OthersWait(s, t, y, p, v); }
    }
  }

  lemma OwnPhaseKeepsFound(s: State, t: nat, p: Phase)
    requires Inv(s) && Found(s) && t < |s.threads| && s.threads[t].worker < |s.workers| && !s.threads[t].phase.Retired?
    requires forall v: nat :: ClaimsOf(v)(s.threads[t].(phase := p)) == ClaimsOf(v)(s.threads[t])
    requires !p.Retired? && (IsWaiting(p) ==> IsWaiting(s.threads[t].phase))
    ensures Found(SetPhase(s, t, p))
  {
    var w := s.threads[t].worker;
    assert ThreadOk(s, t);
    OwnStepKeepsFound(s, t, s.workers[w], p);
    assert SetWorker(s, w, s.workers[w]) == s;
  }

  /** Enqueueing to a worker that waits either gives it something or puts a thread in charge. */
  lemma EnqueueKeepsFound(s: State, w: nat, tasks: seq<Task>, v: nat)
    requires Inv(s) && w < |s.workers| && tasks != [] && v < |s.workers|
    requires Waits(s, v) && v != w ==> CanBeFound(s, v)
    ensures Waits(EnqueueAt(s, w, tasks), v) ==> CanBeFound(EnqueueAt(s, w, tasks), v)
  {
    assert WorkerOk(s, v);
    SumAppend(s.threads, Thread(w, AtLock), ClaimsOf(v));
  }

  lemma MarkKeepsFound(s: State, w: nat, y: Worker)
    requires Inv(s) && Found(s) && w < |s.workers|
    requires y == s.workers[w].(marked := y.marked, claims := y.claims, tokens := y.tokens, releases := y.releases)
    requires s.workers[w].marked || s.workers[w].claims > 0 ==> y.marked || y.claims > 0
    ensures Found(SetWorker(s, w, y))
  {
    var s' := SetWorker(s, w, y);
    forall v: nat | v < |s'.workers| && Waits(s', v) ensures CanBeFound(s', v) {
      assert Waits(s, v);
    }
  }

  /** Whoever takes the mark of a worker away to donate to it has claimed it. */
  lemma ClaimKeepsFound(s: State, t: nat, w: nat)
    requires Inv(s) && Found(s) && Enabled(s, Claim(t, w))
    ensures Found(Next(s, Claim(t, w)))
  {
    var s1 := SetWorker(s, w, ClaimedBy(s.workers[w], 0));
    var claimed: seq<nat> := s.threads[t].phase.claimed;
    var one: seq<nat> := [w];
    var p := Balancing(claimed + one);
    var s' := Next(s, Claim(t, w));
    MarkKeepsInv(s, w, s1.workers[w]);
    ClaimKeepsInv(s, t, w);
    OwnWait(s', t);
    forall v: nat | v < |s'.workers| && Waits(s', v) ensures CanBeFound(s', v) {
      DonorsAfter(s1, t, p, v);
      DonorsNatural(s, v);
      assert Donors(s1, v) == Donors(s, v);
      assert multiset(claimed + one)[v] == multiset(claimed)[v] + multiset(one)[v];
      OthersWait(s1, t, s1.workers[s.threads[t].worker], p, v);
      assert SetWorker(s1, s.threads[t].worker, s1.workers[s.threads[t].worker]) == s1;
      if v != w { assert Waits(s, v); }
    }
  }

  /** A donation gives the worker something in place of the claim. */
  lemma DonateKeepsFound(s: State, t: nat, plan: seq<Donation>)
    requires Inv(s) && Found(s) && Enabled(s, Step(t)) && s.threads[t].phase == Donating(plan) && plan != []
    ensures Found(Donate(s, t, plan))
  {
    var w := s.threads[t].worker;
    assert ThreadOk(s, t) && WorkerOk(s, w);
    var x, d, p := s.workers[w], plan[0], Donating(plan[1..]);
    var y := x.(privateQueue := x.privateQueue[d.size..]);
    var s1 := SetPhase(SetWorker(s, w, y), t, p);
    DonationKeepsInv(s, t, plan);
    var one: seq<nat> := [d.target];
    assert Targets(plan) == one + Targets(plan[1..]);
    OwnWait(s1, t);
    forall v: nat | v < |s.workers| && Waits(Donate(s, t, plan), v) ensures CanBeFound(Donate(s, t, plan), v) {
      DonorsAfter(SetWorker(s, w, y), t, p, v);
      assert multiset(Targets(plan))[v] == multiset(one)[v] + multiset(Targets(plan[1..]))[v];
      if v != w { OthersWait(s, t, y, p, v); }
      EnqueueKeepsFound(s1, d.target, x.privateQueue[..d.size], v);
    }
  }

  lemma ThreadStepKeepsFound(s: State, t: nat)
    requires Inv(s) && Found(s) && Enabled(s, Step(t))
    ensures Found(ThreadStep(s, t))
  {
    var y := s.workers[s.threads[t].worker];
    assert ThreadOk(s, t);
    match s.threads[t].phase
    case AtLock => if y.publicQueue == [] { OwnPhaseKeepsFound(s, t, Marking); } else { TakeOverKeepsFound(s, t); }
    case Marking => OwnStepKeepsFound(s, t, y.(marked := true), Sleeping);
    case Sleeping => OwnStepKeepsFound(s, t, y.(tokens := y.tokens - 1), Acquired);
    case Acquired => OwnPhaseKeepsFound(s, t, if y.found then Relocking else Sleeping);
    case Relocking => if y.publicQueue == [] { OwnPhaseKeepsFound(s, t, Sleeping); } else { TakeOverKeepsFound(s, t); }
    case TimedOut => OwnStepKeepsFound(s, t, y.(idle := true, stranded := y.publicQueue != []), Retired);
    case Balancing(_) => OwnPhaseKeepsFound(s, t, AtLock);
    case Donating(plan) => if plan == [] { OwnPhaseKeepsFound(s, t, Taking); } else { DonateKeepsFound(s, t, plan); }
    case Taking =>
      OwnStepKeepsFound(s, t, TakeTask(s, t).workers[s.threads[t].worker], TakeTask(s, t).threads[t].phase);
    case Running(_) => FinishKeepsFound(s, t);
  }

  lemma TakeOverKeepsFound(s: State, t: nat)
    requires Inv(s) && Found(s) && Enabled(s, Step(t)) && (s.threads[t].phase.AtLock? || s.threads[t].phase.Relocking?)
    ensures Found(TakeOver(s, t))
  {
    assert ThreadOk(s, t);
    var w := s.threads[t].worker;
    var x := TakeOver(s, t).workers[w];
    OwnStepKeepsFound(s, t, x, Balancing([]));
    SameFound(SetPhase(SetWorker(s, w, x), t, Balancing([])), TakeOver(s, t));
  }

  lemma FinishKeepsFound(s: State, t: nat)
    requires Inv(s) && Found(s) && Enabled(s, Step(t)) && s.threads[t].phase.Running?
    ensures Found(ThreadStep(s, t))
  {
    OwnPhaseKeepsFound(s, t, Balancing([]));
    SameFound(SetPhase(s, t, Balancing([])), ThreadStep(s, t));
  }

  lemma SameFound(s: State, s': State)
    requires Found(s) && s'.workers == s.workers && s'.threads == s.threads
    ensures Found(s')
  {
    forall v: nat | v < |s'.workers| && Waits(s', v) ensures CanBeFound(s', v) {
      assert Waits(s, v) && CanBeFound(s, v);
    }
  }

  lemma EnqueuedKeepsFound(s: State, w: nat, tasks: seq<Task>)
    requires Inv(s) && w < |s.workers| && tasks != []
    requires forall v: nat | v < |s.workers| && v != w && Waits(s, v) :: CanBeFound(s, v)
    ensures Found(EnqueueAt(s, w, tasks))
  {
    var s' := EnqueueAt(s, w, tasks);
    forall v: nat | v < |s'.workers| && Waits(s', v) ensures CanBeFound(s', v) { EnqueueKeepsFound(s, w, tasks, v); }
  }

  /** An enqueuer that has claimed the worker needs the claim no more. */
  lemma EnqueueClaimedKeepsFound(s: State, w: nat, count: nat)
    requires Inv(s) && Found(s) && Enabled(s, EnqueueClaimed(w, count))
    ensures Found(Next(s, EnqueueClaimed(w, count)))
  {
    var s1 := SetWorker(s, w, s.workers[w].(claims := s.workers[w].claims - 1));
    MarkKeepsInv(s, w, s1.workers[w]);
    forall v: nat | v < |s1.workers| && v != w && Waits(s1, v) ensures CanBeFound(s1, v) { assert Waits(s, v); }
    EnqueuedKeepsFound(s1, w, Fresh(s.next, count));
    SameFound(EnqueueAt(s1, w, Fresh(s.next, count)), Next(s, EnqueueClaimed(w, count)));
  }

  lemma EnqueueLocalKeepsFound(s: State, t: nat, count: nat)
    requires Inv(s) && Found(s) && Enabled(s, EnqueueLocal(t, count))
    ensures Found(Next(s, EnqueueLocal(t, count)))
  {
    var s' := Next(s, EnqueueLocal(t, count));
    forall v: nat | v < |s'.workers| && Waits(s', v) ensures CanBeFound(s', v) {
      assert Waits(s, v) && CanBeFound(s, v);
    }
  }

  lemma BalanceKeepsFound(s: State, t: nat)
    requires Inv(s) && Found(s) && Enabled(s, Balance(t))
    ensures Found(Next(s, Balance(t)))
  {
    assert ThreadOk(s, t);
    PlanKeepsOne(s.threads[t].phase.claimed, |s.workers[s.threads[t].worker].privateQueue|);
    OwnPhaseKeepsFound(s, t, Next(s, Balance(t)).threads[t].phase);
  }

  lemma StepKeepsFound(s: State, a: Action)
    requires Inv(s) && Found(s) && Enabled(s, a)
    ensures Found(Next(s, a))
  {
    match a
    case Enqueue(w, count) =>
      EnqueuedKeepsFound(s, w, Fresh(s.next, count));
      SameFound(EnqueueAt(s, w, Fresh(s.next, count)), Next(s, a));
    case ClaimFor(w) => MarkKeepsFound(s, w, ClaimedBy(s.workers[w], 1));
    case EnqueueClaimed(w, count) => EnqueueClaimedKeepsFound(s, w, count);
    case Release(w) => MarkKeepsFound(s, w, Released(s.workers[w]));
    case EnqueueLocal(t, count) => EnqueueLocalKeepsFound(s, t, count);
    case Timeout(t) => OwnPhaseKeepsFound(s, t, TimedOut);
    case Claim(t, w) => ClaimKeepsFound(s, t, w);
    case Balance(t) => BalanceKeepsFound(s, t);
    case Step(t) => ThreadStepKeepsFound(s, t);
  }

  lemma {:induction false} RunKeepsFound(s: State, trace: seq<Action>, t: State)
    requires Inv(s) && Found(s) && Executes(s, trace, t)
    ensures Found(t)
    decreases |trace|
  {
    if trace != [] {
      StepKeepsInv(s, trace[0]);
      StepKeepsFound(s, trace[0]);
      RunKeepsFound(Next(s, trace[0]), trace[1..], t);
    }
  }

  lemma ReachableFound(t: State)
    requires Reachable(t)
    ensures Found(t)
  {
    var s, trace :| Init(s) && Executes(s, trace, t);
    InitInv(s);
    RunKeepsFound(s, trace, t);
  }

  // ---------------------------------------------------------------- theorems about every run

  /** The thread has claimed the worker and is going to donate to it. */
  ghost predicate WillDonateTo(t: State, u: nat, w: nat) {
    && u < |t.threads|
    && match t.threads[u].phase
       case Balancing(claimed) => w in claimed
       case Donating(plan) => w in Targets(plan)
       case _ => false
  }

  /**
   In every run of any number of workers, one that waits is marked idle, or claimed by an enqueuer
   that has still to enqueue to it, or claimed by a thread that has still to donate to it, or it has
   something in its public queue already.
   */
  lemma WaitersCanBeFound(t: State, w: nat)
    requires Reachable(t) && w < |t.workers| && Waits(t, w)
    ensures || t.workers[w].marked || t.workers[w].claims > 0 || t.workers[w].publicQueue != []
            || exists u: nat :: WillDonateTo(t, u, w)
  {
    ReachableFound(t);
    if Donors(t, w) > 0 && forall u: nat :: !WillDonateTo(t, u, w) {
      forall x | x in t.threads ensures ClaimsOf(w)(x) == 0 {
        var u: nat :| u < |t.threads| && t.threads[u] == x;
        assert !WillDonateTo(t, u, w);
      }
      SumZero(t.threads, ClaimsOf(w));
    }
  }

  /** At rest, with nobody about to enqueue, every worker is marked idle unless its queue is stranded. */
  lemma MarkedAtRest(t: State, w: nat)
    requires Reachable(t) && Quiet(t) && w < |t.workers| && t.workers[w].claims == 0
    ensures t.workers[w].marked || Stranded(t, w)
  {
    ReachableInv(t);
    ReachableFound(t);
    QuietWorker(t, w);
    assert WorkerOk(t, w);
    if !t.workers[w].idle { QuietThread(t, t.workers[w].thread.value); }
    WaitersCanBeFound(t, w);
    if u: nat :| WillDonateTo(t, u, w) { QuietThread(t, u); }
  }

  /** A thread about to sleep sets its mark; a claim takes it, and so does a thread that was woken up for something. */
  lemma MarksChange(s: State, a: Action, w: nat)
    requires Inv(s) && Enabled(s, a) && w < |s.workers|
    ensures |Next(s, a).workers| == |s.workers|
    ensures Next(s, a).workers[w].marked <==>
              || (a.Step? && s.threads[a.t].worker == w && s.threads[a.t].phase.Marking?)
              || (s.workers[w].marked && !((a.ClaimFor? || a.Claim?) && a.w == w)
                  && !(a.Step? && s.threads[a.t].worker == w && s.threads[a.t].phase.Relocking?
                       && s.workers[w].publicQueue != []))
  {
    if a.Step? { assert ThreadOk(s, a.t); }
  }

  /** The mark may be wrong the other way: a worker that is busy can be marked idle, and be given more. */
  lemma BusyButMarked()
    ensures exists t :: Reachable(t) && |t.workers| == 1 && t.workers[0].marked && !Waits(t, 0)
  {
    StartThread();
    assert !Waits(Alone(BUSY.(privateQueue := [0]), Balancing([]), [], 1), 0);
  }
}
