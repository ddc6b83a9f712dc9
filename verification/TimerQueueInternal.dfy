/** The requests that the owners of timers hand to the timer worker. */
module TimerRequests {
  datatype Request<T> = Add(timer: T) | Remove(timer: T)

  /** What a queue of requests makes of a set of timers. */
  ghost function Apply<T>(contents: set<T>, queue: seq<Request<T>>): set<T> {
    if queue == [] then contents
    else
      var before := Apply(contents, queue[..|queue| - 1]);
      match queue[|queue| - 1]
      case Add(t) => before + {t}
      case Remove(t) => before - {t}
  }

  /** The last request about a timer is to add it, or there is none and it was there before. */
  ghost predicate EndsUpIn<T>(t: T, contents: set<T>, queue: seq<Request<T>>) {
    || (exists k | 0 <= k < |queue| :: queue[k] == Add(t) && NotNamedFrom(t, queue, k + 1))
    || (t in contents && NotNamedFrom(t, queue, 0))
  }

  ghost predicate NotNamedFrom<T>(t: T, queue: seq<Request<T>>, k: nat) {
    forall j | k <= j < |queue| :: queue[j].timer != t
  }

  /** Every request takes effect: the last one about a timer decides. */
  lemma {:induction false} LastRequestDecides<T>(t: T, contents: set<T>, queue: seq<Request<T>>)
    ensures t in Apply(contents, queue) <==> EndsUpIn(t, contents, queue)
  {
    if queue != [] {
      var last := |queue| - 1;
      var before := queue[..last];
      LastRequestDecides(t, contents, before);
      if queue[last].timer == t {
        assert queue[last].Add? ==> queue[last] == Add(t) && NotNamedFrom(t, queue, |queue|);
      } else {
        forall k: nat | k <= last ensures NotNamedFrom(t, queue, k) <==> NotNamedFrom(t, before, k) {}
        if EndsUpIn(t, contents, before) && !(t in contents && NotNamedFrom(t, before, 0)) {
          var k :| 0 <= k < |before| && before[k] == Add(t) && NotNamedFrom(t, before, k + 1);
          assert queue[k] == Add(t) && NotNamedFrom(t, queue, k + 1);
        }
        if EndsUpIn(t, contents, queue) && !(t in contents && NotNamedFrom(t, queue, 0)) {
          var k :| 0 <= k < |queue| && queue[k] == Add(t) && NotNamedFrom(t, queue, k + 1);
          assert before[k] == Add(t) && NotNamedFrom(t, before, k + 1);
        }
      }
    }
  }
}

/**
 The state of the timer worker: the timers ordered by deadline, and an index from each timer to
 its place in that order. Firing a timer rewrites its deadline, so it is taken out, fired and put
 back while the order is being scanned.
 */
module TimerQueueInternal {
  import opened Prelude
  import opened TimerRequests

  /** Time is counted in milliseconds. */
  const DAY: int := 24 * 60 * 60 * 1000

  class TimerState {
    const oneshot: bool
    var deadline: int
    var frequency: nat
    var cancelled: bool

    constructor (oneshot: bool, deadline: int, frequency: nat)
      ensures this.oneshot == oneshot && this.deadline == deadline && this.frequency == frequency && !cancelled
    {
      this.oneshot, this.deadline, this.frequency, cancelled := oneshot, deadline, frequency, false;
    }

    method Fire(now: int)
      modifies this`deadline
      ensures deadline == now + frequency
    {
      deadline := now + frequency;
    }

    /** Interference: the owner of the timer cancels it, or gives it another frequency, or does nothing. */
    method OwnerMoves(m: Move)
      modifies `cancelled, `frequency
      ensures cancelled == (old(cancelled) || m.cancel)
      ensures frequency == m.Frequency(old(frequency))
    {
      if m.cancel { cancelled := true; }
      if m.frequency.Some? { frequency := m.frequency.value; }
    }
  }

  /** What the owner of a timer does before its turn in a scan. */
  datatype Move = Move(cancel: bool, frequency: Option<nat>) {
    function Frequency(before: nat): nat { if frequency.Some? then frequency.value else before }
  }

  /** A timer is added once only, and removed once it is cancelled. */
  ghost predicate Admissible(contents: set<TimerState>, queue: seq<Request<TimerState>>)
    reads set r | r in queue :: r.timer
  {
    forall k | 0 <= k < |queue| ::
      match queue[k]
      case Add(t) => t !in Apply(contents, queue[..k])
      case Remove(t) => t.oneshot || t.cancelled
  }

  ghost predicate Monotone(clock: nat -> int) {
    forall i, j | 0 <= i <= j :: clock(i) <= clock(j)
  }

  /** Whenever a regular timer is fired, from this reading of the clock on, its next deadline is after `now`. */
  ghost predicate NeverDueAgain(timers: set<TimerState>, now: int, clock: nat -> int, tick: nat, owner: nat -> Move)
    reads timers
  {
    forall t, i: nat, k: nat | t in timers && !t.oneshot && i >= tick ::
      now < clock(i) + owner(k).Frequency(t.frequency)
  }

  /** Positive frequencies are enough, with a clock that does not go back. */
  lemma PositiveFrequenciesSuffice(timers: set<TimerState>, clock: nat -> int, tick: nat, owner: nat -> Move)
    requires Monotone(clock) && forall t | t in timers && !t.oneshot :: t.frequency > 0
    requires forall k: nat :: owner(k).frequency != Some(0)
    ensures NeverDueAgain(timers, clock(tick), clock, tick + 1, owner)
  {
    forall t, i: nat, k: nat | t in timers && !t.oneshot && i >= tick + 1
      ensures clock(tick) < clock(i) + owner(k).Frequency(t.frequency)
    {
      assert clock(tick) <= clock(i) && owner(k).frequency != Some(0);
    }
  }

  /** So is a clock that has advanced between two readings, with any frequencies. */
  lemma AdvancingClockSuffices(timers: set<TimerState>, clock: nat -> int, tick: nat, owner: nat -> Move)
    requires Monotone(clock) && clock(tick) < clock(tick + 1)
    ensures NeverDueAgain(timers, clock(tick), clock, tick + 1, owner)
  {
    forall t, i: nat, k: nat | t in timers && !t.oneshot && i >= tick + 1
      ensures clock(tick) < clock(i) + owner(k).Frequency(t.frequency)
    {
      assert clock(tick + 1) <= clock(i);
    }
  }

  /** A node of the ordered multiset: the address that iterators hold, and the timer in it. */
  datatype Node = Node(id: nat, timer: TimerState)

  /** A bound on the turns of a scan: the clock readings before the `late`-th one, and the timers that are due. */
  ghost function TurnsLeft(late: nat, ticks: nat, due: nat): nat { due + if ticks < late then late - ticks else 0 }

  ghost predicate Holds(order: seq<Node>, t: TimerState) {
    exists i | 0 <= i < |order| :: order[i].timer == t
  }

  ghost predicate Points(order: seq<Node>, mapper: map<TimerState, nat>, next: nat) {
    forall i | 0 <= i < |order| ::
      order[i].timer in mapper && mapper[order[i].timer] == order[i].id && order[i].id < next
  }

  ghost predicate Distinct(order: seq<Node>) {
    forall i, j | 0 <= i < j < |order| :: order[i].id != order[j].id
  }

  ghost predicate Covers(order: seq<Node>, mapper: map<TimerState, nat>) {
    forall t | t in mapper :: Holds(order, t)
  }

  /** The index holds exactly the timers of the order and finds the node of each. */
  ghost predicate Indexed(order: seq<Node>, mapper: map<TimerState, nat>, next: nat) {
    Points(order, mapper, next) && Distinct(order) && Covers(order, mapper)
  }

  ghost predicate Sorted(order: seq<Node>, timers: set<TimerState>)
    requires forall i | 0 <= i < |order| :: order[i].timer in timers
    reads timers
  {
    forall i, j | 0 <= i < j < |order| :: order[i].timer.deadline <= order[j].timer.deadline
  }

  function InsertAt(order: seq<Node>, k: nat, n: Node): seq<Node>
    requires k <= |order|
  {
    order[..k] + [n] + order[k..]
  }

  function RemoveAt(order: seq<Node>, k: nat): seq<Node>
    requires k < |order|
  {
    order[..k] + order[k + 1..]
  }

  /** Which node is at this place when `n` has been inserted at place k. */
  ghost function Inserted(order: seq<Node>, k: nat, n: Node, i: nat): Node
    requires i <= |order| && k <= |order|
  {
    if i < k then order[i] else if i == k then n else order[i - 1]
  }

  lemma InsertAtIndex(order: seq<Node>, k: nat, n: Node)
    requires k <= |order|
    ensures forall i: nat | i <= |order| :: InsertAt(order, k, n)[i] == Inserted(order, k, n, i)
  {
  }

  lemma GrowKeepsDistinct(order: seq<Node>, mapper: map<TimerState, nat>, next: nat, k: nat,
                          t: TimerState, after: seq<Node>)
    requires Points(order, mapper, next) && Distinct(order) && k <= |order| && |after| == |order| + 1
    requires forall i: nat | i < |after| :: after[i] == Inserted(order, k, Node(next, t), i)
    ensures Distinct(after)
  {
  }

  lemma GrowKeepsCovers(order: seq<Node>, mapper: map<TimerState, nat>, next: nat, k: nat,
                        t: TimerState, after: seq<Node>)
    requires Covers(order, mapper) && k <= |order| && |after| == |order| + 1
    requires forall i: nat | i < |after| :: after[i] == Inserted(order, k, Node(next, t), i)
    ensures Covers(after, mapper[t := next])
  {
    assert after[k] == Node(next, t);
    forall u | u in mapper ensures Holds(after, u) {
      assert Holds(order, u);
      var i :| 0 <= i < |order| && order[i].timer == u;
      assert after[if i < k then i else i + 1] == order[i];
    }
  }

  lemma InsertKeepsIndexed(order: seq<Node>, mapper: map<TimerState, nat>, next: nat, k: nat, t: TimerState)
    requires Indexed(order, mapper, next) && t !in mapper && k <= |order|
    ensures Indexed(InsertAt(order, k, Node(next, t)), mapper[t := next], next + 1)
  {
    var after := InsertAt(order, k, Node(next, t));
    InsertAtIndex(order, k, Node(next, t));
    GrowKeepsDistinct(order, mapper, next, k, t, after);
    GrowKeepsCovers(order, mapper, next, k, t, after);
  }

  /** Which node of the old order is at this place of the new one. */
  ghost function Skip(i: nat, k: nat): nat { if i < k then i else i + 1 }

  lemma RemoveAtIndex(order: seq<Node>, k: nat)
    requires k < |order|
    ensures forall i | 0 <= i < |order| - 1 :: RemoveAt(order, k)[i] == order[Skip(i, k)]
  {
  }

  lemma SkipKeepsIndexed(order: seq<Node>, after: seq<Node>, mapper: map<TimerState, nat>, next: nat, k: nat)
    requires Indexed(order, mapper, next) && k < |order| && |after| == |order| - 1
    requires forall i | 0 <= i < |after| :: after[i] == order[Skip(i, k)]
    ensures Indexed(after, mapper - {order[k].timer}, next)
  {
    forall u | u in mapper && u != order[k].timer ensures Holds(after, u) {
      assert Holds(order, u);
      var i :| 0 <= i < |order| && order[i].timer == u;
      assert after[if i < k then i else i - 1] == order[i];
    }
  }

  lemma RemoveKeepsIndexed(order: seq<Node>, mapper: map<TimerState, nat>, next: nat, k: nat)
    requires Indexed(order, mapper, next) && k < |order|
    ensures forall i | 0 <= i < |order| - 1 :: RemoveAt(order, k)[i] == order[Skip(i, k)]
    ensures Indexed(RemoveAt(order, k), mapper - {order[k].timer}, next)
  {
    RemoveAtIndex(order, k);
    SkipKeepsIndexed(order, RemoveAt(order, k), mapper, next, k);
  }

  lemma RemoveKeepsSorted(order: seq<Node>, after: seq<Node>, timers: set<TimerState>, fewer: set<TimerState>, k: nat)
    requires k < |order| && |after| == |order| - 1
    requires forall i | 0 <= i < |after| :: after[i] == order[Skip(i, k)]
    requires forall i | 0 <= i < |order| :: order[i].timer in timers
    requires forall i | 0 <= i < |after| :: after[i].timer in fewer
    requires Sorted(order, timers)
    ensures Sorted(after, fewer)
  {
  }

  /**
   How far a scan has come: `pending` is still to be looked at, `fired` and `dropped` were due,
   and no pending timer is due before a fired one. `due` holds the deadlines before the scan.
   */
  ghost predicate Scanned(due: map<TimerState, int>, now: int, pending: set<TimerState>,
                          fired: seq<TimerState>, dropped: seq<TimerState>)
  {
    && pending <= due.Keys
    && (forall t | t in pending :: t !in fired && t !in dropped)
    && (forall t | t in due && t !in pending :: t in fired || t in dropped)
    && (forall t | t in fired :: t in due && due[t] <= now && t !in dropped)
    && (forall t | t in dropped :: t in due && due[t] <= now)
    && (forall i, j | 0 <= i < j < |fired| :: fired[i] != fired[j] && due[fired[i]] <= due[fired[j]])
    && (forall t, u | t in fired && u in pending :: due[t] <= due[u])
  }

  /** How far a scan has come, all in one. */
  datatype Progress = Progress(
    pending: set<TimerState>,
    kept: set<TimerState>,
    discarded: set<TimerState>,
    fired: seq<TimerState>,
    dropped: seq<TimerState>)

  /** What has become of the timers that were fired or dropped. */
  ghost predicate Sifted(due: map<TimerState, int>, flags: map<TimerState, bool>,
                         kept: set<TimerState>, discarded: set<TimerState>,
                         fired: seq<TimerState>, dropped: seq<TimerState>)
  {
    && (forall t | t in due :: t in kept <==> t in fired && !t.oneshot)
    && (forall t | t in fired :: t in flags && !flags[t])
    && (forall t | t in dropped :: t in discarded)
  }

  lemma SiftedOne(due: map<TimerState, int>, flags: map<TimerState, bool>,
                  kept: set<TimerState>, discarded: set<TimerState>,
                  fired: seq<TimerState>, dropped: seq<TimerState>, t: TimerState, yes: bool)
    requires Sifted(due, flags, kept, discarded, fired, dropped) && t in flags && (yes ==> !flags[t])
    ensures Sifted(due, flags,
                   if yes && !t.oneshot then kept + {t} else kept, if yes then discarded else discarded + {t},
                   if yes then fired + [t] else fired, if yes then dropped else dropped + [t])
  {
  }

  lemma ScannedOne(due: map<TimerState, int>, now: int, pending: set<TimerState>,
                   fired: seq<TimerState>, dropped: seq<TimerState>, t: TimerState)
    requires Scanned(due, now, pending, fired, dropped) && t in pending && due[t] <= now
    requires forall u | u in pending :: due[t] <= due[u]
    ensures Scanned(due, now, pending - {t}, fired + [t], dropped)
    ensures Scanned(due, now, pending - {t}, fired, dropped + [t])
  {
  }

  /** A pending timer has had its turn. */
  ghost function Advanced(g: Progress, t: TimerState, yes: bool): Progress {
    if yes then
      Progress(g.pending - {t}, if t.oneshot then g.kept else g.kept + {t}, g.discarded, g.fired + [t], g.dropped)
    else
      Progress(g.pending - {t}, g.kept, g.discarded + {t}, g.fired, g.dropped + [t])
  }

  lemma AdvancedOne(due: map<TimerState, int>, flags: map<TimerState, bool>, now: int,
                    g: Progress, t: TimerState, yes: bool)
    requires Scanned(due, now, g.pending, g.fired, g.dropped)
    requires Sifted(due, flags, g.kept, g.discarded, g.fired, g.dropped)
    requires t in g.pending && due[t] <= now && (forall u | u in g.pending :: due[t] <= due[u])
    requires t in flags && (yes ==> !flags[t])
    ensures var g' := Advanced(g, t, yes);
            && Scanned(due, now, g'.pending, g'.fired, g'.dropped)
            && Sifted(due, flags, g'.kept, g'.discarded, g'.fired, g'.dropped)
  {
    ScannedOne(due, now, g.pending, g.fired, g.dropped, t);
    SiftedOne(due, flags, g.kept, g.discarded, g.fired, g.dropped, t, yes);
  }

  class TimerQueueInternal {
    var order: seq<Node>                  // the multiset, ordered by deadline
    var mapper: map<TimerState, nat>      // from each timer to its node
    var nextNode: nat
    var ticks: nat                        // how often the clock has been read

    /** The timers in the queue are the keys of the index; all of them are in the order, sorted. */
    ghost predicate Valid()
      reads this, mapper.Keys
    {
      Indexed(order, mapper, nextNode) && Sorted(order, mapper.Keys)
    }

    constructor ()
      ensures Valid() && order == [] && mapper == map[]
    {
      order, mapper, nextNode, ticks := [], map[], 0, 0;
    }

    /** Puts the timer into a new node behind everything that is due no later. */
    method Emplace(t: TimerState, ghost timers: set<TimerState>) returns (node: nat, ghost k: nat)
      requires t in timers && forall i | 0 <= i < |order| :: order[i].timer in timers
      requires Sorted(order, timers)
      modifies this`order, this`nextNode
      ensures k <= |old(order)| && order == InsertAt(old(order), k, Node(node, t))
      ensures (forall i | 0 <= i < |order| :: order[i].timer in timers) && Sorted(order, timers)
      ensures node == old(nextNode) && nextNode == node + 1
      ensures forall i | 0 <= i < k :: old(order)[i].timer.deadline <= t.deadline
      ensures forall i | k <= i < |old(order)| :: t.deadline < old(order)[i].timer.deadline
    {
      var p := 0;
      while p < |order| && order[p].timer.deadline <= t.deadline
        invariant 0 <= p <= |order|
        invariant forall i | 0 <= i < p :: order[i].timer.deadline <= t.deadline
      {
        p := p + 1;
      }
      node, k := nextNode, p;
      order := InsertAt(order, p, Node(node, t));
      nextNode := nextNode + 1;
    }

    method AddTimer(t: TimerState)
      requires Valid() && t !in mapper
      modifies this`order, this`nextNode, this`mapper
      ensures Valid() && mapper.Keys == old(mapper.Keys) + {t}
    {
      var node, k := Emplace(t, mapper.Keys + {t});
      InsertKeepsIndexed(old(order), mapper, node, k, t);
      assert mapper[t := node].Keys == mapper.Keys + {t};
      mapper := mapper[t := node];
    }

    /** Removes a timer through the index; a timer that is no longer there is left alone. */
    method RemoveTimer(t: TimerState)
      requires Valid() && (t in mapper || t.oneshot || t.cancelled)
      modifies this`order, this`mapper
      ensures Valid() && mapper.Keys == old(mapper.Keys) - {t}
    {
      if t !in mapper {
        assert t.oneshot || t.cancelled;
        return;
      }
      var p := Locate(t);
      Erase(t, p);
      Forget(t);
    }

    method Forget(t: TimerState)
      requires ValidBut(t)
      modifies this`mapper
      ensures Valid() && mapper.Keys == old(mapper.Keys) - {t}
    {
      mapper := mapper - {t};
    }

    /** Takes a node out of the order; the index is left for the caller to adjust. */
    method Erase(t: TimerState, p: nat)
      requires Valid() && p < |order| && order[p].timer == t
      modifies this`order
      ensures ValidBut(t)
    {
      RemoveKeepsIndexed(order, mapper, nextNode, p);
      RemoveKeepsSorted(order, RemoveAt(order, p), mapper.Keys, mapper.Keys - {t}, p);
      order := RemoveAt(order, p);
    }

    /** Where the node is that the index holds for a timer. */
    method Locate(t: TimerState) returns (p: nat)
      requires Valid() && t in mapper
      ensures p < |order| && order[p].timer == t
    {
      p := 0;
      assert Holds(order, t);
      while order[p].id != mapper[t]
        invariant 0 <= p < |order|
        invariant exists i | p <= i < |order| :: order[i].timer == t
        decreases |order| - p
      {
        p := p + 1;
      }
    }

    method ProcessRequestQueue(queue: seq<Request<TimerState>>)
      requires Valid() && Admissible(mapper.Keys, queue)
      modifies this`order, this`nextNode, this`mapper
      ensures Valid() && mapper.Keys == Apply(old(mapper.Keys), queue)
      ensures forall t :: t in mapper <==> EndsUpIn(t, old(mapper.Keys), queue)
    {
      for k := 0 to |queue|
        invariant Valid() && mapper.Keys == Apply(old(mapper.Keys), queue[..k])
      {
        assert queue[..k + 1][..k] == queue[..k];
        match queue[k]
        case Add(t) => AddTimer(t);
        case Remove(t) => RemoveTimer(t);
      }
      assert queue[..|queue|] == queue;
      forall t ensures t in mapper <==> EndsUpIn(t, old(mapper.Keys), queue) {
        LastRequestDecides(t, old(mapper.Keys), queue);
      }
    }

    /** Between extraction and re-insertion the index still points to the node taken out. */
    ghost predicate ValidBut(t: TimerState)
      reads this, mapper.Keys - {t}
    {
      t in mapper && Indexed(order, mapper - {t}, nextNode) && Sorted(order, mapper.Keys - {t})
    }

    /** Regular timers go back behind everything that is due no later. */
    method Reinsert(t: TimerState)
      requires ValidBut(t)
      modifies this`order, this`nextNode, this`mapper
      ensures Valid() && mapper.Keys == old(mapper.Keys)
    {
      var node, k := Emplace(t, mapper.Keys);
      InsertKeepsIndexed(old(order), mapper - {t}, node, k, t);
      assert (mapper - {t})[t := node] == mapper[t := node];
      mapper := mapper[t := node];
    }

    method FireUnlessCancelled(t: TimerState, clock: nat -> int, move: Move) returns (fired: bool)
      requires ValidBut(t)
      modifies this`ticks, t
      ensures ValidBut(t)
      ensures fired == !(old(t.cancelled) || move.cancel) && t.cancelled == !fired
      ensures t.frequency == move.Frequency(old(t.frequency))
      ensures ticks == old(ticks) + if fired then 1 else 0
      ensures t.deadline == if fired then clock(old(ticks)) + t.frequency else old(t.deadline)
    {
      t.OwnerMoves(move);
      fired := !t.cancelled;
      if fired {
        t.Fire(clock(ticks));
        ticks := ticks + 1;
      }
    }

    /** One turn of the scan: the first timer is fired, unless it is cancelled by now, and goes or stays. */
    method HandleFirst(t: TimerState, clock: nat -> int, move: Move) returns (fired: bool)
      requires Valid() && order != [] && t == order[0].timer
      modifies this, t
      ensures Valid() && ticks == old(ticks) + if fired then 1 else 0
      ensures fired == !(old(t.cancelled) || move.cancel) && t.cancelled == !fired
      ensures t.frequency == move.Frequency(old(t.frequency))
      ensures t.deadline == if fired then clock(old(ticks)) + t.frequency else old(t.deadline)
      ensures mapper.Keys == old(mapper.Keys) - if fired && !t.oneshot then {} else {t}
    {
      Erase(t, 0);
      fired := FireUnlessCancelled(t, clock, move);
      DropOrReinsert(t, t.oneshot || !fired);
    }

    method DropOrReinsert(t: TimerState, drop: bool)
      requires ValidBut(t)
      modifies `order, `nextNode, `mapper
      ensures Valid() && mapper.Keys == old(mapper.Keys) - if drop then {t} else {}
    {
      if drop {
        Forget(t);
      } else {
        Reinsert(t);
      }
    }

    /**
     A timer that was due is due again after its turn, in the same scan, exactly if it is a regular
     timer that was fired and whose next deadline has passed already when it is set.
     */
    method HandleDue(t: TimerState, now: int, clock: nat -> int, move: Move) returns (dueAgain: bool)
      requires Valid() && order != [] && t == order[0].timer && t.deadline <= now
      modifies this, t
      ensures Valid() && dueAgain == (t in mapper && t.deadline <= now)
      ensures dueAgain <==>
                && !t.oneshot && !old(t.cancelled) && !move.cancel
                && clock(old(ticks)) + move.Frequency(old(t.frequency)) <= now
    {
      var fired := HandleFirst(t, clock, move);
      dueAgain := t in mapper && t.deadline <= now;
    }

    /**
     A scan need not end: a regular timer of frequency zero, with a clock that stands still, is due
     again after any number of turns.
     */
    method ScanWithoutEnd(t: TimerState, now: int, clock: nat -> int, turns: nat)
      requires Valid() && mapper.Keys == {t} && !t.oneshot && !t.cancelled && t.deadline <= now
      requires forall i: nat | ticks <= i < ticks + turns :: clock(i) + t.frequency <= now
      modifies this, t
      ensures Valid() && mapper.Keys == {t} && order != [] && order[0].timer == t && t.deadline <= now
      ensures ticks == old(ticks) + turns
    {
      for k := 0 to turns
        invariant Valid() && mapper.Keys == {t} && !t.cancelled && t.deadline <= now
        invariant t.frequency == old(t.frequency) && ticks == old(ticks) + k
      {
        OnlyOne(t);
        var fired := HandleFirst(t, clock, Move(false, None));
      }
      OnlyOne(t);
    }

    lemma OnlyOne(t: TimerState)
      requires Valid() && mapper.Keys == {t}
      ensures order != [] && order[0].timer == t
    {
      assert t in mapper;
      assert Holds(order, t);
      assert order[0].timer in mapper.Keys;
    }

    lemma FirstIsEarliest()
      requires Valid() && order != []
      ensures order[0].timer in mapper
      ensures forall t | t in mapper :: order[0].timer.deadline <= t.deadline
    {
      forall t | t in mapper ensures order[0].timer.deadline <= t.deadline {
        assert Holds(order, t);
      }
    }

    /** The invariant of the scan; `kept` are the timers that went back with a later deadline. */
    ghost predicate InScan(due: map<TimerState, int>, flags: map<TimerState, bool>, now: int,
                           pending: set<TimerState>, kept: set<TimerState>, dropped: set<TimerState>)
      reads this, due.Keys
    {
      && flags.Keys == due.Keys && mapper.Keys == pending + kept
      && pending <= due.Keys && kept <= due.Keys && dropped <= due.Keys && pending !! dropped
      && (forall t | t in pending :: t.deadline == due[t] && t.cancelled == flags[t])
      && (forall t | t in kept :: !t.oneshot && t.deadline > now)
      && (forall t | t in dropped :: t.cancelled)
    }

    /** The timer at the front, if due, is the one of the pending timers that is due first. */
    lemma FirstIsNext(due: map<TimerState, int>, flags: map<TimerState, bool>, now: int,
                      pending: set<TimerState>, kept: set<TimerState>, dropped: set<TimerState>)
      requires Valid() && InScan(due, flags, now, pending, kept, dropped)
      requires order != [] && order[0].timer.deadline <= now
      ensures order[0].timer in pending - kept && due[order[0].timer] <= now
      ensures forall u | u in pending :: due[order[0].timer] <= due[u]
    {
      FirstIsEarliest();
    }

    /** A regular timer that is going to be fired now will not be due again at once. */
    predicate InTime(t: TimerState, now: int, clock: nat -> int, move: Move)
      reads this, t
    {
      !t.oneshot && !t.cancelled && !move.cancel ==> now < clock(ticks) + move.Frequency(t.frequency)
    }

    method Turn(ghost due: map<TimerState, int>, ghost flags: map<TimerState, bool>, now: int,
                ghost pending: set<TimerState>, ghost kept: set<TimerState>, ghost dropped: set<TimerState>,
                t: TimerState, clock: nat -> int, move: Move)
      returns (fired: bool, ghost kept': set<TimerState>, ghost dropped': set<TimerState>)
      requires Valid() && InScan(due, flags, now, pending, kept, dropped)
      requires order != [] && t == order[0].timer && t in pending - kept
      requires InTime(t, now, clock, move)
      modifies this, t
      ensures fired ==> !flags[t]
      ensures kept' == (if fired && !t.oneshot then kept + {t} else kept)
      ensures dropped' == (if fired then dropped else dropped + {t})
      ensures Valid() && old(ticks) <= ticks
      ensures InScan(due, flags, now, pending - {t}, kept', dropped')
    {
      fired := HandleFirst(t, clock, move);
      kept', dropped' := kept, dropped;
      if !fired {
        dropped' := dropped + {t};
      } else if !t.oneshot {
        kept' := kept + {t};
      }
      assert mapper.Keys == (pending - {t}) + kept';
    }

    /**
     What a scan does. Each timer that was due is handled exactly once, in the order of the
     deadlines: fired if its owner has not cancelled it, dropped otherwise. Fired one-shots and
     dropped timers are gone, fired regular timers are due later, all others are untouched.
     */
    ghost predicate ScanDone(due: map<TimerState, int>, flags: map<TimerState, bool>, now: int,
                             fired: seq<TimerState>, dropped: seq<TimerState>)
      requires due.Keys == flags.Keys
      reads this, due.Keys
    {
      && mapper.Keys <= due.Keys
      && (forall t | t in due :: due[t] <= now <==> t in fired || t in dropped)
      && (forall t | t in fired :: t in due && t !in dropped && !flags[t])
      && (forall t | t in dropped :: t in due && t.cancelled)
      && (forall i, j | 0 <= i < j < |fired| :: fired[i] != fired[j] && due[fired[i]] <= due[fired[j]])
      && (forall t | t in due :: t in mapper <==> due[t] > now || (t in fired && !t.oneshot))
      && (forall t | t in due && due[t] > now :: t.deadline == due[t])
      && (forall t | t in mapper :: t.deadline > now)
    }

    ghost predicate Scanning(due: map<TimerState, int>, flags: map<TimerState, bool>, now: int, g: Progress)
      reads this, mapper.Keys, due.Keys
    {
      && Valid() && InScan(due, flags, now, g.pending, g.kept, g.discarded)
      && Scanned(due, now, g.pending, g.fired, g.dropped)
      && Sifted(due, flags, g.kept, g.discarded, g.fired, g.dropped)
    }

    method ScanOne(ghost due: map<TimerState, int>, ghost flags: map<TimerState, bool>, now: int, clock: nat -> int,
                   ghost g: Progress, t: TimerState, move: Move)
      returns (yes: bool, ghost g': Progress)
      requires Scanning(due, flags, now, g) && order != [] && order[0].timer == t && t.deadline <= now
      requires InTime(t, now, clock, move)
      modifies this, t
      ensures Scanning(due, flags, now, g') && old(ticks) <= ticks
      ensures t in g.pending && g'.pending == g.pending - {t}
      ensures g'.fired == g.fired + if yes then [t] else []
      ensures g'.dropped == g.dropped + if yes then [] else [t]
    {
      FirstIsNext(due, flags, now, g.pending, g.kept, g.discarded);
      ghost var kept, discarded;
      yes, kept, discarded := Turn(due, flags, now, g.pending, g.kept, g.discarded, t, clock, move);
      AdvancedOne(due, flags, now, g, t, yes);
      g' := Advanced(g, t, yes);
    }

    /** A turn concerns no other timer, so what holds of the frequencies of the others goes on to hold. */
    method ScanOneInTime(ghost due: map<TimerState, int>, ghost flags: map<TimerState, bool>, now: int,
                         clock: nat -> int, ghost g: Progress, t: TimerState, ghost owner: nat -> Move,
                         ghost k: nat, move: Move)
      returns (yes: bool, ghost g': Progress)
      requires Scanning(due, flags, now, g) && order != [] && order[0].timer == t && t.deadline <= now
      requires NeverDueAgain(g.pending, now, clock, ticks, owner) && move == owner(k) && t in g.pending
      modifies this, t
      ensures Scanning(due, flags, now, g') && NeverDueAgain(g'.pending, now, clock, ticks, owner)
      ensures g'.pending == g.pending - {t}
      ensures g'.fired == g.fired + if yes then [t] else []
      ensures g'.dropped == g.dropped + if yes then [] else [t]
    {
      assert !t.oneshot ==> now < clock(ticks) + owner(k).Frequency(t.frequency);
      yes, g' := ScanOne(due, flags, now, clock, g, t, move);
    }

    /** The k-th timer to have its turn meets the move `owner(k)` of its owner. */
    method FireDue(ghost due: map<TimerState, int>, ghost flags: map<TimerState, bool>, now: int, clock: nat -> int,
                   owner: nat -> Move)
      returns (fired: seq<TimerState>, dropped: seq<TimerState>)
      requires Valid() && InScan(due, flags, now, due.Keys, {}, {})
      requires NeverDueAgain(due.Keys, now, clock, ticks, owner)
      modifies this, due.Keys
      ensures Valid()
      ensures ScanDone(due, flags, now, fired, dropped)
    {
      fired, dropped := [], [];
      ghost var g := Progress(due.Keys, {}, {}, [], []);
      while order != [] && order[0].timer.deadline <= now
        invariant Scanning(due, flags, now, g) && fired == g.fired && dropped == g.dropped
        invariant NeverDueAgain(g.pending, now, clock, ticks, owner)
        decreases |g.pending|
      {
        var t, k := order[0].timer, |fired| + |dropped|;
        FirstIsNext(due, flags, now, g.pending, g.kept, g.discarded);
        var yes;
        yes, g := ScanOneInTime(due, flags, now, clock, g, t, owner, k, owner(k));
        if yes {
          fired := fired + [t];
        } else {
          dropped := dropped + [t];
        }
      }
      ScanEnds(due, flags, now, g.pending, g.kept, g.discarded, fired, dropped);
    }

    /**
     The same loop up to the first timer that is due again at once, whatever the frequencies and the
     clock. Either there is no such timer, and the scan ends as it should, or there is one: a regular
     timer that this scan has fired, still in the queue and due.
     */
    method FireUntilDueAgain(ghost due: map<TimerState, int>, ghost flags: map<TimerState, bool>, now: int,
                             clock: nat -> int, owner: nat -> Move)
      returns (fired: seq<TimerState>, dropped: seq<TimerState>, again: Option<TimerState>)
      requires Valid() && InScan(due, flags, now, due.Keys, {}, {})
      modifies this, due.Keys
      ensures Valid()
      ensures again.None? ==> ScanDone(due, flags, now, fired, dropped)
      ensures again.Some? ==>
                && again.value in due && !again.value.oneshot && again.value in mapper && again.value in fired
                && again.value.deadline <= now
    {
      fired, dropped, again := [], [], None;
      ghost var g := Progress(due.Keys, {}, {}, [], []);
      while order != [] && order[0].timer.deadline <= now
        invariant Scanning(due, flags, now, g) && fired == g.fired && dropped == g.dropped
        decreases |g.pending|
      {
        var t, move := order[0].timer, owner(|fired| + |dropped|);
        FirstIsNext(due, flags, now, g.pending, g.kept, g.discarded);
        if !InTime(t, now, clock, move) {
          var yes := HandleFirst(t, clock, move);
          fired, again := fired + [t], Some(t);
          return;
        }
        var yes;
        yes, g := ScanOne(due, flags, now, clock, g, t, move);
        if yes {
          fired := fired + [t];
        } else {
          dropped := dropped + [t];
        }
      }
      ScanEnds(due, flags, now, g.pending, g.kept, g.discarded, fired, dropped);
    }

    /** The timers of the queue that are due. */
    ghost predicate AreDue(timers: set<TimerState>, now: int)
      reads this, mapper.Keys
    {
      timers <= mapper.Keys && forall t | t in mapper :: t in timers <==> t.deadline <= now
    }

    /** A turn either reads the clock or takes a timer from those that are due; late readings do both. */
    method DueTurn(now: int, clock: nat -> int, move: Move, ghost late: nat, ghost timers: set<TimerState>)
      returns (t: TimerState, ghost left: set<TimerState>)
      requires Valid() && AreDue(timers, now) && order != [] && order[0].timer.deadline <= now
      requires forall i: nat | late <= i :: now < clock(i)
      modifies this, order[0].timer
      ensures t == old(order[0].timer) && Valid() && AreDue(left, now)
      ensures t in timers && timers - {t} <= left <= timers
      ensures old(mapper.Keys) - {t} <= mapper.Keys <= old(mapper.Keys)
      ensures TurnsLeft(late, ticks, |left|) < TurnsLeft(late, old(ticks), |timers|)
    {
      t := order[0].timer;
      FirstIsEarliest();
      var fired := HandleFirst(t, clock, move);
      if t in mapper && t.deadline <= now {
        left := timers;
      } else {
        left := timers - {t};
      }
    }

    /** The timers that were not due are where they were; `rest` are their deadlines. */
    ghost predicate Untouched(rest: map<TimerState, int>)
      reads this, rest.Keys
    {
      rest.Keys <= mapper.Keys && forall t | t in rest :: t.deadline == rest[t]
    }

    method CountedTurn(now: int, clock: nat -> int, move: Move, ghost late: nat, ghost timers: set<TimerState>,
                       ghost rest: map<TimerState, int>)
      returns (t: TimerState, ghost left: set<TimerState>)
      requires Valid() && AreDue(timers, now) && order != [] && order[0].timer.deadline <= now
      requires forall i: nat | late <= i :: now < clock(i)
      requires Untouched(rest) && rest.Keys !! timers
      modifies this, order[0].timer
      ensures Valid() && AreDue(left, now) && Untouched(rest) && mapper.Keys <= old(mapper.Keys)
      ensures t == old(order[0].timer) && t in timers && timers - {t} <= left <= timers
      ensures TurnsLeft(late, ticks, |left|) < TurnsLeft(late, old(ticks), |timers|)
    {
      FirstIsEarliest();
      t, left := DueTurn(now, clock, move, late, timers);
    }

    /**
     The same loop with any frequencies. Once every reading of the clock is after the beginning of the
     scan, as from the `late`-th one here, the scan ends: after no more turns than there are earlier
     readings to come and timers that are due. It has then handled the timers that were due, some of
     them perhaps several times, and no other: `rest` are the deadlines of the others.
     */
    method FireUntilClockAdvances(now: int, clock: nat -> int, owner: nat -> Move, ghost late: nat,
                                  ghost timers: set<TimerState>, ghost rest: map<TimerState, int>)
      returns (handled: seq<TimerState>)
      requires Valid() && AreDue(timers, now) && Untouched(rest) && rest.Keys == mapper.Keys - timers
      requires forall i: nat | late <= i :: now < clock(i)
      modifies this, mapper.Keys
      ensures Valid() && Untouched(rest) && mapper.Keys <= old(mapper.Keys)
      ensures forall t | t in mapper :: t.deadline > now
      ensures |handled| <= TurnsLeft(late, old(ticks), |timers|)
      ensures (forall t | t in handled :: t in timers) && forall t | t in timers :: t in handled
    {
      handled := [];
      ghost var left := timers;
      while order != [] && order[0].timer.deadline <= now
        invariant Valid() && AreDue(left, now) && Untouched(rest) && mapper.Keys <= old(mapper.Keys)
        invariant |handled| + TurnsLeft(late, ticks, |left|) <= TurnsLeft(late, old(ticks), |timers|)
        invariant left <= timers && forall t | t in handled :: t in timers
        invariant forall t | t in timers :: t in left || t in handled
        decreases TurnsLeft(late, ticks, |left|)
      {
        FirstIsEarliest();
        var t;
        t, left := CountedTurn(now, clock, owner(|handled|), late, left, rest);
        handled := handled + [t];
      }
      NothingDue(now);
      assert left == {};
    }

    lemma ScanEnds(due: map<TimerState, int>, flags: map<TimerState, bool>, now: int, pending: set<TimerState>,
                   kept: set<TimerState>, discarded: set<TimerState>, fired: seq<TimerState>, dropped: seq<TimerState>)
      requires Valid() && InScan(due, flags, now, pending, kept, discarded)
      requires Scanned(due, now, pending, fired, dropped) && Sifted(due, flags, kept, discarded, fired, dropped)
      requires order == [] || order[0].timer.deadline > now
      ensures ScanDone(due, flags, now, fired, dropped)
    {
      NothingDue(now);
    }

    lemma NothingDue(now: int)
      requires Valid() && (order == [] || order[0].timer.deadline > now)
      ensures forall t | t in mapper :: t.deadline > now
    {
      forall t | t in mapper ensures t.deadline > now {
        assert Holds(order, t);
      }
    }

    /** Handles the requests and reads the clock. */
    method Begin(queue: seq<Request<TimerState>>, clock: nat -> int,
                 ghost due: map<TimerState, int>, ghost flags: map<TimerState, bool>)
      returns (now: int)
      requires Valid() && Admissible(mapper.Keys, queue)
      requires due.Keys == flags.Keys == Apply(mapper.Keys, queue)
      requires forall t | t in due :: due[t] == t.deadline && flags[t] == t.cancelled
      modifies this
      ensures Valid() && now == clock(old(ticks)) && ticks == old(ticks) + 1
      ensures InScan(due, flags, now, due.Keys, {}, {})
    {
      ProcessRequestQueue(queue);
      now := clock(ticks);
      ticks := ticks + 1;
    }

    /**
     Handles the requests in order, then scans. `due` and `flags` are the deadlines and the cancel
     flags before the call. The result is the earliest deadline left, or a day from now.
     */
    method ProcessTimers(queue: seq<Request<TimerState>>, clock: nat -> int, owner: nat -> Move,
                         ghost due: map<TimerState, int>, ghost flags: map<TimerState, bool>)
      returns (next: int, now: int, fired: seq<TimerState>, dropped: seq<TimerState>)
      requires Valid() && Admissible(mapper.Keys, queue)
      requires due.Keys == flags.Keys == Apply(mapper.Keys, queue)
      requires forall t | t in due :: due[t] == t.deadline && flags[t] == t.cancelled
      requires NeverDueAgain(due.Keys, clock(ticks), clock, ticks + 1, owner)
      modifies this, due.Keys
      ensures Valid() && now == clock(old(ticks))
      ensures forall t :: t in due <==> EndsUpIn(t, old(mapper.Keys), queue)
      ensures ScanDone(due, flags, now, fired, dropped)
      ensures IsNextDeadline(now, next)
    {
      forall t ensures t in due <==> EndsUpIn(t, mapper.Keys, queue) { LastRequestDecides(t, mapper.Keys, queue); }
      now := Begin(queue, clock, due, flags);
      fired, dropped := FireDue(due, flags, now, clock, owner);
      next := NextDeadline(now);
    }

    /** The minimum of the deadlines left, or a day from now when there is none. */
    ghost predicate IsNextDeadline(now: int, next: int)
      reads this, mapper.Keys
    {
      && (forall t | t in mapper :: next <= t.deadline)
      && if mapper == map[] then next == now + DAY else exists t | t in mapper :: next == t.deadline
    }

    method NextDeadline(now: int) returns (next: int)
      requires Valid()
      ensures IsNextDeadline(now, next)
    {
      if order == [] {
        assert forall t | t in mapper :: Holds(order, t);
        assert mapper == map[];
        return now + DAY;
      }
      FirstIsEarliest();
      return order[0].timer.deadline;
    }
  }
}
