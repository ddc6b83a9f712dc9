/**
 How the thread pool splits work: a worker donates parts of its private queue to the idle workers
 it has claimed, and a span of tasks enqueued from outside is dealt out to all workers. Both deal
 out contiguous ranges by division with remainder, the first ranges taking one task more.
 */
module WorkSplit {
  import opened Prelude

  function Min(a: nat, b: nat): nat { if a < b then a else b }

  /** Where the i-th range begins when every range has `q` tasks and the first `extra` one more. */
  function Begin(i: nat, q: nat, extra: nat): nat { i * q + Min(i, extra) }

  /** Division with remainder, for a whole that is large enough for its parts. */
  lemma Shares(n: nat, parts: nat)
    requires 0 < parts <= n
    ensures n / parts >= 1 && n - n / parts * parts == n % parts
  {
  }

  /** The ranges follow each other and stay within the whole. */
  lemma RangeFits(n: nat, parts: nat, i: nat)
    requires i < parts
    ensures Begin(i + 1, n / parts, n % parts)
         == Begin(i, n / parts, n % parts) + n / parts + if i < n % parts then 1 else 0
    ensures Begin(i + 1, n / parts, n % parts) <= n
  {
    RangeFitsIn(n, parts, n / parts, n % parts, i);
  }

  lemma RangeFitsIn(n: nat, parts: nat, q: nat, extra: nat, i: nat)
    requires i < parts && n == parts * q + extra
    ensures Begin(i + 1, q, extra) == Begin(i, q, extra) + q + if i < extra then 1 else 0
    ensures Begin(i + 1, q, extra) <= n
  {
    assert (i + 1) * q == i * q + q;
    MultiplyMonotone(i + 1, parts, q);
  }

  lemma MultiplyMonotone(a: nat, b: nat, q: nat)
    requires a <= b
    ensures a * q <= b * q
  {
    assert b * q == a * q + (b - a) * q;
  }

  /** All parts together are the whole, and the last part never takes an extra task. */
  lemma RangesEnd(n: nat, parts: nat)
    requires 0 < parts
    ensures Begin(parts, n / parts, n % parts) == n
    ensures Begin(parts - 1, n / parts, n % parts) == n - n / parts
  {
    RangeFits(n, parts, parts - 1);
  }

  /** The ranges are adjacent, start at the front, and each is exactly as long as its share. */
  ghost predicate Dealt<T>(tasks: seq<T>, ranges: seq<seq<T>>, rest: seq<T>, q: nat, extra: nat) {
    && Concat(ranges) + rest == tasks
    && forall i | 0 <= i < |ranges| :: |ranges[i]| == q + if i < extra then 1 else 0
  }

  lemma DealOne<T>(tasks: seq<T>, ranges: seq<seq<T>>, from: nat, upTo: nat, q: nat, extra: nat)
    requires from <= upTo <= |tasks| && Dealt(tasks, ranges, tasks[from..], q, extra)
    requires upTo - from == q + if |ranges| < extra then 1 else 0
    ensures Dealt(tasks, ranges + [tasks[from..upTo]], tasks[upTo..], q, extra)
  {
    var more := ranges + [tasks[from..upTo]];
    assert more[..|ranges|] == ranges;
    assert tasks[from..] == tasks[from..upTo] + tasks[upTo..];
  }

  /**
   `balance_work`, once `idle` workers have been claimed. Every one of them gets a range, the
   ranges differ in length by at most one task, and the donor keeps its fair share of at least one.
   */
  method BalanceWork<T>(tasks: seq<T>, idle: nat) returns (donations: seq<seq<T>>, kept: seq<T>)
    requires idle == 0 || idle + 1 <= |tasks|
    ensures |donations| == idle
    ensures Concat(donations) + kept == tasks
    ensures idle > 0 ==> |kept| == |tasks| / (idle + 1) >= 1
    ensures forall i | 0 <= i < idle :: |donations[i]| == |kept| + if i < |tasks| % (idle + 1) then 1 else 0
  {
    if idle == 0 {
      return [], tasks;
    }
    var total := idle + 1;
    var count := |tasks| / total;
    var extra := |tasks| - count * total;
    ghost var e := |tasks| % total;
    Shares(|tasks|, total);

    donations := [];
    var begin, end := 0, count;
    assert Dealt(tasks, [], tasks[0..], count, e);
    for i := 0 to idle
      invariant |donations| == i && extra == e - Min(i, e)
      invariant begin == Begin(i, count, e) <= |tasks| && end == begin + count
      invariant Dealt(tasks, donations, tasks[begin..], count, e)
    {
      RangeFits(|tasks|, total, i);
      if extra != 0 {
        end := end + 1;
        extra := extra - 1;
      }
      assert begin < end <= |tasks|;
      DealOne(tasks, donations, begin, end, count, e);
      donations := donations + [tasks[begin..end]];
      begin := end;
      end := end + count;
    }
    RangesEnd(|tasks|, total);
    kept := tasks[begin..];
  }

  /** The bulk `enqueue`: every worker gets a non-empty range, and together they are all the tasks. */
  method DealOut<T>(tasks: seq<T>, workers: nat) returns (ranges: seq<seq<T>>)
    requires 1 <= workers <= |tasks|
    ensures |ranges| == workers
    ensures Concat(ranges) == tasks
    ensures |tasks| / workers >= 1
    ensures forall i | 0 <= i < workers :: |ranges[i]| == |tasks| / workers + if i < |tasks| % workers then 1 else 0
  {
    var count := |tasks| / workers;
    var extra := |tasks| - count * workers;
    ghost var e := |tasks| % workers;
    Shares(|tasks|, workers);

    ranges := [];
    var begin, end := 0, count;
    assert Dealt(tasks, [], tasks[0..], count, e);
    for i := 0 to workers
      invariant |ranges| == i && extra == e - Min(i, e)
      invariant begin == Begin(i, count, e) <= |tasks| && end == begin + count
      invariant Dealt(tasks, ranges, tasks[begin..], count, e)
    {
      RangeFits(|tasks|, workers, i);
      if extra != 0 {
        end := end + 1;
        extra := extra - 1;
      }
      assert begin < end <= |tasks|;
      DealOne(tasks, ranges, begin, end, count, e);
      ranges := ranges + [tasks[begin..end]];
      begin := end;
      end := end + count;
    }
    RangesEnd(|tasks|, workers);
    assert Concat(ranges) == Concat(ranges) + tasks[begin..];
  }
}
