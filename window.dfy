/**
 * The sliding-window sweep behind `burst_7day_ratio` (app/scoring.py:93-107):
 * timestamps are sorted ascending, then a FIFO window of timestamps is kept
 * in which nothing is older than one week before the newest entry, and the
 * largest window size seen is the result.
 */
module BurstWindow {

  /** `timedelta(days=7)` in microseconds, the resolution of `datetime`. */
  const Week: int := 7 * 24 * 60 * 60 * 1_000_000

  predicate IsSorted(s: seq<int>) {
    forall i, j :: 0 <= i <= j < |s| ==> s[i] <= s[j]
  }

  function Max(a: int, b: int): int {
    if a < b then b else a
  }

  /** Inserts `x` into a sorted sequence. */
  function Insert(x: int, s: seq<int>): (r: seq<int>)
    requires IsSorted(s)
    ensures IsSorted(r)
    ensures |r| == |s| + 1
    ensures multiset(r) == multiset(s) + multiset{x}
    ensures r[0] == if s == [] || x <= s[0] then x else s[0]
  {
    if s == [] || x <= s[0] then [x] + s
    else
      var rest := Insert(x, s[1..]);
      assert s == [s[0]] + s[1..];
      assert forall k :: 0 <= k < |rest| ==> rest[0] <= rest[k];
      [s[0]] + rest
  }

  /** Python's `sorted` on integers: an ascending permutation of the input. */
  function SortAscending(s: seq<int>): (r: seq<int>)
    ensures IsSorted(r)
    ensures |r| == |s|
    ensures multiset(r) == multiset(s)
  {
    if s == [] then []
    else
      assert s == s[..|s| - 1] + [s[|s| - 1]];
      Insert(s[|s| - 1], SortAscending(s[..|s| - 1]))
  }

  /** How many elements of `s` are at or after `cutoff`. */
  function CountAtLeast(s: seq<int>, cutoff: int): (n: nat)
    ensures n <= |s|
  {
    if s == [] then 0
    else CountAtLeast(s[..|s| - 1], cutoff) + (if s[|s| - 1] >= cutoff then 1 else 0)
  }

  /**
   * The window after the sweep has visited `times[j]`: the visited
   * timestamps no older than one week before `times[j]` (inclusive).
   */
  function WindowAt(times: seq<int>, j: nat): nat
    requires j < |times|
  {
    CountAtLeast(times[..j + 1], times[j] - Week)
  }

  /** `max_in_window` after the sweep has visited `times[..n]`. */
  function BestWindow(times: seq<int>, n: nat): (m: nat)
    requires n <= |times|
    ensures m <= n
    ensures n > 0 ==> m >= 1
  {
    if n == 0 then 0
    else
      assert times[..n][..n - 1] == times[..n - 1];
      Max(BestWindow(times, n - 1), WindowAt(times, n - 1))
  }


  /** When every timestamp is within a week of the last, the last window holds them all. */
  lemma WholeWeekWindow(times: seq<int>)
    requires |times| > 0
    requires forall k :: 0 <= k < |times| ==> times[k] >= times[|times| - 1] - Week
    ensures BestWindow(times, |times|) == |times|
  {
    var n := |times|;
    assert times[..n] == times;
    CountAtLeastSplit(times, 0, times[n - 1] - Week);
    BestWindowAtLeast(times, n, n - 1);
  }

  /**
   * In a sequence whose first `lo` elements are before `cutoff` and whose
   * remaining elements are not, exactly the remaining ones are counted.
   */
  lemma {:induction false} CountAtLeastSplit(s: seq<int>, lo: nat, cutoff: int)
    requires lo <= |s|
    requires forall k :: 0 <= k < lo ==> s[k] < cutoff
    requires forall k :: lo <= k < |s| ==> s[k] >= cutoff
    ensures CountAtLeast(s, cutoff) == |s| - lo
  {
    if s != [] {
      var lo' := if lo < |s| then lo else |s| - 1;
      CountAtLeastSplit(s[..|s| - 1], lo', cutoff);
    }
  }

  /**
   * Once the timestamps before index `lo` are evicted and `times[lo]` is
   * not, the deque `times[lo..i + 1]` is the window at `times[i]`.
   */
  lemma EvictionLeavesWindow(times: seq<int>, lo: nat, i: nat)
    requires IsSorted(times)
    requires lo <= i < |times|
    requires forall k :: 0 <= k < lo ==> times[k] < times[i] - Week
    requires times[lo] >= times[i] - Week
    ensures WindowAt(times, i) == i + 1 - lo
  {
    assert forall k :: lo <= k <= i ==> times[lo] <= times[k];
    CountAtLeastSplit(times[..i + 1], lo, times[i] - Week);
  }

  /**
   * `_calc_burst_ratio`'s loop: `window` is the deque, appended at the back
   * and evicted from the front; `best` is `max_in_window`.
   */
  method MaxWindowSize(times: seq<int>) returns (best: nat)
    requires IsSorted(times)
    ensures best == BestWindow(times, |times|)
  {
    var window: seq<int> := [];
    ghost var lo := 0;
    best := 0;
    for i := 0 to |times|
      invariant lo <= i
      invariant window == times[lo..i]
      invariant i > 0 ==> forall k :: 0 <= k < lo ==> times[k] < times[i - 1] - Week
      invariant best == BestWindow(times, i)
    {
      var ts := times[i];
      window := window + [ts];
      var cutoff := ts - Week;
      assert forall k :: 0 <= k < lo ==> times[k] < cutoff;
      while window != [] && window[0] < cutoff
        invariant lo <= i + 1
        invariant window == times[lo..i + 1]
        invariant forall k :: 0 <= k < lo ==> times[k] < cutoff
      {
        window := window[1..];
        lo := lo + 1;
      }
      // The deque now holds exactly the visited timestamps at or after the cutoff.
      EvictionLeavesWindow(times, lo, i);
      best := Max(best, |window|);
    }
  }

  /** How many elements of `s` lie in the closed interval [lo, hi]. */
  function CountBetween(s: seq<int>, lo: int, hi: int): (n: nat)
    ensures n <= |s|
  {
    if s == [] then 0
    else CountBetween(s[..|s| - 1], lo, hi) + (if lo <= s[|s| - 1] <= hi then 1 else 0)
  }

  lemma {:induction false} CountBetweenAppend(a: seq<int>, b: seq<int>, lo: int, hi: int)
    ensures CountBetween(a + b, lo, hi) == CountBetween(a, lo, hi) + CountBetween(b, lo, hi)
    decreases |b|
  {
    if b == [] {
      assert a + b == a;
    } else {
      assert (a + b)[..|a + b| - 1] == a + b[..|b| - 1];
      CountBetweenAppend(a, b[..|b| - 1], lo, hi);
    }
  }

  /** Counting timestamps in an interval does not depend on their order. */
  lemma {:induction false} CountBetweenPermutation(a: seq<int>, b: seq<int>, lo: int, hi: int)
    requires multiset(a) == multiset(b)
    ensures CountBetween(a, lo, hi) == CountBetween(b, lo, hi)
    decreases |a|
  {
    if a != [] {
      var x := a[|a| - 1];
      assert a == a[..|a| - 1] + [x];
      assert x in multiset(b);
      var i :| 0 <= i < |b| && b[i] == x;
      assert b == b[..i] + [x] + b[i + 1..];
      var b' := b[..i] + b[i + 1..];
      assert multiset(b') == multiset(b) - multiset{x};
      CountBetweenPermutation(a[..|a| - 1], b', lo, hi);
      CountBetweenAppend(b[..i] + [x], b[i + 1..], lo, hi);
      CountBetweenAppend(b[..i], [x], lo, hi);
      CountBetweenAppend(b[..i], b[i + 1..], lo, hi);
    }
  }

  /** A closed interval counts no more than the same prefix counted from its start. */
  lemma {:induction false} CountBetweenAtMostAtLeast(s: seq<int>, lo: int, hi: int, cutoff: int)
    requires cutoff <= lo
    ensures CountBetween(s, lo, hi) <= CountAtLeast(s, cutoff)
  {
    if s != [] {
      CountBetweenAtMostAtLeast(s[..|s| - 1], lo, hi, cutoff);
    }
  }

  /** A sequence entirely after `hi` has nothing in [lo, hi]. */
  lemma {:induction false} CountBetweenNone(s: seq<int>, lo: int, hi: int)
    requires forall k :: 0 <= k < |s| ==> s[k] > hi
    ensures CountBetween(s, lo, hi) == 0
  {
    if s != [] {
      CountBetweenNone(s[..|s| - 1], lo, hi);
    }
  }

  /** In a sorted prefix ending at `hi`, counting from `lo` counts [lo, hi]. */
  lemma {:induction false} CountAtLeastSorted(s: seq<int>, lo: int, hi: int)
    requires forall k :: 0 <= k < |s| ==> s[k] <= hi
    ensures CountAtLeast(s, lo) == CountBetween(s, lo, hi)
  {
    if s != [] {
      CountAtLeastSorted(s[..|s| - 1], lo, hi);
    }
  }

  lemma {:induction false} BestWindowAtLeast(times: seq<int>, n: nat, j: nat)
    requires j < n <= |times|
    ensures WindowAt(times, j) <= BestWindow(times, n)
  {
    if j < n - 1 {
      BestWindowAtLeast(times, n - 1, j);
    }
  }

  lemma {:induction false} BestWindowWitness(times: seq<int>, n: nat) returns (j: nat)
    requires 0 < n <= |times|
    ensures j < n && WindowAt(times, j) == BestWindow(times, n)
  {
    if n == 1 || WindowAt(times, n - 1) >= BestWindow(times, n - 1) {
      j := n - 1;
    } else {
      j := BestWindowWitness(times, n - 1);
    }
  }

  /** How many timestamps lie in the closed one-week interval ending at `t`. */
  function WeekEndingAt(times: seq<int>, t: int): nat {
    CountBetween(times, t - Week, t)
  }

  /**
   * Splits the sorted timestamps at the first one after `t`: returns the
   * number of timestamps at or before `t`.
   */
  lemma SplitAfter(times: seq<int>, t: int) returns (j: nat)
    requires IsSorted(times)
    ensures j <= |times|
    ensures forall k :: 0 <= k < j ==> times[k] <= t
    ensures forall k :: j <= k < |times| ==> times[k] > t
  {
    j := 0;
    while j < |times| && times[j] <= t
      invariant j <= |times|
      invariant forall k :: 0 <= k < j ==> times[k] <= t
    {
      j := j + 1;
    }
  }

  /**
   * When the first `j` timestamps are the ones at or before `t`, only they
   * can lie in [t - Week, t].
   */
  lemma WeekWithinPrefix(times: seq<int>, t: int, j: nat)
    requires j <= |times|
    requires forall k :: j <= k < |times| ==> times[k] > t
    ensures WeekEndingAt(times, t) == CountBetween(times[..j], t - Week, t)
  {
    var p, q := times[..j], times[j..];
    assert times == p + q;
    CountBetweenAppend(p, q, t - Week, t);
    CountBetweenNone(q, t - Week, t);
  }

  /**
   * The window the sweep saw at `times[j - 1] <= t` covers the part of
   * [t - Week, t] among the first `j` timestamps.
   */
  lemma PrefixWithinBest(times: seq<int>, t: int, j: nat)
    requires 0 < j <= |times|
    requires times[j - 1] <= t
    ensures CountBetween(times[..j], t - Week, t) <= BestWindow(times, |times|)
  {
    CountBetweenAtMostAtLeast(times[..j], t - Week, t, times[j - 1] - Week);
    BestWindowAtLeast(times, |times|, j - 1);
  }

  /**
   * No closed one-week interval [t - Week, t] holds more of the sorted
   * timestamps than the sweep's maximum.
   */
  lemma EveryWeekWithinBest(times: seq<int>, t: int)
    requires IsSorted(times)
    ensures WeekEndingAt(times, t) <= BestWindow(times, |times|)
  {
    var j := SplitAfter(times, t);
    WeekWithinPrefix(times, t, j);
    if j > 0 {
      PrefixWithinBest(times, t, j);
    }
  }

  /** A prefix holds no more timestamps of an interval than the whole sequence. */
  lemma CountBetweenPrefix(s: seq<int>, n: nat, lo: int, hi: int)
    requires n <= |s|
    ensures CountBetween(s[..n], lo, hi) <= CountBetween(s, lo, hi)
  {
    assert s == s[..n] + s[n..];
    CountBetweenAppend(s[..n], s[n..], lo, hi);
  }

  /** The week ending at the busiest window's newest timestamp holds the sweep's maximum. */
  lemma BusiestWeekAttained(times: seq<int>) returns (t: int)
    requires IsSorted(times)
    ensures WeekEndingAt(times, t) >= BestWindow(times, |times|)
  {
    if times == [] {
      t := 0;
    } else {
      var j := BestWindowWitness(times, |times|);
      t := times[j];
      var p := times[..j + 1];
      assert forall k :: 0 <= k < |p| ==> p[k] <= t;
      CountAtLeastSorted(p, t - Week, t);
      CountBetweenPrefix(times, j + 1, t - Week, t);
    }
  }

  /**
   * The sweep's maximum is the largest number of timestamps in any closed
   * one-week interval [t - Week, t]: no interval holds more, and one holds
   * exactly that many.
   */
  lemma BestWindowIsBusiestWeek(times: seq<int>)
    requires IsSorted(times)
    ensures forall t :: WeekEndingAt(times, t) <= BestWindow(times, |times|)
    ensures exists t :: WeekEndingAt(times, t) == BestWindow(times, |times|)
  {
    forall t ensures WeekEndingAt(times, t) <= BestWindow(times, |times|) {
      EveryWeekWithinBest(times, t);
    }
    var t := BusiestWeekAttained(times);
    assert WeekEndingAt(times, t) == BestWindow(times, |times|);
  }
}
