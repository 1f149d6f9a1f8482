/**
 The rate limiter: counters per scope, bucket and fixed window.  A check increments its
 counter and reads it back in two separate statements, so other requests can come between.
 */
module RateLimit {

  datatype Scope = ResolveIp | ResolveFail

  /** A rate fingerprint is a keyed digest of its scope and bucket. */
  datatype Cell = Cell(scope: Scope, bucket: string, windowStart: int)

  function WindowStart(now: int, window: int): int
    requires window > 0
  {
    now - now % window
  }

  function CountAt(counts: map<Cell, nat>, cell: Cell): nat {
    if cell in counts then counts[cell] else 0
  }

  class RateLimiter {
    var counts: map<Cell, nat>

    constructor ()
      ensures counts == map[]
    {
      counts := map[];
    }

    method Record(cell: Cell) returns (count: nat)
      modifies this
      ensures count == CountAt(old(counts), cell) + 1
      ensures counts == old(counts)[cell := count]
    {
      counts := counts[cell := CountAt(counts, cell) + 1];
      count := counts[cell];
    }

    /** Records one attempt and says whether it is still within the limit. */
    method Check(scope: Scope, bucket: string, now: int, window: int, limit: nat) returns (within: bool)
      requires window > 0
      modifies this
      ensures
        var cell := Cell(scope, bucket, WindowStart(now, window));
        counts == old(counts)[cell := CountAt(old(counts), cell) + 1] && (within <==> counts[cell] <= limit)
    {
      var count := Record(Cell(scope, bucket, WindowStart(now, window)));
      within := count <= limit;
    }

    method Peek(scope: Scope, bucket: string, now: int, window: int) returns (count: nat)
      requires window > 0
      ensures count == CountAt(counts, Cell(scope, bucket, WindowStart(now, window)))
    {
      count := CountAt(counts, Cell(scope, bucket, WindowStart(now, window)));
    }
  }

  // ----- concurrent checks of one bucket -----

  /** One statement of a check by process `p`: the increment, or the read-back. */
  datatype Event = Increment(p: nat, now: int) | ReadBack(p: nat)

  /**
   `pending` are the checks between their two statements, each with the time it read;
   `passed` are the times of the checks that have succeeded.
   */
  datatype Bucket = Bucket(counts: map<int, nat>, pending: map<nat, int>, passed: seq<int>)

  function CountIn(counts: map<int, nat>, windowStart: int): nat {
    if windowStart in counts then counts[windowStart] else 0
  }

  predicate CanTake(b: Bucket, e: Event) {
    match e
    case Increment(p, _) => p !in b.pending
    case ReadBack(p) => p in b.pending
  }

  function Take(b: Bucket, e: Event, window: int, limit: nat): Bucket
    requires window > 0 && CanTake(b, e)
  {
    match e
    case Increment(p, now) =>
      var w := WindowStart(now, window);
      Bucket(b.counts[w := CountIn(b.counts, w) + 1], b.pending[p := now], b.passed)
    case ReadBack(p) =>
      var now := b.pending[p];
      var within := CountIn(b.counts, WindowStart(now, window)) <= limit;
      Bucket(b.counts, b.pending - {p}, if within then b.passed + [now] else b.passed)
  }

  predicate Takes(b: Bucket, events: seq<Event>, after: Bucket, window: int, limit: nat)
    requires window > 0
    decreases |events|
  {
    if events == [] then b == after
    else CanTake(b, events[0]) && Takes(Take(b, events[0], window, limit), events[1..], after, window, limit)
  }

  /** How many of `times` fall in the window that starts at `w`. */
  function InWindow(times: seq<int>, w: int, window: int): nat
    requires window > 0
  {
    if times == [] then 0
    else InWindow(times[..|times| - 1], w, window) + if WindowStart(times[|times| - 1], window) == w then 1 else 0
  }

  function PendingIn(b: Bucket, w: int, window: int): set<nat>
    requires window > 0
  {
    set p | p in b.pending && WindowStart(b.pending[p], window) == w
  }

  /** Every success and every check in progress has its own increment. */
  ghost predicate Accounted(b: Bucket, w: int, window: int, limit: nat)
    requires window > 0
  {
    && InWindow(b.passed, w, window) + |PendingIn(b, w, window)| <= CountIn(b.counts, w)
    && InWindow(b.passed, w, window) <= limit
  }

  lemma IncrementKeepsAccounts(b: Bucket, p: nat, now: int, w: int, window: int, limit: nat)
    requires window > 0 && p !in b.pending && Accounted(b, w, window, limit)
    ensures Accounted(Take(b, Increment(p, now), window, limit), w, window, limit)
  {
    hide WindowStart;
    var after := Take(b, Increment(p, now), window, limit);
    if WindowStart(now, window) == w {
      assert PendingIn(after, w, window) == PendingIn(b, w, window) + {p};
    } else {
      assert PendingIn(after, w, window) == PendingIn(b, w, window);
    }
  }

  lemma OneMore(times: seq<int>, now: int, w: int, window: int)
    requires window > 0
    ensures InWindow(times + [now], w, window) ==
            InWindow(times, w, window) + if WindowStart(now, window) == w then 1 else 0
  {
    assert (times + [now])[..|times|] == times;
  }

  lemma ReadBackKeepsAccounts(b: Bucket, p: nat, w: int, window: int, limit: nat)
    requires window > 0 && p in b.pending && Accounted(b, w, window, limit)
    ensures Accounted(Take(b, ReadBack(p), window, limit), w, window, limit)
  {
    hide WindowStart, InWindow;
    var after, now := Take(b, ReadBack(p), window, limit), b.pending[p];
    OneMore(b.passed, now, w, window);
    if WindowStart(now, window) == w {
      assert p in PendingIn(b, w, window);
      assert PendingIn(after, w, window) == PendingIn(b, w, window) - {p};
    } else {
      assert PendingIn(after, w, window) == PendingIn(b, w, window);
    }
  }

  lemma TakeKeepsAccounts(b: Bucket, e: Event, w: int, window: int, limit: nat)
    requires window > 0 && CanTake(b, e) && Accounted(b, w, window, limit)
    ensures Accounted(Take(b, e, window, limit), w, window, limit)
  {
    hide Take, Accounted;
    match e
    case Increment(p, now) => IncrementKeepsAccounts(b, p, now, w, window, limit);
    case ReadBack(p) => ReadBackKeepsAccounts(b, p, w, window, limit);
  }

  lemma {:induction false} RunKeepsAccounts(
    b: Bucket, events: seq<Event>, after: Bucket, w: int, window: int, limit: nat)
    requires window > 0 && Takes(b, events, after, window, limit) && Accounted(b, w, window, limit)
    ensures Accounted(after, w, window, limit)
    decreases |events|
  {
    if events != [] {
      TakeKeepsAccounts(b, events[0], w, window, limit);
      RunKeepsAccounts(Take(b, events[0], window, limit), events[1..], after, w, window, limit);
    }
  }

  /** In every interleaving at most `limit` checks of a window succeed. */
  lemma AtMostLimitPerWindow(events: seq<Event>, after: Bucket, w: int, window: int, limit: nat)
    requires window > 0 && Takes(Bucket(map[], map[], []), events, after, window, limit)
    ensures InWindow(after.passed, w, window) <= limit
  {
    RunKeepsAccounts(Bucket(map[], map[], []), events, after, w, window, limit);
  }

  /** How many of `times` fall in the half-open interval of length `window` from `from`. */
  function InInterval(times: seq<int>, from: int, window: int): nat {
    if times == [] then 0
    else
      var last := times[|times| - 1];
      InInterval(times[..|times| - 1], from, window) + if from <= last < from + window then 1 else 0
  }

  lemma FewMultiples(d: int, window: int)
    requires window > 0 && -window < d * window < 2 * window
    ensures d == 0 || d == 1
  {
  }

  lemma StartIsMultiple(now: int, window: int)
    requires window > 0
    ensures WindowStart(now, window) == (now / window) * window && now - window < WindowStart(now, window) <= now
  {
  }

  lemma TwoWindows(now: int, from: int, window: int)
    requires window > 0 && from <= now < from + window
    ensures WindowStart(now, window) - WindowStart(from, window) in {0, window}
  {
    hide WindowStart;
    StartIsMultiple(now, window);
    StartIsMultiple(from, window);
    var a, b := now / window, from / window;
    MulDiff(a, b, window);
    FewMultiples(a - b, window);
  }

  lemma MulDiff(a: int, b: int, window: int)
    ensures (a - b) * window == a * window - b * window
  {
  }

  lemma {:induction false} IntervalMeetsTwoWindows(times: seq<int>, from: int, window: int)
    requires window > 0
    ensures InInterval(times, from, window) <=
            InWindow(times, WindowStart(from, window), window)
            + InWindow(times, WindowStart(from, window) + window, window)
  {
    if times != [] {
      IntervalMeetsTwoWindows(times[..|times| - 1], from, window);
      var last := times[|times| - 1];
      if from <= last < from + window {
        TwoWindows(last, from, window);
      }
    }
  }

  /** Hence at most twice the limit in any interval one window long. */
  lemma AtMostTwiceLimitPerInterval(events: seq<Event>, after: Bucket, from: int, window: int, limit: nat)
    requires window > 0 && Takes(Bucket(map[], map[], []), events, after, window, limit)
    ensures InInterval(after.passed, from, window) <= 2 * limit
  {
    IntervalMeetsTwoWindows(after.passed, from, window);
    AtMostLimitPerWindow(events, after, WindowStart(from, window), window, limit);
    AtMostLimitPerWindow(events, after, WindowStart(from, window) + window, window, limit);
  }

  /**
   A check that runs undivided and finds the count below the limit succeeds: the bound is
   reached, so the limiter refuses no attempt within it.
   */
  lemma UndividedCheckPasses(b: Bucket, p: nat, now: int, window: int, limit: nat)
    requires window > 0 && p !in b.pending && CountIn(b.counts, WindowStart(now, window)) < limit
    ensures Take(Take(b, Increment(p, now), window, limit), ReadBack(p), window, limit).passed == b.passed + [now]
  {
  }
}
