/** security_kit/guards.py, `RateLimiter`: a sliding window per key, pruned lazily. Times are microseconds. */
module RateLimits {
  import opened Prelude

  type Key = string

  const SECOND := 1_000_000

  datatype Limiter = Limiter(maxCalls: int, window: int, hits: map<Key, seq<int>>)

  function HitsOf(hits: map<Key, seq<int>>, key: Key): seq<int> { if key in hits then hits[key] else [] }

  /** Drops hits from the front while they are not younger than the cutoff. */
  function Prune(hits: seq<int>, cutoff: int): (kept: seq<int>)
    ensures |kept| <= |hits|
  {
    if hits != [] && hits[0] <= cutoff then Prune(hits[1..], cutoff) else hits
  }

  function Pruned(l: Limiter, key: Key, at: int): seq<int> { Prune(HitsOf(l.hits, key), at - l.window) }

  function Allow(l: Limiter, key: Key, at: int): (Limiter, bool) {
    var kept := Pruned(l, key, at);
    if |kept| >= l.maxCalls then (l.(hits := l.hits[key := kept]), false)
    else (l.(hits := l.hits[key := kept + [at]]), true)
  }

  /** Seconds to wait; None is the IndexError on an empty queue. */
  function RetryAfter(l: Limiter, key: Key, at: int): (Limiter, Option<int>) {
    var kept := Pruned(l, key, at);
    (l.(hits := l.hits[key := kept]),
     if |kept| < l.maxCalls then Some(0)
     else if kept == [] then None
     else Some(Max(1, (kept[0] + l.window - at) / SECOND + 1)))
  }

  function Reset(l: Limiter, key: Key): Limiter { l.(hits := l.hits - {key}) }

  function Sweep(l: Limiter, at: int): Limiter {
    l.(hits := map key | key in l.hits && Pruned(l, key, at) != [] :: Pruned(l, key, at))
  }

  // ------------------------------------------------------------------ the full history, never pruned

  /** Accepted calls per key since its last reset, oldest first. */
  type History = map<Key, seq<int>>

  function Within(accepted: seq<int>, after: int, upTo: int): nat -> bool {
    (i: nat) => i < |accepted| && after < accepted[i] <= upTo
  }

  /** Accepted calls in (at - window, at]. */
  function Used(accepted: seq<int>, window: int, at: int): nat {
    Count(|accepted|, Within(accepted, at - window, at))
  }

  /** The rule on the full history: accept while the window holds fewer than the maximum. */
  function AllowByHistory(h: History, maxCalls: int, window: int, key: Key, at: int): (History, bool) {
    if Used(HitsOf(h, key), window, at) >= maxCalls then (h, false)
    else (h[key := HitsOf(h, key) + [at]], true)
  }

  ghost predicate Increasing(accepted: seq<int>) {
    forall i, j :: 0 <= i < j < |accepted| ==> accepted[i] <= accepted[j]
  }

  predicate EndsWith(all: seq<int>, tail: seq<int>) {
    && |tail| <= |all|
    && forall i :: |all| - |tail| <= i < |all| ==> all[i] == tail[i - (|all| - |tail|)]
  }

  /** The queue is the tail of the history; whatever it lacks had left the window by `now`. */
  ghost predicate TailOf(hits: seq<int>, accepted: seq<int>, window: int, now: int) {
    && Increasing(accepted) && (forall i :: 0 <= i < |accepted| ==> accepted[i] <= now)
    && EndsWith(accepted, hits)
    && forall i :: 0 <= i < |accepted| - |hits| ==> accepted[i] <= now - window
  }

  ghost predicate Windows(accepted: seq<int>, window: int, maxCalls: int) {
    forall at: int :: Used(accepted, window, at) <= Max(maxCalls, 0)
  }

  ghost predicate Tracks(hits: seq<int>, accepted: seq<int>, window: int, maxCalls: int, now: int) {
    TailOf(hits, accepted, window, now) && Windows(accepted, window, maxCalls)
  }

  ghost predicate Simulates(l: Limiter, h: History, now: int) {
    forall key :: Tracks(HitsOf(l.hits, key), HitsOf(h, key), l.window, l.maxCalls, now)
  }

  // ------------------------------------------------------------------ pruning counts the window

  lemma {:induction false} CountTail(n: nat, k: nat, p: nat -> bool)
    requires k <= n && forall i: nat :: i < n ==> (p(i) <==> i >= n - k)
    ensures Count(n, p) == k
  {
    if k == 0 {
      CountNone(n, p);
    } else {
      CountTail(n - 1, k - 1, p);
    }
  }

  /** Pruning keeps a tail, and drops only hits up to the cutoff. */
  lemma {:induction false} PruneShape(hits: seq<int>, cutoff: int)
    ensures var kept := Prune(hits, cutoff);
      && EndsWith(hits, kept) && (kept != [] ==> kept[0] > cutoff)
      && forall i :: 0 <= i < |hits| - |kept| ==> hits[i] <= cutoff
  {
    if hits == [] || hits[0] > cutoff {
    } else {
      var rest := hits[1..];
      PruneShape(rest, cutoff);
      assert forall i :: 1 <= i < |hits| ==> hits[i] == rest[i - 1];
    }
  }

  lemma PruneKeepsTail(hits: seq<int>, accepted: seq<int>, window: int, now: int, at: int)
    requires TailOf(hits, accepted, window, now) && now <= at
    ensures TailOf(Prune(hits, at - window), accepted, window, at)
  {
    var kept, d := Prune(hits, at - window), |accepted| - |hits|;
    PruneShape(hits, at - window);
    forall i | 0 <= i < |accepted| - |kept| ensures accepted[i] <= at - window {
      if i >= d { assert accepted[i] == hits[i - d]; }
    }
  }

  /** What pruning leaves is what the window holds. */
  lemma PruneCountsWindow(hits: seq<int>, accepted: seq<int>, window: int, now: int, at: int)
    requires TailOf(hits, accepted, window, now) && now <= at
    ensures |Prune(hits, at - window)| == Used(accepted, window, at)
    ensures TailOf(Prune(hits, at - window), accepted, window, at)
  {
    PruneKeepsTail(hits, accepted, window, now, at);
    PruneShape(hits, at - window);
    TailCountsWindow(Prune(hits, at - window), accepted, window, at);
  }

  lemma TailCountsWindow(kept: seq<int>, accepted: seq<int>, window: int, at: int)
    requires TailOf(kept, accepted, window, at) && (kept != [] ==> kept[0] > at - window)
    ensures |kept| == Used(accepted, window, at)
  {
    var p, d := Within(accepted, at - window, at), |accepted| - |kept|;
    forall i: nat | i < |accepted| ensures p(i) <==> i >= d {
      if i >= d { assert accepted[d] == kept[0]; }
    }
    CountTail(|accepted|, |kept|, p);
  }

  /** Accepting a call inside the limit overfills no window, past or future. */
  lemma AcceptKeepsWindows(accepted: seq<int>, window: int, maxCalls: int, at: int)
    requires Windows(accepted, window, maxCalls) && (forall i :: 0 <= i < |accepted| ==> accepted[i] <= at)
    requires Used(accepted, window, at) < maxCalls
    ensures Windows(accepted + [at], window, maxCalls)
  {
    var n, longer := |accepted|, accepted + [at];
    forall a: int ensures Used(longer, window, a) <= Max(maxCalls, 0) {
      CountSame(n, Within(accepted, a - window, a), Within(longer, a - window, a));
      assert Used(accepted, window, a) <= Max(maxCalls, 0);
      if a >= at { CountMonotone(n, Within(accepted, a - window, a), Within(accepted, at - window, at)); }
    }
  }

  // ------------------------------------------------------------------ refinement, step by step

  lemma TracksPruned(hits: seq<int>, accepted: seq<int>, window: int, maxCalls: int, now: int, at: int)
    requires Tracks(hits, accepted, window, maxCalls, now) && now <= at
    ensures Tracks(Prune(hits, at - window), accepted, window, maxCalls, at)
    ensures |Prune(hits, at - window)| == Used(accepted, window, at)
  {
    PruneCountsWindow(hits, accepted, window, now, at);
  }

  lemma TracksLater(hits: seq<int>, accepted: seq<int>, window: int, maxCalls: int, now: int, at: int)
    requires Tracks(hits, accepted, window, maxCalls, now) && now <= at
    ensures Tracks(hits, accepted, window, maxCalls, at)
  {}

  lemma TracksAccepted(kept: seq<int>, accepted: seq<int>, window: int, maxCalls: int, at: int)
    requires Tracks(kept, accepted, window, maxCalls, at) && Used(accepted, window, at) < maxCalls
    ensures Tracks(kept + [at], accepted + [at], window, maxCalls, at)
  {
    AcceptKeepsWindows(accepted, window, maxCalls, at);
    TailGrows(kept, accepted, window, at);
  }

  lemma TailGrows(kept: seq<int>, accepted: seq<int>, window: int, at: int)
    requires TailOf(kept, accepted, window, at)
    ensures TailOf(kept + [at], accepted + [at], window, at)
  {}

  /** One key's queue is replaced, one key's history extended; all other keys only get older. */
  lemma OneKeyChanges(l: Limiter, h: History, h': History, now: int, at: int, key: Key, queue: seq<int>)
    requires Simulates(l, h, now) && now <= at
    requires forall other :: other != key ==> HitsOf(h', other) == HitsOf(h, other)
    requires Tracks(queue, HitsOf(h', key), l.window, l.maxCalls, at)
    ensures Simulates(l.(hits := l.hits[key := queue]), h', at)
  {
    forall other
      ensures Tracks(HitsOf(l.hits[key := queue], other), HitsOf(h', other), l.window, l.maxCalls, at)
    {
      if other != key { TracksLater(HitsOf(l.hits, other), HitsOf(h, other), l.window, l.maxCalls, now, at); }
    }
  }

  lemma AcceptRefines(l: Limiter, h: History, now: int, key: Key, at: int, kept: seq<int>, accepted: seq<int>)
    requires Simulates(l, h, now) && now <= at && kept == Pruned(l, key, at) && accepted == HitsOf(h, key)
    requires Tracks(kept, accepted, l.window, l.maxCalls, at) && Used(accepted, l.window, at) < l.maxCalls
    ensures Simulates(l.(hits := l.hits[key := kept + [at]]), h[key := accepted + [at]], at)
  {
    TracksAccepted(kept, accepted, l.window, l.maxCalls, at);
    OneKeyChanges(l, h, h[key := accepted + [at]], now, at, key, kept + [at]);
  }

  lemma RefuseRefines(l: Limiter, h: History, now: int, key: Key, at: int, kept: seq<int>)
    requires Simulates(l, h, now) && now <= at && Tracks(kept, HitsOf(h, key), l.window, l.maxCalls, at)
    ensures Simulates(l.(hits := l.hits[key := kept]), h, at)
  {
    OneKeyChanges(l, h, h, now, at, key, kept);
  }

  /** `allow` answers as the full history does, and goes on doing so. */
  lemma AllowRefines(l: Limiter, h: History, now: int, key: Key, at: int)
    requires Simulates(l, h, now) && now <= at
    ensures var (l', ok), (h', ok') := Allow(l, key, at), AllowByHistory(h, l.maxCalls, l.window, key, at);
            ok == ok' && Simulates(l', h', at)
  {
    var accepted, kept := HitsOf(h, key), Pruned(l, key, at);
    TracksPruned(HitsOf(l.hits, key), accepted, l.window, l.maxCalls, now, at);
    if |kept| < l.maxCalls {
      AcceptRefines(l, h, now, key, at, kept, accepted);
    } else {
      RefuseRefines(l, h, now, key, at, kept);
    }
  }

  lemma RetryAfterRefines(l: Limiter, h: History, now: int, key: Key, at: int)
    requires Simulates(l, h, now) && now <= at
    ensures Simulates(RetryAfter(l, key, at).0, h, at)
  {
    TracksPruned(HitsOf(l.hits, key), HitsOf(h, key), l.window, l.maxCalls, now, at);
    OneKeyChanges(l, h, h, now, at, key, Pruned(l, key, at));
  }

  lemma ResetRefines(l: Limiter, h: History, now: int, key: Key)
    requires Simulates(l, h, now)
    ensures Simulates(Reset(l, key), h - {key}, now)
  {
    CountNone(0, Within([], 0, 0));
    forall other
      ensures Tracks(HitsOf(Reset(l, key).hits, other), HitsOf(h - {key}, other), l.window, l.maxCalls, now)
    {
      assert Tracks(HitsOf(l.hits, other), HitsOf(h, other), l.window, l.maxCalls, now);
    }
  }

  /** `sweep` leaves the history alone, hence changes no later answer. */
  lemma SweepRefines(l: Limiter, h: History, now: int, at: int)
    requires Simulates(l, h, now) && now <= at
    ensures Simulates(Sweep(l, at), h, at)
  {
    forall other ensures Tracks(HitsOf(Sweep(l, at).hits, other), HitsOf(h, other), l.window, l.maxCalls, at) {
      SweptTracks(l, HitsOf(h, other), now, other, at);
    }
  }

  lemma SweptTracks(l: Limiter, accepted: seq<int>, now: int, key: Key, at: int)
    requires Tracks(HitsOf(l.hits, key), accepted, l.window, l.maxCalls, now) && now <= at
    ensures Tracks(HitsOf(Sweep(l, at).hits, key), accepted, l.window, l.maxCalls, at)
  {
    TracksPruned(HitsOf(l.hits, key), accepted, l.window, l.maxCalls, now, at);
    SweptIsPruned(l, key, at);
  }

  lemma SweptIsPruned(l: Limiter, key: Key, at: int)
    ensures HitsOf(Sweep(l, at).hits, key) == Pruned(l, key, at)
  {}

  // ------------------------------------------------------------------ runs

  datatype Op =
    | OpAllow(key: Key, at: int)
    | OpRetryAfter(key: Key, at: int)
    | OpReset(key: Key, at: int)
    | OpSweep(at: int)

  function Fresh(maxCalls: int, window: int): Limiter { Limiter(maxCalls, window, map[]) }

  /** Answers of `allow`, oldest first, and the limiter after the run. */
  function Run(l: Limiter, ops: seq<Op>): (Limiter, seq<bool>) {
    if ops == [] then (l, [])
    else
      var (before, answers) := Run(l, ops[..|ops| - 1]);
      match ops[|ops| - 1]
      case OpAllow(key, at) => var (after, ok) := Allow(before, key, at); (after, answers + [ok])
      case OpRetryAfter(key, at) => (RetryAfter(before, key, at).0, answers)
      case OpReset(key, at) => (Reset(before, key), answers)
      case OpSweep(at) => (Sweep(before, at), answers)
  }

  /** The same run on full histories: only accepted calls and resets matter. */
  function RunByHistory(maxCalls: int, window: int, ops: seq<Op>): (History, seq<bool>) {
    if ops == [] then (map[], [])
    else
      var (before, answers) := RunByHistory(maxCalls, window, ops[..|ops| - 1]);
      match ops[|ops| - 1]
      case OpAllow(key, at) =>
        var (after, ok) := AllowByHistory(before, maxCalls, window, key, at); (after, answers + [ok])
      case OpRetryAfter(key, at) => (before, answers)
      case OpReset(key, at) => (before - {key}, answers)
      case OpSweep(at) => (before, answers)
  }

  ghost predicate Chronological(ops: seq<Op>) { forall i, j :: 0 <= i < j < |ops| ==> ops[i].at <= ops[j].at }

  /** Over every run with a clock that does not go back, the pruned queues answer like the full history. */
  lemma {:induction false} RunRefines(maxCalls: int, window: int, ops: seq<Op>, now: int)
    requires Chronological(ops) && forall i :: 0 <= i < |ops| ==> ops[i].at <= now
    ensures var (l, answers) := Run(Fresh(maxCalls, window), ops);
      var (h, expected) := RunByHistory(maxCalls, window, ops);
      answers == expected && l.maxCalls == maxCalls && l.window == window && Simulates(l, h, now)
  {
    if ops == [] {
      forall at: int ensures Used([], window, at) == 0 {}
    } else {
      var rest, last := ops[..|ops| - 1], ops[|ops| - 1];
      RunRefines(maxCalls, window, rest, last.at);
      var l, h := Run(Fresh(maxCalls, window), rest).0, RunByHistory(maxCalls, window, rest).0;
      match last {
        case OpAllow(key, at) => AllowRefines(l, h, at, key, at);
        case OpRetryAfter(key, at) => RetryAfterRefines(l, h, at, key, at);
        case OpReset(key, at) => ResetRefines(l, h, at, key);
        case OpSweep(at) => SweepRefines(l, h, at, at);
      }
      var after := Run(Fresh(maxCalls, window), ops).0;
      LaterStillSimulates(after, RunByHistory(maxCalls, window, ops).0, last.at, now);
    }
  }

  lemma LaterStillSimulates(l: Limiter, h: History, now: int, later: int)
    requires Simulates(l, h, now) && now <= later
    ensures Simulates(l, h, later)
  {
    forall key ensures Tracks(HitsOf(l.hits, key), HitsOf(h, key), l.window, l.maxCalls, later) {
      TracksLater(HitsOf(l.hits, key), HitsOf(h, key), l.window, l.maxCalls, now, later);
    }
  }

  /** No window of the given length, wherever it ends, ever holds more accepted calls than the maximum. */
  lemma WindowNeverOverfull(maxCalls: int, window: int, ops: seq<Op>, key: Key, at: int)
    requires Chronological(ops)
    ensures Used(HitsOf(RunByHistory(maxCalls, window, ops).0, key), window, at) <= Max(maxCalls, 0)
  {
    var now := if ops == [] then 0 else ops[|ops| - 1].at;
    RunRefines(maxCalls, window, ops, now);
    var l := Run(Fresh(maxCalls, window), ops).0;
    assert Tracks(HitsOf(l.hits, key), HitsOf(RunByHistory(maxCalls, window, ops).0, key), window, maxCalls, now);
  }

  lemma QueueAfterRetry(l: Limiter, key: Key, at: int, later: int)
    ensures Pruned(RetryAfter(l, key, at).0, key, later) == Prune(Pruned(l, key, at), later - l.window)
  {}

  /** The oldest accepted call that is still in the window. */
  predicate IsOldest(accepted: seq<int>, window: int, at: int, oldest: int) {
    && oldest in accepted && at - window < oldest
    && forall i :: 0 <= i < |accepted| && at - window < accepted[i] ==> oldest <= accepted[i]
  }

  lemma OldestIsKept(kept: seq<int>, accepted: seq<int>, window: int, at: int)
    requires TailOf(kept, accepted, window, at) && kept != [] && kept[0] > at - window
    ensures IsOldest(accepted, window, at, kept[0])
  {
    assert accepted[|accepted| - |kept|] == kept[0];
  }

  /** The queue holds the window of the history, which is within the limit. */
  lemma QueueInLimits(l: Limiter, h: History, now: int, key: Key, at: int)
    requires Simulates(l, h, now) && now <= at
    ensures var kept := Pruned(l, key, at);
      && |kept| == Used(HitsOf(h, key), l.window, at) <= Max(l.maxCalls, 0)
      && (kept != [] ==> kept[0] > at - l.window && IsOldest(HitsOf(h, key), l.window, at, kept[0]))
  {
    var accepted, kept := HitsOf(h, key), Pruned(l, key, at);
    TracksPruned(HitsOf(l.hits, key), accepted, l.window, l.maxCalls, now, at);
    PruneShape(HitsOf(l.hits, key), at - l.window);
    if kept != [] { OldestIsKept(kept, accepted, l.window, at); }
  }

  /** A full queue lets a call pass once its oldest hit is out of the window. */
  lemma FullUntilOldestLeaves(kept: seq<int>, cutoff: int, maxCalls: int)
    requires kept != [] && |kept| == maxCalls
    ensures |Prune(kept, cutoff)| < maxCalls <==> kept[0] <= cutoff
  {}

  /** So many whole seconds are announced for a wait, the next whole number above it. */
  predicate Announces(seconds: int, wait: int) { (seconds - 1) * 1_000_000 <= wait < seconds * 1_000_000 }

  lemma RoundedUp(wait: int)
    requires wait > 0
    ensures Announces(Max(1, wait / SECOND + 1), wait)
  {}

  /** After asking, a later call passes exactly from that time on. */
  ghost predicate PassesFrom(l: Limiter, key: Key, at: int, time: int) {
    forall later: int :: later >= at ==> (Allow(RetryAfter(l, key, at).0, key, later).1 <==> later >= time)
  }

  lemma FullPasses(l: Limiter, key: Key, at: int, kept: seq<int>)
    requires kept == Pruned(l, key, at) && kept != [] && |kept| == l.maxCalls
    ensures PassesFrom(l, key, at, kept[0] + l.window)
  {
    forall later: int | later >= at
      ensures Allow(RetryAfter(l, key, at).0, key, later).1 <==> later >= kept[0] + l.window
    {
      QueueAfterRetry(l, key, at, later);
      FullUntilOldestLeaves(kept, later - l.window, l.maxCalls);
    }
  }

  /** So many seconds are announced, and a call passes from when the oldest one in the window leaves it. */
  ghost predicate Waits(l: Limiter, accepted: seq<int>, key: Key, at: int, seconds: int, oldest: int) {
    && IsOldest(accepted, l.window, at, oldest) && Announces(seconds, oldest + l.window - at)
    && PassesFrom(l, key, at, oldest + l.window)
  }

  /**
   * `retry_after` fails exactly when nothing can ever be allowed; 0 means a call passes now; anything else is the time
   * until the oldest accepted call in the window leaves it, before which no call passes, in seconds and rounded up.
   */
  ghost predicate RetryAfterTells(l: Limiter, accepted: seq<int>, key: Key, at: int) {
    var seconds := RetryAfter(l, key, at).1;
    && (seconds.None? <==> l.maxCalls <= 0)
    && (seconds == Some(0) <==> Used(accepted, l.window, at) < l.maxCalls)
    && (seconds.Some? && seconds.value != 0 ==> exists oldest :: Waits(l, accepted, key, at, seconds.value, oldest))
  }

  lemma FullWaits(l: Limiter, accepted: seq<int>, key: Key, at: int, kept: seq<int>, seconds: int)
    requires kept == Pruned(l, key, at) && kept != [] && |kept| == l.maxCalls && kept[0] > at - l.window
    requires IsOldest(accepted, l.window, at, kept[0]) && seconds == Max(1, (kept[0] + l.window - at) / SECOND + 1)
    ensures Waits(l, accepted, key, at, seconds, kept[0])
  {
    RoundedUp(kept[0] + l.window - at);
    FullPasses(l, key, at, kept);
  }

  lemma QueueTells(l: Limiter, accepted: seq<int>, key: Key, at: int, kept: seq<int>)
    requires kept == Pruned(l, key, at) && |kept| == Used(accepted, l.window, at) <= Max(l.maxCalls, 0)
    requires kept != [] ==> kept[0] > at - l.window && IsOldest(accepted, l.window, at, kept[0])
    ensures RetryAfterTells(l, accepted, key, at)
  {
    if |kept| >= l.maxCalls && kept != [] {
      FullWaits(l, accepted, key, at, kept, RetryAfter(l, key, at).1.value);
    }
  }

  lemma RetryAfterIsEnough(l: Limiter, h: History, now: int, key: Key, at: int)
    requires Simulates(l, h, now) && now <= at
    ensures RetryAfterTells(l, HitsOf(h, key), key, at)
  {
    QueueInLimits(l, h, now, key, at);
    QueueTells(l, HitsOf(h, key), key, at, Pruned(l, key, at));
  }

  /** So it is after every run with a clock that does not go back. */
  lemma RetryAfterInAnyRun(maxCalls: int, window: int, ops: seq<Op>, key: Key, at: int)
    requires Chronological(ops) && forall i :: 0 <= i < |ops| ==> ops[i].at <= at
    ensures RetryAfterTells(Run(Fresh(maxCalls, window), ops).0, HitsOf(RunByHistory(maxCalls, window, ops).0, key),
                            key, at)
  {
    RunRefines(maxCalls, window, ops, at);
    RetryAfterIsEnough(Run(Fresh(maxCalls, window), ops).0, RunByHistory(maxCalls, window, ops).0, at, key, at);
  }

  // ------------------------------------------------------------------ the object

  /** The keys outside `left` have been swept, the others not yet. */
  ghost predicate Sweeping(l: Limiter, hits: map<Key, seq<int>>, left: set<Key>, at: int) {
    && left <= l.hits.Keys && hits.Keys <= l.hits.Keys
    && (forall key :: key in left ==> key in hits && hits[key] == l.hits[key])
    && forall key :: key in l.hits && key !in left ==>
         (key in hits <==> Pruned(l, key, at) != []) && (key in hits ==> hits[key] == Pruned(l, key, at))
  }

  function SweptAt(hits: map<Key, seq<int>>, key: Key, queue: seq<int>): map<Key, seq<int>> {
    if queue == [] then hits - {key} else hits[key := queue]
  }

  lemma SweepOne(l: Limiter, hits: map<Key, seq<int>>, left: set<Key>, at: int, key: Key)
    requires Sweeping(l, hits, left, at) && key in left
    ensures Sweeping(l, SweptAt(hits, key, Pruned(l, key, at)), left - {key}, at)
  {}

  lemma SweepDone(l: Limiter, hits: map<Key, seq<int>>, at: int)
    requires Sweeping(l, hits, {}, at)
    ensures Sweep(l, at) == l.(hits := hits)
  {}

  class RateLimiter {
    const maxCalls: int
    const window: int
    var hits: map<Key, seq<int>>

    function Value(): Limiter
      reads this
    {
      Limiter(maxCalls, window, hits)
    }

    constructor (maxCalls: int, window: int)
      ensures Value() == Limiter(maxCalls, window, map[])
    {
      this.maxCalls, this.window, hits := maxCalls, window, map[];
    }

    /** `_prune`: creates a missing queue and pops expired hits from its front. */
    method PruneKey(key: Key, at: int) returns (queue: seq<int>)
      modifies this
      ensures queue == Pruned(old(Value()), key, at)
      ensures hits == old(hits)[key := queue]
    {
      if key !in hits { hits := hits[key := []]; }
      var cutoff := at - window;
      queue := hits[key];
      while queue != [] && queue[0] <= cutoff
        invariant Prune(queue, cutoff) == Pruned(old(Value()), key, at)
        decreases |queue|
      {
        queue := queue[1..];
      }
      hits := hits[key := queue];
    }

    method TryAllow(key: Key, at: int) returns (ok: bool)
      modifies this
      ensures (Value(), ok) == Allow(old(Value()), key, at)
    {
      var queue := PruneKey(key, at);
      if |queue| >= maxCalls { return false; }
      assert hits[key := queue + [at]] == old(hits)[key := queue + [at]];
      hits := hits[key := queue + [at]];
      ok := true;
    }

    method SecondsToWait(key: Key, at: int) returns (seconds: Option<int>)
      modifies this
      ensures (Value(), seconds) == RetryAfter(old(Value()), key, at)
    {
      var queue := PruneKey(key, at);
      if |queue| < maxCalls { return Some(0); }
      if queue == [] { return None; }
      seconds := Some(Max(1, (queue[0] + window - at) / SECOND + 1));
    }

    method Clear(key: Key)
      modifies this
      ensures Value() == Reset(old(Value()), key)
    {
      hits := hits - {key};
    }

    /** Prunes one queue and drops it when nothing is left. */
    method SweepKey(key: Key, at: int)
      modifies this
      ensures hits == SweptAt(old(hits), key, Pruned(old(Value()), key, at))
    {
      var queue := PruneKey(key, at);
      if queue == [] { hits := hits - {key}; }
    }

    /** Prunes every queue and drops the empty ones. */
    method SweepAll(at: int)
      modifies this
      ensures Value() == Sweep(old(Value()), at)
    {
      var keys := hits.Keys;
      ghost var before := Value();
      while keys != {}
        invariant Sweeping(before, hits, keys, at)
        decreases |keys|
      {
        var key :| key in keys;
        SweepOne(before, hits, keys, at, key);
        SweepKey(key, at);
        keys := keys - {key};
      }
      SweepDone(before, hits, at);
    }
  }
}
