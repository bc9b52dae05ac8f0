/** security_kit/guards.py, `LockoutPolicy`, as driven by `authenticate` in auth_kit/service.py. */
module Lockouts {
  import opened Prelude

  datatype Policy = Policy(maxAttempts: int, duration: int)

  const LOCKOUT := Policy(5, 15 * MINUTE)

  datatype LockState = LockState(failed: int, until: Option<int>)

  predicate IsLocked(until: Option<int>, at: int) { until.Some? && until.value > at }

  function RemainingMinutes(until: Option<int>, at: int): int {
    if until.None? || until.value <= at then 0 else Max(1, (until.value - at) / MINUTE + 1)
  }

  /** An expired lock starts the count again. */
  function OnFailure(p: Policy, s: LockState, at: int): LockState {
    var attempts := (if s.until.Some? && !IsLocked(s.until, at) then 0 else s.failed) + 1;
    LockState(attempts, if attempts >= p.maxAttempts then Some(at + p.duration) else None)
  }

  function OnSuccess(): LockState { LockState(0, None) }

  datatype Account = Account(lock: LockState, active: bool, deactivated: bool)

  /** HTTP 423 for a deactivated, locked or inactive account, 400 for a wrong password. */
  datatype Reply = Welcome | Locked | Invalid

  function Authenticate(p: Policy, a: Account, passwordOk: bool, at: int): (Account, Reply) {
    if a.deactivated || IsLocked(a.lock.until, at) then (a, Locked)
    else if !passwordOk then (a.(lock := OnFailure(p, a.lock, at)), Invalid)
    else if !a.active then (a, Locked)
    else (a.(lock := OnSuccess()), Welcome)
  }

  datatype Event =
    | Attempt(passwordOk: bool, at: int)
    | PasswordReset(at: int)
    | SetFlags(active: bool, deactivated: bool, at: int)

  function Happen(p: Policy, a: Account, failures: seq<int>, event: Event): (Account, seq<int>) {
    match event
    case Attempt(passwordOk, at) =>
      var (b, reply) := Authenticate(p, a, passwordOk, at);
      (b, if reply == Invalid then failures + [at] else if reply == Welcome then [] else failures)
    case PasswordReset(at) => (a.(lock := OnSuccess()), [])
    case SetFlags(active, deactivated, at) => (a.(active := active, deactivated := deactivated), failures)
  }

  /** The account, and the times of the failures counted since the last successful login or password reset. */
  function Run(p: Policy, events: seq<Event>): (Account, seq<int>) {
    if events == [] then (Account(OnSuccess(), true, false), [])
    else
      var (a, failures) := Run(p, events[..|events| - 1]);
      Happen(p, a, failures, events[|events| - 1])
  }

  ghost predicate Chronological(events: seq<Event>) {
    forall i, j :: 0 <= i < j < |events| ==> events[i].at <= events[j].at
  }

  // ------------------------------------------------------------------ blocks of failures

  function BlockSize(p: Policy): nat { Max(p.maxAttempts, 1) }

  /** Failure k came at least a lock's length after the one before it. */
  predicate Pause(p: Policy, failures: seq<int>, k: int) {
    0 < k < |failures| && failures[k - 1] + p.duration <= failures[k]
  }

  /** Some failure after i, at most a block later, followed a pause. */
  ghost predicate PauseAfter(p: Policy, failures: seq<int>, i: nat) {
    exists k :: i < k <= i + BlockSize(p) && Pause(p, failures, k)
  }

  /**
   * The stored count is the size of the current block of failures, which started after a pause unless it is the first;
   * a full block is exactly what sets the lock. Nothing is said about the order of the clock readings.
   */
  ghost predicate Tracks(p: Policy, s: LockState, failures: seq<int>) {
    && 0 <= s.failed <= |failures| && s.failed <= BlockSize(p) && (s.failed == 0 ==> failures == [])
    && s.until == (if s.failed == BlockSize(p) then Some(failures[|failures| - 1] + p.duration) else None)
    && (0 < s.failed < |failures| ==> Pause(p, failures, |failures| - s.failed))
    && (forall i: nat :: i + BlockSize(p) < |failures| ==> PauseAfter(p, failures, i))
  }

  lemma FailureTracks(p: Policy, s: LockState, failures: seq<int>, at: int)
    requires Tracks(p, s, failures) && !IsLocked(s.until, at)
    ensures Tracks(p, OnFailure(p, s, at), failures + [at])
  {
    var t, all := OnFailure(p, s, at), failures + [at];
    forall k: int | Pause(p, failures, k) ensures Pause(p, all, k) {}
    assert 0 < t.failed < |all| ==> Pause(p, all, |all| - t.failed);
    forall i: nat | i + BlockSize(p) < |all| ensures PauseAfter(p, all, i) {
      if i + BlockSize(p) < |failures| {
        assert PauseAfter(p, failures, i);
        var k :| i < k <= i + BlockSize(p) && Pause(p, failures, k);
        assert Pause(p, all, k);
      } else {
        assert i < |all| - t.failed <= i + BlockSize(p);
      }
    }
  }

  lemma NothingTracks(p: Policy)
    ensures Tracks(p, OnSuccess(), [])
  {}

  lemma HappenTracks(p: Policy, a: Account, failures: seq<int>, event: Event)
    requires Tracks(p, a.lock, failures)
    ensures var (b, counted) := Happen(p, a, failures, event); Tracks(p, b.lock, counted)
  {
    NothingTracks(p);
    if !IsLocked(a.lock.until, event.at) { FailureTracks(p, a.lock, failures, event.at); }
  }

  lemma {:induction false} RunTracks(p: Policy, events: seq<Event>)
    ensures var (a, failures) := Run(p, events); Tracks(p, a.lock, failures)
  {
    if events == [] {
      NothingTracks(p);
    } else {
      var rest, last := events[..|events| - 1], events[|events| - 1];
      RunTracks(p, rest);
      var (a, failures) := Run(p, rest);
      HappenTracks(p, a, failures, last);
    }
  }

  // ------------------------------------------------------------------ what every run guarantees

  /** Since the last success or reset, among any maximum + 1 consecutive failures two are a lock's length apart. */
  lemma PauseInEveryBlock(p: Policy, events: seq<Event>, i: nat)
    requires i + BlockSize(p) < |Run(p, events).1|
    ensures var failures := Run(p, events).1;
      exists k :: i < k <= i + BlockSize(p) && k < |failures| && failures[k - 1] + p.duration <= failures[k]
  {
    RunTracks(p, events);
    var failures := Run(p, events).1;
    assert PauseAfter(p, failures, i);
    var k :| i < k <= i + BlockSize(p) && Pause(p, failures, k);
  }

  /**
   * The stored count never exceeds the maximum, and the account is locked exactly until a lock's length after the
   * failure that filled a block.
   */
  lemma LockedExactlyAfterFullBlock(p: Policy, events: seq<Event>, at: int)
    ensures var (a, failures) := Run(p, events);
      && 0 <= a.lock.failed <= BlockSize(p) && a.lock.failed <= |failures|
      && (IsLocked(a.lock.until, at) <==>
            a.lock.failed == BlockSize(p) && at < failures[|failures| - 1] + p.duration)
  {
    RunTracks(p, events);
  }

  // ------------------------------------------------------------------ how many failures fit into a lock's length

  function During(failures: seq<int>, start: int, duration: int): nat -> bool {
    (i: nat) => i < |failures| && start <= failures[i] < start + duration
  }

  /** No interval of a lock's length holds more failures than allowed. */
  ghost predicate Throttled(p: Policy, failures: seq<int>) {
    forall start: int :: Count(|failures|, During(failures, start, p.duration)) <= BlockSize(p)
  }

  lemma {:induction false} CountInRange(n: nat, p: nat -> bool, first: nat, size: nat)
    requires forall i: nat :: i < n && p(i) ==> first <= i < first + size
    ensures Count(n, p) <= size && (n <= first ==> Count(n, p) == 0) && (n > first ==> Count(n, p) <= n - first)
  {
    if n == 0 {
    } else {
      CountInRange(n - 1, p, first, size);
    }
  }

  lemma {:induction false} FirstIndex(n: nat, p: nat -> bool) returns (first: nat)
    ensures first <= n && (first < n ==> p(first)) && forall i: nat :: i < first ==> !p(i)
  {
    if n == 0 {
      first := 0;
    } else {
      first := FirstIndex(n - 1, p);
      if first == n - 1 && !p(n - 1) { first := n; }
    }
  }

  ghost predicate Increasing(failures: seq<int>) {
    forall i, j :: 0 <= i < j < |failures| ==> failures[i] <= failures[j]
  }

  lemma OrderedIsThrottled(p: Policy, failures: seq<int>)
    requires Increasing(failures) && forall i: nat :: i + BlockSize(p) < |failures| ==> PauseAfter(p, failures, i)
    ensures Throttled(p, failures)
  {
    forall start: int ensures Count(|failures|, During(failures, start, p.duration)) <= BlockSize(p) {
      var inside := During(failures, start, p.duration);
      var first := FirstIndex(|failures|, inside);
      forall i: nat | first + BlockSize(p) <= i < |failures| ensures failures[first] + p.duration <= failures[i] {
        assert PauseAfter(p, failures, first);
        var k :| first < k <= first + BlockSize(p) && Pause(p, failures, k);
        assert failures[first] <= failures[k - 1] && failures[k] <= failures[i];
      }
      CountInRange(|failures|, inside, first, BlockSize(p));
    }
  }

  lemma {:induction false} RunIncreases(p: Policy, events: seq<Event>, now: int)
    requires Chronological(events) && forall i :: 0 <= i < |events| ==> events[i].at <= now
    ensures var failures := Run(p, events).1;
      Increasing(failures) && forall i :: 0 <= i < |failures| ==> failures[i] <= now
  {
    if events == [] {
    } else {
      RunIncreases(p, events[..|events| - 1], events[|events| - 1].at);
    }
  }

  /** With a clock that never goes back the counted failures since the last success or reset are throttled. */
  lemma FailuresAreThrottled(p: Policy, events: seq<Event>)
    requires Chronological(events)
    ensures Throttled(p, Run(p, events).1)
  {
    RunTracks(p, events);
    RunIncreases(p, events, if events == [] then 0 else events[|events| - 1].at);
    OrderedIsThrottled(p, Run(p, events).1);
  }

  // ------------------------------------------------------------------ which policies throttle under any clock

  ghost predicate AlwaysThrottles(p: Policy) { forall events :: Throttled(p, Run(p, events).1) }

  lemma {:induction false} StepsIncrease(p: Policy, failures: seq<int>, i: nat, j: nat)
    requires p.duration >= 0 && i <= j < |failures| && forall k :: 0 < k < |failures| ==> Pause(p, failures, k)
    ensures failures[i] <= failures[j]
  {
    if i == j {
    } else {
      StepsIncrease(p, failures, i, j - 1);
      assert Pause(p, failures, j);
    }
  }

  lemma {:induction false} EmptyInterval(n: nat, failures: seq<int>, start: int, duration: int)
    requires duration <= 0
    ensures Count(n, During(failures, start, duration)) == 0
  {
    if n == 0 {
    } else {
      EmptyInterval(n - 1, failures, start, duration);
    }
  }

  lemma SingleAttemptsThrottle(p: Policy, events: seq<Event>)
    requires p.maxAttempts <= 1 || p.duration <= 0
    ensures Throttled(p, Run(p, events).1)
  {
    RunTracks(p, events);
    var failures := Run(p, events).1;
    if p.duration <= 0 {
      forall start: int ensures Count(|failures|, During(failures, start, p.duration)) <= BlockSize(p) {
        EmptyInterval(|failures|, failures, start, p.duration);
      }
    } else {
      forall k | 0 < k < |failures| ensures Pause(p, failures, k) { assert PauseAfter(p, failures, k - 1); }
      forall i, j | 0 <= i < j < |failures| ensures failures[i] <= failures[j] { StepsIncrease(p, failures, i, j); }
      OrderedIsThrottled(p, failures);
    }
  }

  /** So many failures at once, the clock standing at 0. */
  lemma {:induction false} Burst(p: Policy, n: nat) returns (events: seq<Event>)
    requires 2 <= p.maxAttempts && n <= p.maxAttempts
    ensures Run(p, events)
         == (Account(LockState(n, if n == p.maxAttempts then Some(p.duration) else None), true, false), seq(n, i => 0))
  {
    if n == 0 {
      events := [];
    } else {
      events := Burst(p, n - 1);
      var more := events + [Attempt(false, 0)];
      assert more[..|events|] == events && seq(n - 1, i => 0) + [0] == seq(n, i => 0);
      events := more;
    }
  }

  lemma {:induction false} ZerosInside(n: nat, m: nat, failures: seq<int>, duration: int)
    requires n <= m <= |failures| && duration > 0 && forall i :: 0 <= i < m ==> failures[i] == 0
    ensures Count(n, During(failures, 0, duration)) == n
  {
    if n == 0 {
    } else {
      ZerosInside(n - 1, m, failures, duration);
    }
  }

  /** A burst locks the account; one failure when the lock ends starts a new count; then the clock jumps back. */
  lemma ClockBackOverfills(p: Policy) returns (events: seq<Event>)
    requires p.maxAttempts >= 2 && p.duration > 0
    ensures var failures := Run(p, events).1;
      Count(|failures|, During(failures, 0, p.duration)) == p.maxAttempts + 1
  {
    var burst := Burst(p, p.maxAttempts);
    var unlocked := burst + [Attempt(false, p.duration)];
    assert unlocked[..|burst|] == burst;
    var (locked, failed) := Run(p, burst);
    assert Run(p, unlocked) == Happen(p, locked, failed, Attempt(false, p.duration));
    assert Run(p, unlocked) == (Account(LockState(1, None), true, false), failed + [p.duration]);
    events := unlocked + [Attempt(false, 0)];
    assert events[..|unlocked|] == unlocked;
    var failures := Run(p, events).1;
    assert events[|unlocked|] == Attempt(false, 0) && failures == failed + [p.duration] + [0];
    assert failures == seq(p.maxAttempts, i => 0) + [p.duration] + [0];
    ZerosInside(p.maxAttempts, p.maxAttempts, failures, p.duration);
  }

  /** A policy throttles whatever the clock reads if and only if it locks after one failure, or for no time at all. */
  lemma ThrottlesAnyClockExactly(p: Policy)
    ensures AlwaysThrottles(p) <==> p.maxAttempts <= 1 || p.duration <= 0
  {
    if p.maxAttempts <= 1 || p.duration <= 0 {
      forall events ensures Throttled(p, Run(p, events).1) { SingleAttemptsThrottle(p, events); }
    } else {
      var events := ClockBackOverfills(p);
      var failures := Run(p, events).1;
      assert Count(|failures|, During(failures, 0, p.duration)) > BlockSize(p);
      assert !Throttled(p, failures);
    }
  }

  // ------------------------------------------------------------------ one login

  /** How a failed attempt is counted: from 0 again when there was a lock, which must have expired. */
  ghost predicate Counts(p: Policy, a: Account, b: Account, at: int) {
    && b.active == a.active && b.deactivated == a.deactivated
    && b.lock.failed == (if a.lock.until.Some? then 1 else a.lock.failed + 1)
    && (b.lock.until.Some? <==> b.lock.failed >= p.maxAttempts)
    && (b.lock.until.Some? ==> b.lock.until.value == at + p.duration)
  }

  /**
   * A login is welcome exactly with the right password for an active account, not being withdrawn, that is not locked
   * by a full block of failures; it clears the count. A wrong password is the only thing that is counted.
   */
  lemma LoginInAnyRun(p: Policy, events: seq<Event>, passwordOk: bool, at: int)
    ensures var (a, failures) := Run(p, events);
      var (b, reply) := Authenticate(p, a, passwordOk, at);
      var locked := failures != [] && a.lock.failed == BlockSize(p) && at < failures[|failures| - 1] + p.duration;
      && (reply == Welcome <==> passwordOk && a.active && !a.deactivated && !locked)
      && (reply == Invalid <==> !passwordOk && !a.deactivated && !locked)
      && (reply == Locked <==> a.deactivated || locked || (passwordOk && !a.active))
      && (reply == Welcome ==> b == a.(lock := LockState(0, None)))
      && (reply == Invalid ==> Counts(p, a, b, at))
      && (reply == Locked ==> b == a)
  {
    LockedExactlyAfterFullBlock(p, events, at);
  }

  /** What the flags were last set to; new accounts are active. */
  function LastFlags(events: seq<Event>): (bool, bool) {
    if events == [] then (true, false)
    else
      match events[|events| - 1]
      case SetFlags(active, deactivated, _) => (active, deactivated)
      case _ => LastFlags(events[..|events| - 1])
  }

  /** No login, failed or not, touches the flags. */
  lemma {:induction false} FlagsAreLastSet(p: Policy, events: seq<Event>)
    ensures (Run(p, events).0.active, Run(p, events).0.deactivated) == LastFlags(events)
  {
    if events == [] {
    } else {
      FlagsAreLastSet(p, events[..|events| - 1]);
    }
  }

  /**
   * None are announced exactly when there is no lock; otherwise one more than the full minutes left, so that waiting
   * them ends the lock and waiting one less does not end it early.
   */
  lemma WaitingEndsTheLock(until: Option<int>, at: int)
    ensures RemainingMinutes(until, at) >= 0
    ensures RemainingMinutes(until, at) == 0 <==> until.None? || until.value <= at
    ensures !IsLocked(until, at + RemainingMinutes(until, at) * 60_000_000)
    ensures RemainingMinutes(until, at) > 0 ==>
      (RemainingMinutes(until, at) - 1) * 60_000_000 <= until.value - at < RemainingMinutes(until, at) * 60_000_000
  {
    if IsLocked(until, at) {
      assert (until.value - at) / MINUTE * MINUTE + (until.value - at) % MINUTE == until.value - at;
    }
  }

  // ------------------------------------------------------------------ the user row

  class UserRow {
    var failedLoginAttempts: int
    var lockedUntil: Option<int>
    var isActive: bool
    var deactivated: bool

    function Value(): Account
      reads this
    {
      Account(LockState(failedLoginAttempts, lockedUntil), isActive, deactivated)
    }

    constructor ()
      ensures Value() == Account(OnSuccess(), true, false)
    {
      failedLoginAttempts, lockedUntil, isActive, deactivated := 0, None, true, false;
    }

    method Login(passwordOk: bool, at: int) returns (reply: Reply)
      modifies this
      ensures (Value(), reply) == Authenticate(Policy(5, 900_000_000), old(Value()), passwordOk, at)
    {
      if deactivated { return Locked; }
      if IsLocked(lockedUntil, at) { return Locked; }
      if !passwordOk {
        var state := OnFailure(LOCKOUT, LockState(failedLoginAttempts, lockedUntil), at);
        failedLoginAttempts := state.failed;
        lockedUntil := state.until;
        return Invalid;
      }
      if !isActive { return Locked; }
      if failedLoginAttempts != 0 || lockedUntil.Some? {
        failedLoginAttempts := OnSuccess().failed;
        lockedUntil := OnSuccess().until;
      }
      reply := Welcome;
    }

    /** The lock side of a password reset. */
    method ResetPassword()
      modifies this
      ensures Value() == old(Value()).(lock := OnSuccess())
    {
      failedLoginAttempts := 0;
      lockedUntil := None;
    }
  }
}
