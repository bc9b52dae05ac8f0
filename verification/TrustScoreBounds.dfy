/** Which weights keep all reachable scores between 0 and their sum: exactly the non-negative ones. */
module TrustScoreBounds {
  import opened Prelude
  import opened CareModel
  import opened CareBooks
  import opened CareInvariants
  import opened CareRuns
  import opened CareOutcomes
  import opened CareScenarios
  import opened TrustScore

  predicate InRange(s: State, w: Weights, user: UserId) { 0.0 <= Score(s, w, user) <= w.Total() }

  ghost predicate AlwaysInRange(w: Weights) {
    forall s, children, calls, user :: Reached(s, children, calls) ==> InRange(s, w, user)
  }

  // ------------------------------------------------------------------ a helper with a past

  /** The helper failed to come n times. */
  ghost predicate Absences(s: State, n: nat) {
    && s.children == CHILDREN && (forall key :: key in s.schedules ==> key.0 == GUARDIAN)
    && BalanceOf(s.accounts, GUARDIAN) == SEED_POINTS
    && |s.sessions| == n && s.evaluations == [] && s.careLogs == {}
    && forall i :: 0 <= i < n ==>
         s.sessions[i] == Care(2 * i + 1, 1, NoShow).(cancelledAt := s.sessions[i].cancelledAt, atFault := Some(HELPER))
  }

  lemma Absent(s: State, calls: seq<Timed>, held: State, n: nat, now: int)
    requires Reached(held, CHILDREN, calls) && Absences(s, n) && DayHeld(s, held, 2 * n + 1, 1)
    requires now == (2 * n + 2) * 48 * HALF_HOUR
    ensures Absences(ReportNoShow(held, n, GUARDIAN, now).state, n + 1)
  {
    NoShowOutcome(held, CHILDREN, calls, n, GUARDIAN, now);
    FindAfterAppend(s.holds, Hold(n, GUARDIAN, HELPER, 1, Held, None), n);
    var t := ReportNoShow(held, n, GUARDIAN, now).state;
    assert t.schedules == held.schedules && t.evaluations == held.evaluations && t.careLogs == held.careLogs;
    forall i | 0 <= i < n ensures t.sessions[i] == s.sessions[i] {}
  }

  lemma AbsentAgain(before: seq<Timed>, s: State, n: nat) returns (calls: seq<Timed>, t: State)
    requires Leads(before, s) && Absences(s, n)
    ensures Leads(calls, t) && Absences(t, n + 1)
  {
    var held;
    calls, held := HoldDay(before, s, 2 * n + 1, 1, 0);
    var now := (2 * n + 2) * 48 * HALF_HOUR;
    Absent(s, calls, held, n, now);
    calls, t := Then(calls, held, CallReportNoShow(n, GUARDIAN), now);
  }

  lemma {:induction false} AbsencesRun(n: nat) returns (calls: seq<Timed>, s: State)
    ensures Leads(calls, s) && Absences(s, n)
  {
    if n == 0 {
      calls, s := [], Initial(CHILDREN);
    } else {
      calls, s := AbsencesRun(n - 1);
      calls, s := AbsentAgain(calls, s, n - 1);
    }
  }

  /** After n absences the helper came once, was rated, and wrote a journal or not. */
  ghost predicate Past(s: State, n: nat, rating: int, logged: bool) {
    && |s.sessions| == n + 1 && s.evaluations == [Evaluation(n, GUARDIAN, HELPER, rating)]
    && s.careLogs == (if logged then {n} else {})
    && (forall i :: 0 <= i < n ==>
          s.sessions[i].status == NoShow && s.sessions[i].atFault == Some(HELPER) && s.sessions[i].provider == HELPER
          && s.sessions[i].checkoutAt.None?)
    && s.sessions[n].provider == HELPER && s.sessions[n].checkoutAt.Some? && s.sessions[n].status == Confirmed
    && s.sessions[n].atFault.None?
  }

  /** The visit itself: check-in, check-out and rating. */
  lemma Visit(before: seq<Timed>, s: State, n: nat, rating: int, now: int) returns (calls: seq<Timed>, t: State)
    requires Leads(before, s) && 1 <= rating <= 5
    requires |s.sessions| == n + 1 && s.sessions[n] == Care(2 * n + 1, 1, Confirmed) && s.evaluations == []
    ensures Leads(calls, t) && t.careLogs == s.careLogs
    ensures t.evaluations == [Evaluation(n, GUARDIAN, HELPER, rating)]
    ensures t.sessions == s.sessions[n := s.sessions[n].(checkinAt := Some(now), checkoutAt := Some(now),
                                                          actualMinutes := Some(0))]
  {
    var entered, left;
    calls, entered := Then(before, s, CallCheckin(n, HELPER, false, false), now);
    var care := s.sessions[n].(checkinAt := Some(now));
    assert entered == s.(sessions := s.sessions[n := care]);
    LeftBy(entered, care, n, now);
    calls, left := Then(calls, entered, CallCheckout(n, HELPER), now);
    calls, t := Then(calls, left, CallSubmitEvaluation(n, GUARDIAN, rating), now);
  }

  lemma LeftBy(s: State, care: CareSession, n: nat, now: int)
    requires n < |s.sessions| && s.sessions[n] == care && care.provider == HELPER && care.status == Confirmed
    requires care.checkinAt == Some(now) && care.checkoutAt.None?
    ensures var t := Checkout(s, n, HELPER, now).state;
      t.sessions == s.sessions[n := care.(checkoutAt := Some(now), actualMinutes := Some(0))]
      && t.evaluations == s.evaluations && t.careLogs == s.careLogs
  {}

  lemma Visited(absences: State, held: State, s: State, n: nat, rating: int)
    requires Absences(absences, n) && DayHeld(absences, held, 2 * n + 1, 1)
    requires s.careLogs == held.careLogs && s.evaluations == [Evaluation(n, GUARDIAN, HELPER, rating)]
    requires s.sessions == held.sessions[n := held.sessions[n].(checkinAt := Some(0), checkoutAt := Some(0),
                                                               actualMinutes := Some(0))]
    ensures Past(s, n, rating, false)
  {}

  lemma UnloggedRun(n: nat, rating: int) returns (calls: seq<Timed>, s: State)
    requires 1 <= rating <= 5
    ensures Leads(calls, s) && Past(s, n, rating, false)
  {
    var absences, held;
    calls, absences := AbsencesRun(n);
    calls, held := HoldDay(calls, absences, 2 * n + 1, 1, 0);
    calls, s := Visit(calls, held, n, rating, 0);
    Visited(absences, held, s, n, rating);
  }

  lemma PastRun(n: nat, rating: int, logged: bool) returns (calls: seq<Timed>, s: State)
    requires 1 <= rating <= 5
    ensures Reached(s, CHILDREN, calls) && Past(s, n, rating, logged)
  {
    calls, s := UnloggedRun(n, rating);
    if logged { calls, s := Then(calls, s, CallWriteLog(n, HELPER, false), 0); }
  }

  // ------------------------------------------------------------------ the helper's score

  lemma {:induction false} CountAll(n: nat, p: nat -> bool)
    requires forall i: nat :: i < n ==> p(i)
    ensures Count(n, p) == n
  {
    if n == 0 {
    } else {
      CountAll(n - 1, p);
    }
  }

  lemma PastCounts(s: State, n: nat, rating: int, logged: bool)
    requires Past(s, n, rating, logged)
    ensures Count(n + 1, AbsenceOf(s, HELPER)) == n && Count(n + 1, Concluded(s, HELPER)) == n + 1
    ensures Count(n + 1, CompletedBy(s, HELPER)) == 1 && Count(n + 1, LoggedBy(s, HELPER)) == if logged then 1 else 0
  {
    CountAll(n, AbsenceOf(s, HELPER));
    CountAll(n, Concluded(s, HELPER));
    CountNone(n, CompletedBy(s, HELPER));
    CountNone(n, LoggedBy(s, HELPER));
  }

  lemma RatedOnce(evaluations: seq<Evaluation>, user: UserId)
    requires |evaluations| == 1 && evaluations[0].evaluatee == user
    ensures Count(1, Rated(evaluations, user)) == 1 && Sum(1, RatingTerms(evaluations, user)) == evaluations[0].rating
  {
    assert Count(0, Rated(evaluations, user)) == 0 && Sum(0, RatingTerms(evaluations, user)) == 0;
  }

  ghost predicate HasRates(s: State, n: nat, rating: int, logged: bool) {
    && RatingNorm(s, HELPER) == (rating as real - 1.0) / 4.0
    && NoShowRate(s, HELPER) == n as real / (n + 1) as real
    && JournalCompletionRate(s, HELPER) == (if logged then 1.0 else 0.0)
    && forall w :: Score(s, w, HELPER)
         == w.w1 * ((rating as real - 1.0) / 4.0) + w.w2 + w.w3 * (1.0 - n as real / (n + 1) as real)
            + if logged then w.w4 else 0.0
  }

  lemma PastRates(s: State, n: nat, rating: int, logged: bool)
    requires Past(s, n, rating, logged)
    ensures HasRates(s, n, rating, logged)
  {
    PastCounts(s, n, rating, logged);
    RatedOnce(s.evaluations, HELPER);
  }

  /** For any number of no-shows and any rating, some run leaves the helper with exactly these rates and scores. */
  lemma RatesAreReached(n: nat, rating: int, logged: bool)
    requires 1 <= rating <= 5
    ensures exists s, calls :: Reached(s, CHILDREN, calls) && HasRates(s, n, rating, logged)
  {
    var calls, s := PastRun(n, rating, logged);
    PastRates(s, n, rating, logged);
  }

  // ------------------------------------------------------------------ what out-of-range scores there are

  lemma FreshScore(w: Weights)
    requires AlwaysInRange(w)
    ensures w.w1 >= 0.0
  {
    var s := Initial(CHILDREN);
    assert Reached(s, CHILDREN, []);
    assert InRange(s, w, GUARDIAN);
    assert Score(s, w, GUARDIAN) == 0.5 * w.w1 + w.w2 + w.w3 + w.w4;
  }

  lemma NeverLogged(w: Weights)
    requires AlwaysInRange(w)
    ensures w.w4 >= 0.0
  {
    var calls, s := PastRun(0, 5, false);
    PastRates(s, 0, 5, false);
    assert RatingNorm(s, HELPER) == 1.0 && NoShowRate(s, HELPER) == 0.0 && JournalCompletionRate(s, HELPER) == 0.0;
    assert InRange(s, w, HELPER);
  }

  lemma AbsentOnce(w: Weights)
    requires AlwaysInRange(w)
    ensures w.w3 >= 0.0
  {
    var calls, s := PastRun(1, 5, true);
    PastRates(s, 1, 5, true);
    assert RatingNorm(s, HELPER) == 1.0 && NoShowRate(s, HELPER) == 0.5 && JournalCompletionRate(s, HELPER) == 1.0;
    assert InRange(s, w, HELPER);
  }

  /** Rated worst, without a journal and mostly absent: little but the constant part of the score is left. */
  lemma MostlyAbsent(w: Weights, n: nat)
    requires AlwaysInRange(w)
    ensures w.w2 + w.w3 * (1.0 - n as real / (n + 1) as real) >= 0.0
  {
    var calls, s := PastRun(n, 1, false);
    PastRates(s, n, 1, false);
    assert InRange(s, w, HELPER);
  }

  lemma Remainder(n: nat)
    ensures 1.0 - n as real / (n + 1) as real == 1.0 / (n + 1) as real
  {
    var d := (n + 1) as real;
    assert n as real / d + 1.0 / d == 1.0;
  }

  lemma AbsentForever(w: Weights)
    requires AlwaysInRange(w) && w.w3 >= 0.0
    ensures w.w2 >= 0.0
  {
    if w.w2 < 0.0 {
      var q := w.w3 / -w.w2;
      var n: nat := q.Floor;
      MostlyAbsent(w, n);
      Remainder(n);
      Shrinks(w.w3, -w.w2, q, (n + 1) as real, 1.0 / (n + 1) as real);
      assert false;
    }
  }

  lemma Shrinks(x: real, y: real, q: real, d: real, part: real)
    requires y > 0.0 && q == x / y && d > q >= 0.0 && part == 1.0 / d
    ensures x * part < y
  {
    assert q * y == x;
    Scales(q, d, y);
    assert d * part == 1.0;
    assert x < d * y;
    Scales(x, d * y, part);
    assert d * y * part == y * (d * part);
  }

  /** All reachable scores lie between 0 and the sum of the weights if and only if no weight is negative. */
  lemma InRangeExactlyWhenNonNegative(w: Weights)
    ensures AlwaysInRange(w) <==> w.NonNegative()
  {
    if w.NonNegative() {
      forall s, children, calls, user | Reached(s, children, calls) ensures InRange(s, w, user) {
        ScoreInRange(s, children, calls, w, user);
      }
    } else if AlwaysInRange(w) {
      FreshScore(w);
      NeverLogged(w);
      AbsentOnce(w);
      AbsentForever(w);
      assert false;
    }
  }

  /** Weights that `update_weights` accepts put a new user's score above their sum. */
  lemma AcceptedWeightsOutOfRange()
    ensures var w := Weights(-1.0, 2.0, 0.0, 0.0);
      Distance(w.Total(), 1.0) <= 0.000001 && Score(Initial(map[]), w, 1) > w.Total()
  {}
}
