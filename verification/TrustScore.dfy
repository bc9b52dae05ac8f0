/** app/services/trust_score_service.py: a weighted score of ratings, answers, attendance and journals. */
module TrustScore {
  import opened Prelude
  import opened CareModel
  import opened CareInvariants
  import opened CareRuns

  const RESPONSE_RATE_STUB := 1.0
  const NEUTRAL_RATING := 0.5

  datatype Weights = Weights(w1: real, w2: real, w3: real, w4: real) {
    function Total(): real { w1 + w2 + w3 + w4 }

    predicate NonNegative() { w1 >= 0.0 && w2 >= 0.0 && w3 >= 0.0 && w4 >= 0.0 }
  }

  function RatingTerms(evaluations: seq<Evaluation>, user: UserId): nat -> int {
    (i: nat) => if i < |evaluations| && evaluations[i].evaluatee == user then evaluations[i].rating else 0
  }

  function Rated(evaluations: seq<Evaluation>, user: UserId): nat -> bool {
    (i: nat) => i < |evaluations| && evaluations[i].evaluatee == user
  }

  function CompletedBy(s: State, provider: UserId): nat -> bool {
    (i: nat) => i < |s.sessions| && s.sessions[i].provider == provider && s.sessions[i].checkoutAt.Some?
  }

  function LoggedBy(s: State, provider: UserId): nat -> bool {
    (i: nat) => CompletedBy(s, provider)(i) && i in s.careLogs
  }

  function Concluded(s: State, user: UserId): nat -> bool {
    (i: nat) =>
      i < |s.sessions| && s.sessions[i].Involves(user)
      && (s.sessions[i].checkoutAt.Some? || s.sessions[i].status == NoShow)
  }

  function AbsenceOf(s: State, user: UserId): nat -> bool {
    (i: nat) => i < |s.sessions| && s.sessions[i].status == NoShow && s.sessions[i].atFault == Some(user)
  }

  function RatingNorm(s: State, user: UserId): real {
    var count := Count(|s.evaluations|, Rated(s.evaluations, user));
    if count == 0 then NEUTRAL_RATING
    else (Ratio(Sum(|s.evaluations|, RatingTerms(s.evaluations, user)), count, 0.0) - 1.0) / 4.0
  }

  function JournalCompletionRate(s: State, provider: UserId): real {
    Ratio(Count(|s.sessions|, LoggedBy(s, provider)), Count(|s.sessions|, CompletedBy(s, provider)), 1.0)
  }

  function NoShowRate(s: State, user: UserId): real {
    Ratio(Count(|s.sessions|, AbsenceOf(s, user)), Count(|s.sessions|, Concluded(s, user)), 0.0)
  }

  function Combine(w: Weights, rating: real, noShow: real, journal: real): real {
    w.w1 * rating + w.w2 * RESPONSE_RATE_STUB + w.w3 * (1.0 - noShow) + w.w4 * journal
  }

  function Score(s: State, w: Weights, user: UserId): real {
    Combine(w, RatingNorm(s, user), NoShowRate(s, user), JournalCompletionRate(s, user))
  }

  lemma {:induction false} CountIsSize(n: nat, p: nat -> bool)
    ensures Count(n, p) == |set i: nat | i < n && p(i)|
  {
    if n == 0 {
    } else {
      CountIsSize(n - 1, p);
      var before := set i: nat | i < n - 1 && p(i);
      assert (set i: nat | i < n && p(i)) == if p(n - 1) then before + {n - 1} else before;
    }
  }

  /** Sessions the user checked out as provider, that ended with or without them, and that they failed to attend. */
  function CheckedOutBy(s: State, user: UserId): set<nat> {
    set i: nat | i < |s.sessions| && s.sessions[i].provider == user && s.sessions[i].checkoutAt.Some?
  }

  function ConcludedWith(s: State, user: UserId): set<nat> {
    set i: nat | i < |s.sessions| && user in {s.sessions[i].requester, s.sessions[i].provider}
                 && (s.sessions[i].checkoutAt.Some? || s.sessions[i].status == NoShow)
  }

  function MissedBy(s: State, user: UserId): set<nat> {
    set i: nat | i < |s.sessions| && s.sessions[i].status == NoShow && s.sessions[i].atFault == Some(user)
  }

  lemma CountsAreSizes(s: State, user: UserId)
    ensures Count(|s.sessions|, CompletedBy(s, user)) == |CheckedOutBy(s, user)|
    ensures Count(|s.sessions|, LoggedBy(s, user)) == |CheckedOutBy(s, user) * s.careLogs|
    ensures Count(|s.sessions|, Concluded(s, user)) == |ConcludedWith(s, user)|
    ensures Count(|s.sessions|, AbsenceOf(s, user)) == |MissedBy(s, user)|
  {
    var n := |s.sessions|;
    CountIsSize(n, CompletedBy(s, user));
    CountIsSize(n, LoggedBy(s, user));
    CountIsSize(n, Concluded(s, user));
    CountIsSize(n, AbsenceOf(s, user));
    assert (set i: nat | i < n && CompletedBy(s, user)(i)) == CheckedOutBy(s, user);
    assert (set i: nat | i < n && LoggedBy(s, user)(i)) == CheckedOutBy(s, user) * s.careLogs;
    assert (set i: nat | i < n && Concluded(s, user)(i)) == ConcludedWith(s, user);
    assert (set i: nat | i < n && AbsenceOf(s, user)(i)) == MissedBy(s, user);
  }

  function RatingsOf(s: State, user: UserId): set<nat> {
    set i: nat | i < |s.evaluations| && s.evaluations[i].evaluatee == user
  }

  ghost predicate IsShare(share: real, part: set<nat>, whole: set<nat>, default: real) {
    if whole == {} then share == default else share * |whole| as real == |part| as real
  }

  /** One to five stars become 0 to 1. */
  ghost predicate IsMean(rating: real, ratings: set<nat>, sum: int) {
    if ratings == {} then rating == 0.5 else (4.0 * rating + 1.0) * |ratings| as real == sum as real
  }

  lemma RatioIsShare(part: set<nat>, whole: set<nat>, default: real)
    ensures IsShare(Ratio(|part|, |whole|, default), part, whole, default)
  {
    if whole != {} { QuotientTimes(|part| as real, |whole| as real); }
  }

  lemma QuotientTimes(part: real, whole: real)
    requires whole != 0.0
    ensures part / whole * whole == part
  {}

  lemma MeanOfRatings(s: State, user: UserId, sum: int, count: nat)
    requires sum == Sum(|s.evaluations|, RatingTerms(s.evaluations, user)) && count == |RatingsOf(s, user)|
    requires count == Count(|s.evaluations|, Rated(s.evaluations, user))
    ensures IsMean(RatingNorm(s, user), RatingsOf(s, user), sum)
  {
    if count != 0 {
      QuotientTimes(sum as real, count as real);
      assert 4.0 * RatingNorm(s, user) + 1.0 == sum as real / count as real;
    }
  }

  /**
   * What goes into the score: the mean rating brought to 0 to 1, or a half without ratings; the share of concluded
   * sessions the user missed, or 0; the share of their check-outs with a journal, or 1.
   */
  lemma RatesAreShares(s: State, user: UserId)
    ensures IsMean(RatingNorm(s, user), RatingsOf(s, user), Sum(|s.evaluations|, RatingTerms(s.evaluations, user)))
    ensures IsShare(NoShowRate(s, user), MissedBy(s, user), ConcludedWith(s, user), 0.0)
    ensures IsShare(JournalCompletionRate(s, user), CheckedOutBy(s, user) * s.careLogs, CheckedOutBy(s, user), 1.0)
  {
    CountsAreSizes(s, user);
    CountIsSize(|s.evaluations|, Rated(s.evaluations, user));
    assert (set i: nat | i < |s.evaluations| && Rated(s.evaluations, user)(i)) == RatingsOf(s, user);
    RatioIsShare(MissedBy(s, user), ConcludedWith(s, user), 0.0);
    RatioIsShare(CheckedOutBy(s, user) * s.careLogs, CheckedOutBy(s, user), 1.0);
    MeanOfRatings(s, user, Sum(|s.evaluations|, RatingTerms(s.evaluations, user)), |RatingsOf(s, user)|);
  }

  lemma {:induction false} RatingsInRange(sessions: seq<CareSession>, evaluations: seq<Evaluation>, user: UserId,
                                          n: nat)
    requires Reviews(sessions, evaluations) && n <= |evaluations|
    ensures var count := Count(n, Rated(evaluations, user));
      count <= Sum(n, RatingTerms(evaluations, user)) <= 5 * count
  {
    if n == 0 {
    } else {
      RatingsInRange(sessions, evaluations, user, n - 1);
      assert ReviewOk(sessions, evaluations[n - 1]);
    }
  }

  lemma QuotientBounds(t: real, c: real, low: real, high: real)
    requires c > 0.0 && low * c <= t <= high * c
    ensures low <= t / c <= high
  {
    var q := t / c;
    assert q * c == t;
    if q < low { Scales(q, low, c); }
    if q > high { Scales(high, q, c); }
  }

  lemma Scales(x: real, y: real, c: real)
    requires x < y && c > 0.0
    ensures x * c < y * c
  {}

  lemma MeanInRange(total: int, count: nat)
    requires count > 0 && count <= total <= 5 * count
    ensures 1.0 <= Ratio(total, count, 0.0) <= 5.0
  {
    QuotientBounds(total as real, count as real, 1.0, 5.0);
  }

  /** The three rates lie between 0 and 1, because a no-show is charged to a party and ratings go from 1 to 5. */
  lemma RatesAreUnit(s: State, user: UserId)
    requires Inv(s)
    ensures Unit(RatingNorm(s, user)) && Unit(NoShowRate(s, user)) && Unit(JournalCompletionRate(s, user))
  {
    var n, m := |s.sessions|, |s.evaluations|;
    CountMonotone(n, LoggedBy(s, user), CompletedBy(s, user));
    forall i: nat | i < n && AbsenceOf(s, user)(i) ensures Concluded(s, user)(i) {
      assert RowOk(s.sessions[i], s.children);
    }
    CountMonotone(n, AbsenceOf(s, user), Concluded(s, user));
    RatioIsUnit(Count(n, LoggedBy(s, user)), Count(n, CompletedBy(s, user)), 1.0);
    RatioIsUnit(Count(n, AbsenceOf(s, user)), Count(n, Concluded(s, user)), 0.0);
    RatingsInRange(s.sessions, s.evaluations, user, m);
    var count := Count(m, Rated(s.evaluations, user));
    if count > 0 { MeanInRange(Sum(m, RatingTerms(s.evaluations, user)), count); }
  }

  lemma Scaled(w: real, x: real)
    requires w >= 0.0 && Unit(x)
    ensures 0.0 <= w * x <= w
  {}

  predicate Bounded(w: Weights, rating: real, noShow: real, journal: real) {
    0.0 <= Combine(w, rating, noShow, journal) <= w.Total()
  }

  lemma NonNegativeIsBounded(w: Weights, rating: real, noShow: real, journal: real)
    requires w.NonNegative() && Unit(rating) && Unit(noShow) && Unit(journal)
    ensures Bounded(w, rating, noShow, journal)
  {
    WeightedSum(w.w1, rating, w.w3, 1.0 - noShow, w.w4, journal);
  }

  lemma WeightedSum(u: real, x: real, v: real, y: real, w: real, z: real)
    requires u >= 0.0 && v >= 0.0 && w >= 0.0 && Unit(x) && Unit(y) && Unit(z)
    ensures 0.0 <= u * x + v * y + w * z <= u + v + w
  {
    Scaled(u, x);
    Scaled(v, y);
    Scaled(w, z);
    AddsUp(u, v, w, u * x, v * y, w * z);
  }

  lemma AddsUp(u: real, v: real, w: real, a: real, b: real, c: real)
    requires 0.0 <= a <= u && 0.0 <= b <= v && 0.0 <= c <= w
    ensures 0.0 <= a + b + c <= u + v + w
  {}

  /** In every reachable state, non-negative weights keep every user's score between 0 and their sum. */
  lemma ScoreInRange(s: State, children: map<int, UserId>, calls: seq<Timed>, w: Weights, user: UserId)
    requires Reached(s, children, calls) && w.NonNegative()
    ensures 0.0 <= Score(s, w, user) <= w.Total()
  {
    ReachedInv(s, children, calls);
    RatesAreUnit(s, user);
    NonNegativeIsBounded(w, RatingNorm(s, user), NoShowRate(s, user), JournalCompletionRate(s, user));
  }

  function Distance(x: real, y: real): real { if x >= y then x - y else y - x }

  class WeightStore {
    var weights: Weights
    var history: seq<(UserId, Weights)>

    constructor (weights: Weights)
      ensures this.weights == weights && history == []
    {
      this.weights, history := weights, [];
    }

    /** Accepts weights whose sum is 1 up to a millionth and keeps the ones they replace; signs are not looked at. */
    method UpdateWeights(admin: UserId, isAdmin: bool, w: Weights) returns (reply: Reply)
      modifies this
      ensures reply == if !isAdmin then Forbidden else if Distance(w.Total(), 1.0) > 0.000001 then BadRequest else Done
      ensures reply != Done ==> weights == old(weights) && history == old(history)
      ensures reply == Done ==> weights == w && history == old(history) + [(admin, old(weights))]
    {
      if !isAdmin { return Forbidden; }
      if Distance(w.w1 + w.w2 + w.w3 + w.w4, 1.0) > 0.000001 { return BadRequest; }
      history := history + [(admin, weights)];
      weights := w;
      reply := Done;
    }
  }
}
