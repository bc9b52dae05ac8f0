/** What the clock has to do with conservation. */
module CareClock {
  import opened Prelude
  import opened CareModel
  import opened CareBooks
  import opened CareInvariants
  import opened CareRuns
  import opened CareOutcomes
  import opened CareScenarios

  function PointsOf(s: State, user: UserId): int { BalanceOf(s.accounts, user) + HeldOf(s.accounts, user) }

  /**
   * In any reachable state a check-out keeps the points of the two parties together if and only if there is no hold or
   * the clock is not behind the check-in; nobody else's points change either way.
   */
  lemma CheckoutConservesExactly(s: State, children: map<int, UserId>, calls: seq<Timed>, id: nat, provider: UserId,
                                 now: int)
    requires Reached(s, children, calls) && id < |s.sessions| && Checkout(s, id, provider, now).reply == Done
    ensures var t, care := Checkout(s, id, provider, now).state, s.sessions[id];
      && (PointsOf(t, care.requester) + PointsOf(t, care.provider)
          == PointsOf(s, care.requester) + PointsOf(s, care.provider)
          <==> FindHold(s.holds, id).None? || now >= care.checkinAt.value)
      && forall user :: user !in {care.requester, care.provider} ==> PointsOf(t, user) == PointsOf(s, user)
  {
    var care, t := s.sessions[id], Checkout(s, id, provider, now).state;
    CheckoutOutcome(s, children, calls, id, provider, now);
    ReachedInv(s, children, calls);
    assert RowOk(care, s.children);
    forall user | user !in {care.requester, care.provider} ensures PointsOf(t, user) == PointsOf(s, user) {
      assert Gains(s, t, user, 0, 0);
    }
  }

  lemma SettledLate(s: State, lag: int)
    requires s.sessions == [Care(1, 1, Confirmed).(checkinAt := Some(0))]
    requires s.holds == [Hold(0, GUARDIAN, HELPER, 1, Held, None)]
    ensures var t := Checkout(s, 0, HELPER, -lag).state;
      && t.sessions == [Care(1, 1, Confirmed).(checkinAt := Some(0), checkoutAt := Some(-lag),
                                               actualMinutes := Some(-lag / MINUTE))]
      && FindHold(t.holds, 0).Some?
  {
    assert FindHold(s.holds, 0) == Some(0);
  }

  lemma CheckedInAndOut(before: seq<Timed>, s: State, lag: int) returns (calls: seq<Timed>, t: State)
    requires Leads(before, s) && Continues([], before, 0) && lag > 0
    requires s.sessions == [Care(1, 1, Confirmed)] && s.transactions == []
    requires s.holds == [Hold(0, GUARDIAN, HELPER, 1, Held, None)]
    ensures Leads(calls, t) && (forall i :: 0 <= i < |calls| ==> -lag <= calls[i].now <= 0)
    ensures FindHold(t.holds, 0).Some?
    ensures t.sessions == [Care(1, 1, Confirmed).(checkinAt := Some(0), checkoutAt := Some(-lag),
                                                  actualMinutes := Some(-lag / MINUTE))]
  {
    calls, t := Then(before, s, CallCheckin(0, HELPER, false, false), 0);
    SettledLate(t, lag);
    calls, t := Then(calls, t, CallCheckout(0, HELPER), -lag);
  }

  /** The accounts hold more than they were seeded with. */
  ghost predicate Inflated(s: State) { Total(s.accounts.Keys, s.accounts) > SEED_POINTS * |s.accounts| }

  lemma LateCheckinInflates(s: State, calls: seq<Timed>, lag: int)
    requires Reached(s, CHILDREN, calls) && lag > 0 && FindHold(s.holds, 0).Some?
    requires s.sessions == [Care(1, 1, Confirmed).(checkinAt := Some(0), checkoutAt := Some(-lag),
                                                   actualMinutes := Some(-lag / MINUTE))]
    ensures Inflated(s)
  {
    assert SettledFromHold(s, 0);
    PointsConserved(s, CHILDREN, calls);
  }

  lemma HeldFirst(held: State)
    requires DayHeld(Initial(CHILDREN), held, 1, 1)
    ensures held.sessions == [Care(1, 1, Confirmed)] && held.transactions == []
    ensures held.holds == [Hold(0, GUARDIAN, HELPER, 1, Held, None)]
  {}

  /** However little the clock goes back between check-in and check-out, there is a run that creates points. */
  lemma ClockBackCreatesPoints(lag: int)
    requires lag > 0
    ensures exists calls: seq<Timed> ::
      Inflated(Run(CHILDREN, calls)) && forall i :: 0 <= i < |calls| ==> -lag <= calls[i].now <= 0
  {
    var calls, s := HoldDay([], Initial(CHILDREN), 1, 1, 0);
    HeldFirst(s);
    calls, s := CheckedInAndOut(calls, s, lag);
    LateCheckinInflates(s, calls, lag);
  }
}
