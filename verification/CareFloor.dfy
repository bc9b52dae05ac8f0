/** When a balance can fall below -41, the lowest one a hold leaves: exactly by check-outs without a hold. */
module CareFloor {
  import opened Prelude
  import opened CareModel
  import opened CareBooks
  import opened CareInvariants
  import opened CareSuspend
  import opened CareRuns
  import opened CareOutcomes
  import opened CareAnswers
  import opened CareScenarios

  ghost predicate AllAboveFloor(s: State) { forall user :: BalanceOf(s.accounts, user) >= LOWEST_BALANCE }

  /** A check-out that succeeds without a hold, after more slots than the requester's balance lies above the floor. */
  predicate BreaksFloor(s: State, call: Call, now: int) {
    && call.CallCheckout? && Checkout(s, call.id, call.actor, now).reply == Done && FindHold(s.holds, call.id).None?
    && Worked(s.sessions[call.id], now) > BalanceOf(s.accounts, s.sessions[call.id].requester) - LOWEST_BALANCE
  }

  // ------------------------------------------------------------------ one call

  /** From above the floor, a check-out leaves the requester there if and only if it has a hold or is short enough. */
  lemma CheckoutKeepsFloorExactly(s: State, children: map<int, UserId>, calls: seq<Timed>, id: nat, provider: UserId,
                                  now: int)
    requires Reached(s, children, calls) && id < |s.sessions| && Checkout(s, id, provider, now).reply == Done
    requires BalanceOf(s.accounts, s.sessions[id].requester) >= LOWEST_BALANCE
    ensures var care, t := s.sessions[id], Checkout(s, id, provider, now).state;
      BalanceOf(t.accounts, care.requester) >= LOWEST_BALANCE
      <==> FindHold(s.holds, id).Some? || Worked(care, now) <= BalanceOf(s.accounts, care.requester) + 41
  {
    CheckoutOutcome(s, children, calls, id, provider, now);
    ReachedInv(s, children, calls);
    assert RowOk(s.sessions[id], s.children);
  }

  /** Of all balances only the requester's can fall. */
  lemma SettledFloor(s: State, t: State, id: nat, worked: int, now: int)
    requires AllAboveFloor(s) && id < |s.sessions| && PaidFor(s, t, id, worked, now)
    requires s.sessions[id].requester != s.sessions[id].provider
    ensures AllAboveFloor(t) <==> BalanceOf(t.accounts, s.sessions[id].requester) >= LOWEST_BALANCE
  {
    var care := s.sessions[id];
    forall user | user != care.requester ensures BalanceOf(t.accounts, user) >= BalanceOf(s.accounts, user) {
      assert user == care.provider || Gains(s, t, user, 0, 0);
    }
  }

  lemma CheckoutFloor(s: State, children: map<int, UserId>, calls: seq<Timed>, id: SessionId, provider: UserId,
                      now: int)
    requires Reached(s, children, calls) && AllAboveFloor(s)
    ensures AllAboveFloor(Checkout(s, id, provider, now).state) <==> !BreaksFloor(s, CallCheckout(id, provider), now)
  {
    CheckoutOutcome(s, children, calls, id, provider, now);
    if Checkout(s, id, provider, now).reply == Done {
      ReachedInv(s, children, calls);
      assert RowOk(s.sessions[id], s.children);
      SettledFloor(s, Checkout(s, id, provider, now).state, id, Worked(s.sessions[id], now), now);
      CheckoutKeepsFloorExactly(s, children, calls, id, provider, now);
    }
  }

  lemma AcceptFloor(s: State, children: map<int, UserId>, calls: seq<Timed>, id: SessionId, provider: UserId)
    requires Reached(s, children, calls) && AllAboveFloor(s)
    ensures AllAboveFloor(Accept(s, id, provider).state)
  {
    AcceptOutcome(s, children, calls, id, provider);
    if MayAccept(s, id, provider) {
      ReachedInv(s, children, calls);
      assert RowOk(s.sessions[id], s.children);
      PaysAboveFloor(s, Accept(s, id, provider).state, s.sessions[id]);
    }
  }

  /** A payment that leaves the requester above the floor and takes nothing from the provider. */
  lemma PaysAboveFloor(s: State, t: State, care: CareSession)
    requires AllAboveFloor(s) && BalanceOf(t.accounts, care.requester) >= LOWEST_BALANCE
    requires BalanceOf(t.accounts, care.provider) >= BalanceOf(s.accounts, care.provider)
    requires forall user :: user !in {care.requester, care.provider} ==> Gains(s, t, user, 0, 0)
    ensures AllAboveFloor(t)
  {
    forall user ensures BalanceOf(t.accounts, user) >= LOWEST_BALANCE {
      assert user == care.requester || user == care.provider || Gains(s, t, user, 0, 0);
    }
  }

  lemma EndFloor(s: State, t: State, id: nat, forfeits: bool, reason: Reason, now: int)
    requires AllAboveFloor(s) && id < |s.sessions| && Reserved(s, id) >= 0 && Ends(s, t, id, forfeits, reason, now)
    ensures AllAboveFloor(t)
  {
    PaysAboveFloor(s, t, s.sessions[id]);
  }

  lemma CancelFloor(s: State, children: map<int, UserId>, calls: seq<Timed>, id: SessionId, actor: UserId, now: int)
    requires Reached(s, children, calls) && AllAboveFloor(s)
    ensures AllAboveFloor(Cancel(s, id, actor, now).state) && AllAboveFloor(ReportNoShow(s, id, actor, now).state)
  {
    if 0 <= id < |s.sessions| {
      ReachedInv(s, children, calls);
      assert RowOk(s.sessions[id], s.children);
      CancelOutcome(s, children, calls, id, actor, now);
      NoShowOutcome(s, children, calls, id, actor, now);
      if Cancel(s, id, actor, now).reply == Done {
        EndFloor(s, Cancel(s, id, actor, now).state, id,
                 Late(s.sessions[id], now) && actor == s.sessions[id].requester, CancelPenalty, now);
      }
      if ReportNoShow(s, id, actor, now).reply == Done {
        EndFloor(s, ReportNoShow(s, id, actor, now).state, id, actor == s.sessions[id].provider, NoShowPenalty, now);
      }
    }
  }

  lemma SuspendFloor(s: State, children: map<int, UserId>, calls: seq<Timed>, byAdmin: bool, target: UserId,
                     targetExists: bool, now: int)
    requires Reached(s, children, calls) && AllAboveFloor(s)
    ensures AllAboveFloor(EmergencySuspend(s, byAdmin, target, targetExists, now).state)
  {
    ReachedInv(s, children, calls);
    SuspendInAnyRun(s, children, calls, target, now);
    forall payer ensures Refund(s, target, payer) >= 0 {
      forall i: nat | i < |s.holds| ensures RefundTerms(s, target, payer)(i) >= 0 { assert HoldMatches(s, s.holds[i]); }
      SumLower(|s.holds|, RefundTerms(s, target, payer));
    }
  }

  /** Calls that leave every balance as it is. */
  lemma QuietFloor(s: State, call: Call, now: int)
    requires AllAboveFloor(s)
    requires call.CallReject? || call.CallCheckin? || call.CallSubmitEvaluation? || call.CallWriteLog?
          || call.CallRegisterShift? || call.CallReadBalance? || call.CallTrust?
    ensures AllAboveFloor(Step(s, call, now).state)
  {
    forall user ensures BalanceOf(Step(s, call, now).state.accounts, user) >= LOWEST_BALANCE {
      assert BalanceOf(s.accounts, user) >= LOWEST_BALANCE;
    }
  }

  /** From a reachable state with no balance below -41 a call brings one below if and only if it is such a check-out. */
  lemma FloorStep(s: State, children: map<int, UserId>, calls: seq<Timed>, call: Call, now: int)
    requires Reached(s, children, calls) && AllAboveFloor(s)
    ensures AllAboveFloor(Step(s, call, now).state) <==> !BreaksFloor(s, call, now)
  {
    match call
    case CallCreateRequest(r, p, c, d, st, e, isSolo) =>
      RequestOutcome(s, children, calls, NewCare(r, p, c, d, st, e), isSolo);
      GainlessFloor(s, CreateRequest(s, r, p, c, d, st, e, isSolo).state);
    case CallAccept(id, actor) => AcceptFloor(s, children, calls, id, actor);
    case CallCheckout(id, actor) => CheckoutFloor(s, children, calls, id, actor, now);
    case CallCancel(id, actor) => CancelFloor(s, children, calls, id, actor, now);
    case CallReportNoShow(id, actor) => CancelFloor(s, children, calls, id, actor, now);
    case CallEmergencySuspend(byAdmin, target, targetExists) =>
      SuspendFloor(s, children, calls, byAdmin, target, targetExists, now);
    case _ => QuietFloor(s, call, now);
  }

  lemma GainlessFloor(s: State, t: State)
    requires AllAboveFloor(s) && forall user :: Gains(s, t, user, 0, 0)
    ensures AllAboveFloor(t)
  {
    forall user ensures BalanceOf(t.accounts, user) >= LOWEST_BALANCE { assert Gains(s, t, user, 0, 0); }
  }

  // ------------------------------------------------------------------ runs

  /** No balance is below the floor, now or at any earlier point of the run. */
  ghost predicate AboveThroughout(children: map<int, UserId>, calls: seq<Timed>) {
    && AllAboveFloor(Run(children, calls))
    && (calls != [] ==> AboveThroughout(children, calls[..|calls| - 1]))
  }

  predicate NeverBroken(children: map<int, UserId>, calls: seq<Timed>) {
    calls != [] ==>
      var rest, last := calls[..|calls| - 1], calls[|calls| - 1];
      NeverBroken(children, rest) && !BreaksFloor(Run(children, rest), last.call, last.now)
  }

  /** All balances stay at or above -41 throughout a run if and only if no call of it is such a check-out. */
  lemma {:induction false} FloorExactly(children: map<int, UserId>, calls: seq<Timed>)
    ensures AboveThroughout(children, calls) <==> NeverBroken(children, calls)
  {
    if calls == [] {
    } else {
      var rest, last := calls[..|calls| - 1], calls[|calls| - 1];
      FloorExactly(children, rest);
      if AboveThroughout(children, rest) {
        FloorStep(Run(children, rest), children, rest, last.call, last.now);
      }
    }
  }

  // ------------------------------------------------------------------ a run that falls through the floor

  ghost predicate Overdrawn(s: State) {
    && s.sessions == [Care(1, 23, Confirmed), Care(3, 1, Requested), Care(5, 30, Confirmed)]
    && s.holds == [Hold(0, GUARDIAN, HELPER, 23, Held, None), Hold(2, GUARDIAN, HELPER, 30, Held, None)]
    && s.transactions == [] && BalanceOf(s.accounts, GUARDIAN) == LOWEST_BALANCE
  }

  /** Reserves 23 slots, asks for a second day, reserves 30 on a third: the balance is -41 and one request is open. */
  lemma OverdrawnRun() returns (calls: seq<Timed>, s: State)
    ensures Leads(calls, s) && Continues([], calls, 0) && Overdrawn(s)
  {
    var start := Initial(CHILDREN);
    var first, second;
    calls, first := HoldDay([], start, 1, 23, 0);
    CanAskAfter(start, first, 1, 23, 3);
    CanAskAfter(start, first, 1, 23, 5);
    calls, second := Ask(calls, first, 3, 1, 0);
    CanAskAfter(first, second, 3, 1, 5);
    calls, s := HoldDay(calls, second, 5, 30, 0);
    OverdrawnState(start, first, second, s);
  }

  lemma OverdrawnState(start: State, first: State, second: State, third: State)
    requires start == Initial(CHILDREN) && DayHeld(start, first, 1, 23) && Asked(first, second, 3, 1)
    requires DayHeld(second, third, 5, 30)
    ensures Overdrawn(third)
  {}

  /** What the last three calls do to an overdrawn account. */
  lemma FallFromFloor(s: State, accepted: State, entered: State, worked: nat, now: int)
    requires Overdrawn(s) && worked > 0 && now == worked * SLOT_MINUTES * MINUTE
    requires accepted == Accept(s, 1, HELPER).state && entered == Checkin(accepted, 1, HELPER, false, false, 0).state
    ensures BalanceOf(Checkout(entered, 1, HELPER, now).state.accounts, GUARDIAN) == LOWEST_BALANCE - worked
  {
    AcceptWithoutHold(s, 1, HELPER);
    var care := Care(3, 1, Confirmed).(checkinAt := Some(0));
    assert entered.sessions == s.sessions[1 := care];
    LongStay(worked, now);
    FallBySettling(Edit(entered, 1, CheckedOut(care, now)), worked);
  }

  lemma LongStay(worked: nat, now: int)
    requires now == worked * SLOT_MINUTES * MINUTE
    ensures now / MINUTE == worked * SLOT_MINUTES && worked * SLOT_MINUTES / SLOT_MINUTES == worked
  {}

  lemma FallBySettling(s: State, worked: nat)
    requires |s.sessions| == 3 && s.sessions[1].requester == GUARDIAN && s.sessions[1].provider == HELPER && worked > 0
    requires RawSlots(s.sessions[1]) == worked && s.transactions == []
    requires |s.holds| == 2 && s.holds[0].session == 0 && s.holds[1].session == 2
    ensures BalanceOf(Settle(s, 1).accounts, GUARDIAN) == BalanceOf(s.accounts, GUARDIAN) - worked
  {
    assert FindHold(s.holds, 1).None?;
  }

  /** The floor is reached, by holds alone and with a clock that only goes forward. */
  lemma FloorIsReached()
    ensures exists calls: seq<Timed> ::
      && Chronological(calls) && Run(CHILDREN, calls).transactions == []
      && BalanceOf(Run(CHILDREN, calls).accounts, GUARDIAN) == -41
  {
    var calls, s := OverdrawnRun();
    assert Chronological(calls);
  }

  lemma LastCallsLater(before: seq<Timed>, a: Call, b: Call, c: Call, now: int)
    requires Continues([], before, 0) && now >= 0
    ensures Chronological(before + [Timed(a, 0)] + [Timed(b, 0)] + [Timed(c, now)])
  {}

  /** The open request is accepted, too late for a hold, and worked for so many slots. */
  lemma RunFall(before: seq<Timed>, s: State, worked: nat, now: int) returns (calls: seq<Timed>, t: State)
    requires Leads(before, s) && Continues([], before, 0) && Overdrawn(s)
    requires worked > 0 && now == worked * SLOT_MINUTES * MINUTE
    ensures Leads(calls, t) && Chronological(calls) && BalanceOf(t.accounts, GUARDIAN) == LOWEST_BALANCE - worked
  {
    var accepted, entered;
    calls, accepted := Then(before, s, CallAccept(1, HELPER), 0);
    calls, entered := Then(calls, accepted, CallCheckin(1, HELPER, false, false), 0);
    FallFromFloor(s, accepted, entered, worked, now);
    calls, t := Then(calls, entered, CallCheckout(1, HELPER), now);
    LastCallsLater(before, CallAccept(1, HELPER), CallCheckin(1, HELPER, false, false), CallCheckout(1, HELPER), now);
  }

  /** For every length of work a run whose clock only goes forward ends that far below -41. */
  lemma FloorFalls(worked: nat)
    requires worked > 0
    ensures exists calls: seq<Timed> ::
      Chronological(calls) && BalanceOf(Run(CHILDREN, calls).accounts, GUARDIAN) == -41 - worked
  {
    var calls, s := OverdrawnRun();
    var t;
    calls, t := RunFall(calls, s, worked, worked * SLOT_MINUTES * MINUTE);
  }
}
