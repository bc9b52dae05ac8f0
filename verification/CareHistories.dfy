/** Parts of a run that can be read off the calls alone: schedules, trust levels and the order of clock readings. */
module CareHistories {
  import opened Prelude
  import opened CareModel
  import opened CareBooks
  import opened CareFrames
  import opened CareInvariants
  import opened CareRuns
  import TrustModel
  import TrustOutcomes
  import TrustTheorems
  import WorkSchedule

  // ------------------------------------------------------------------ schedules

  function ShiftsIn(calls: seq<Timed>): seq<WorkSchedule.Shift> {
    if calls == [] then []
    else
      var last := calls[|calls| - 1].call;
      ShiftsIn(calls[..|calls| - 1]) + if last.CallRegisterShift? then [last.shift] else []
  }

  lemma ReplayMore(log: seq<WorkSchedule.Shift>, more: seq<WorkSchedule.Shift>)
    requires |more| <= 1
    ensures WorkSchedule.Replay(log + more)
         == if more == [] then WorkSchedule.Replay(log) else WorkSchedule.Register(WorkSchedule.Replay(log), more[0])
  {
    if more == [] { assert log + more == log; } else { assert (log + more)[..|log|] == log; }
  }

  /** The schedules of a run are what its registrations, and nothing else, leave behind. */
  lemma {:induction false} SchedulesAreReplayed(children: map<int, UserId>, calls: seq<Timed>)
    ensures Run(children, calls).schedules == WorkSchedule.Replay(ShiftsIn(calls))
  {
    if calls == [] {
    } else {
      var rest, last := calls[..|calls| - 1], calls[|calls| - 1];
      SchedulesAreReplayed(children, rest);
      StepSchedules(Run(children, rest), last.call, last.now);
      ReplayMore(ShiftsIn(rest), if last.call.CallRegisterShift? then [last.call.shift] else []);
    }
  }

  /**
   * Requests of a run are judged by masks that show the last template registered for the day, and the tail of a
   * night registered later for the day before.
   */
  lemma MasksFollowHistory(s: State, children: map<int, UserId>, calls: seq<Timed>, user: UserId, day: int)
    requires Reached(s, children, calls)
    ensures var log := ShiftsIn(calls);
      WorkSchedule.HasShape(WorkSchedule.MaskOn(s.schedules, user, day), WorkSchedule.LastTemplate(log, user, day),
                            WorkSchedule.NightSince(log, user, day))
  {
    SchedulesAreReplayed(children, calls);
    WorkSchedule.HistoryDecidesMask(ShiftsIn(calls), user, day);
  }

  // ------------------------------------------------------------------ trust levels

  function TrustCalls(children: map<int, UserId>, calls: seq<Timed>): seq<TrustModel.Call> {
    if calls == [] then []
    else
      var rest := calls[..|calls| - 1];
      var last := TrustCallOf(Run(children, rest), calls[|calls| - 1].call);
      TrustCalls(children, rest) + if last.Some? then [last.value] else []
  }

  lemma TrustRunMore(calls: seq<TrustModel.Call>, more: seq<TrustModel.Call>)
    requires |more| <= 1
    ensures TrustModel.Run(calls + more)
         == if more == [] then TrustModel.Run(calls) else TrustModel.Step(TrustModel.Run(calls), more[0]).state
  {
    if more == [] { assert calls + more == calls; } else { assert (calls + more)[..|calls|] == calls; }
  }

  /** The trust tables of a run are those of a run of the trust-level service, so its theorems hold of them. */
  lemma {:induction false} TrustIsItsOwnRun(children: map<int, UserId>, calls: seq<Timed>)
    ensures Run(children, calls).trust == TrustModel.Run(TrustCalls(children, calls))
  {
    if calls == [] {
    } else {
      var rest, last := calls[..|calls| - 1], calls[|calls| - 1];
      TrustIsItsOwnRun(children, rest);
      StepTrust(Run(children, rest), last.call, last.now);
      var more := TrustCallOf(Run(children, rest), last.call);
      TrustRunMore(TrustCalls(children, rest), if more.Some? then [more.value] else []);
    }
  }

  /** Confirmations of joint sessions reach the trust-level service from nowhere but its own calls. */
  lemma {:induction false} ConfirmationIsOwnCall(children: map<int, UserId>, calls: seq<Timed>, i: nat, user: UserId)
    requires TrustModel.CallConfirmJoint(i, user) in TrustCalls(children, calls)
    ensures exists at :: Timed(CallTrust(TrustModel.CallConfirmJoint(i, user)), at) in calls
  {
    if calls == [] {
    } else {
      var rest, last := calls[..|calls| - 1], calls[|calls| - 1];
      if TrustModel.CallConfirmJoint(i, user) in TrustCalls(children, rest) {
        ConfirmationIsOwnCall(children, rest, i, user);
        var at :| Timed(CallTrust(TrustModel.CallConfirmJoint(i, user)), at) in rest;
        assert Timed(CallTrust(TrustModel.CallConfirmJoint(i, user)), at) in calls;
      } else {
        assert Timed(CallTrust(TrustModel.CallConfirmJoint(i, user)), last.now) in calls;
      }
    }
  }

  /** Joint session i of the run was of these two users, and each of them made a call to confirm it. */
  ghost predicate BothConfirmed(s: State, calls: seq<Timed>, i: nat, a: UserId, b: UserId) {
    && i < |s.trust.joints| && {s.trust.joints[i].initiator, s.trust.joints[i].partner} == {a, b} && a != b
    && (exists at :: Timed(CallTrust(TrustModel.CallConfirmJoint(i, a)), at) in calls)
    && (exists at :: Timed(CallTrust(TrustModel.CallConfirmJoint(i, b)), at) in calls)
  }

  lemma CompletedByBoth(s: State, children: map<int, UserId>, calls: seq<Timed>, i: nat, a: UserId, b: UserId)
    requires Reached(s, children, calls) && i < |s.trust.joints|
    requires s.trust.joints[i].byInitiator && s.trust.joints[i].byPartner
    requires {s.trust.joints[i].initiator, s.trust.joints[i].partner} == {a, b}
    ensures BothConfirmed(s, calls, i, a, b)
  {
    var joint, own := s.trust.joints[i], TrustCalls(children, calls);
    TrustIsItsOwnRun(children, calls);
    TrustOutcomes.FlagsHaveCalls(own, i);
    assert joint.initiator in {a, b} && joint.partner in {a, b};
    assert a in {joint.initiator, joint.partner} && b in {joint.initiator, joint.partner};
    ConfirmationIsOwnCall(children, calls, i, joint.initiator);
    ConfirmationIsOwnCall(children, calls, i, joint.partner);
  }

  /**
   * A solo request is only ever accepted when requester and provider are two users who both made a call to confirm one
   * and the same joint session of theirs.
   */
  lemma SoloRequestIsEarned(s: State, children: map<int, UserId>, calls: seq<Timed>, requester: UserId,
                            provider: UserId, child: int, day: int, start: int, end: int)
    requires Reached(s, children, calls)
    requires CreateRequest(s, requester, provider, child, day, start, end, true).reply == Done
    ensures exists i :: BothConfirmed(s, calls, i, requester, provider)
  {
    TrustIsItsOwnRun(children, calls);
    TrustTheorems.SoloRequestsAreEarned(s.trust, TrustCalls(children, calls), requester, provider);
    var joint :| joint in s.trust.joints && joint.byInitiator && joint.byPartner
                 && {joint.initiator, joint.partner} == {requester, provider};
    var i :| 0 <= i < |s.trust.joints| && s.trust.joints[i] == joint;
    CompletedByBoth(s, children, calls, i, requester, provider);
  }

  /** No call, whoever makes it, is ever answered by a server error. */
  lemma NoServerErrors(s: State, children: map<int, UserId>, calls: seq<Timed>, call: Call, now: int)
    requires Reached(s, children, calls)
    ensures Step(s, call, now).reply != ServerError
  {
    match call
    case CallTrust(trustCall) => TrustAnswers(s, children, calls, trustCall);
    case _ =>
  }

  /** Calls of the trust-level service change its tables alone, answer as it does, and do not crash. */
  lemma TrustAnswers(s: State, children: map<int, UserId>, calls: seq<Timed>, call: TrustModel.Call)
    requires Reached(s, children, calls)
    ensures var result, own := Trust(s, call), TrustModel.Step(s.trust, call);
      && result.state == s.(trust := own.state) && result.reply != ServerError
      && (result.reply == Done <==> own.reply == TrustModel.Done)
      && (result.reply == BadRequest <==> own.reply == TrustModel.BadRequest)
      && (result.reply == Forbidden <==> own.reply == TrustModel.Forbidden)
      && (result.reply == NotFound <==> own.reply == TrustModel.NotFound)
  {
    TrustIsItsOwnRun(children, calls);
    match call
    case CallConfirmJoint(id, user) => TrustTheorems.NeverCrashes(s.trust, TrustCalls(children, calls), id, user);
    case _ =>
  }

  // ------------------------------------------------------------------ the request log

  predicate SamePair(a: RequestEvent, b: RequestEvent) {
    (a.requester == b.requester && a.provider == b.provider) || (a.requester == b.provider && a.provider == b.requester)
  }

  /** Log entry i belongs to session i; a rematch has a completed session of the two before it. */
  ghost predicate LogAgrees(s: State) {
    && |s.requestLog| == |s.sessions|
    && forall i :: 0 <= i < |s.requestLog| ==>
         && s.requestLog[i].requester == s.sessions[i].requester && s.requestLog[i].provider == s.sessions[i].provider
         && (s.requestLog[i].rematch ==> CompletedBefore(s, i))
  }

  ghost predicate CompletedBefore(s: State, i: nat)
    requires i < |s.requestLog|
  {
    exists j :: 0 <= j < i && j < |s.sessions|
                && Completed(s.sessions[j], s.requestLog[i].requester, s.requestLog[i].provider)
  }

  /** Once a request of two users was a rematch, all their later ones are. */
  ghost predicate RematchesStay(log: seq<RequestEvent>) {
    forall i, j :: 0 <= i < j < |log| && SamePair(log[i], log[j]) && log[i].rematch ==> log[j].rematch
  }

  lemma GrowthKeepsLog(s: State, t: State)
    requires LogAgrees(s) && Grows(s.sessions, t.sessions) && |t.sessions| == |s.sessions|
    requires t.requestLog == s.requestLog
    ensures LogAgrees(t)
  {
    forall i | 0 <= i < |t.requestLog| && t.requestLog[i].rematch ensures CompletedBefore(t, i) {
      assert CompletedBefore(s, i);
      var j :| 0 <= j < i && j < |s.sessions|
               && Completed(s.sessions[j], s.requestLog[i].requester, s.requestLog[i].provider);
      assert Completed(t.sessions[j], t.requestLog[i].requester, t.requestLog[i].provider);
    }
  }

  /** The state after an accepted request, as far as the log goes. */
  ghost predicate Logged(s: State, t: State, requester: UserId, provider: UserId) {
    && Grows(s.sessions, t.sessions) && |t.sessions| == |s.sessions| + 1
    && t.sessions[|s.sessions|].requester == requester && t.sessions[|s.sessions|].provider == provider
    && t.requestLog
       == s.requestLog + [RequestEvent(requester, provider, HasCompletedPairing(s.sessions, requester, provider))]
  }

  lemma RequestKeepsLog(s: State, t: State, requester: UserId, provider: UserId)
    requires LogAgrees(s) && Logged(s, t, requester, provider)
    ensures LogAgrees(t)
  {
    forall i | 0 <= i < |t.requestLog| && t.requestLog[i].rematch ensures CompletedBefore(t, i) {
      var event := t.requestLog[i];
      if i < |s.requestLog| {
        assert CompletedBefore(s, i);
        var j :| 0 <= j < i && j < |s.sessions| && Completed(s.sessions[j], event.requester, event.provider);
        assert Completed(t.sessions[j], event.requester, event.provider);
      } else {
        var j :| 0 <= j < |s.sessions| && Completed(s.sessions[j], requester, provider);
        assert Completed(t.sessions[j], event.requester, event.provider);
      }
    }
  }

  lemma RequestKeepsRematches(s: State, t: State, requester: UserId, provider: UserId)
    requires LogAgrees(s) && Logged(s, t, requester, provider) && RematchesStay(s.requestLog)
    ensures RematchesStay(t.requestLog)
  {
    var n := |s.requestLog|;
    forall i | 0 <= i < n && SamePair(s.requestLog[i], t.requestLog[n]) && s.requestLog[i].rematch
      ensures t.requestLog[n].rematch
    {
      assert CompletedBefore(s, i);
      var j :| 0 <= j < i && j < |s.sessions|
               && Completed(s.sessions[j], s.requestLog[i].requester, s.requestLog[i].provider);
      assert Completed(s.sessions[j], requester, provider);
    }
  }

  lemma StepKeepsLog(s: State, call: Call, now: int)
    requires LogAgrees(s) && RematchesStay(s.requestLog)
    ensures LogAgrees(Step(s, call, now).state) && RematchesStay(Step(s, call, now).state.requestLog)
  {
    var t := Step(s, call, now).state;
    StepGrows(s, call, now);
    match call
    case CallCreateRequest(r, p, c, d, st, e, isSolo) =>
      RequestFrame(s, r, p, c, d, st, e, isSolo);
      if CreateRequest(s, r, p, c, d, st, e, isSolo).reply == Done {
        RequestKeepsLog(s, t, r, p);
        RequestKeepsRematches(s, t, r, p);
      } else {
        GrowthKeepsLog(s, t);
      }
    case _ =>
      OthersKeepLog(s, call, now);
      GrowthKeepsLog(s, t);
  }

  lemma {:induction false} RunKeepsLog(children: map<int, UserId>, calls: seq<Timed>)
    ensures LogAgrees(Run(children, calls)) && RematchesStay(Run(children, calls).requestLog)
  {
    if calls == [] {
    } else {
      var rest, last := calls[..|calls| - 1], calls[|calls| - 1];
      RunKeepsLog(children, rest);
      StepKeepsLog(Run(children, rest), last.call, last.now);
    }
  }

  /**
   * In every reachable state the log has one entry per session, in order; a rematch entry has an earlier session of
   * the same two users, in either role, that was completed; and after a rematch all later requests of the two are ones.
   */
  lemma RequestsAreLogged(s: State, children: map<int, UserId>, calls: seq<Timed>)
    requires Reached(s, children, calls)
    ensures |s.requestLog| == |s.sessions| && RematchesStay(s.requestLog)
    ensures forall i :: 0 <= i < |s.requestLog| ==>
      && s.requestLog[i].requester == s.sessions[i].requester && s.requestLog[i].provider == s.sessions[i].provider
      && (s.requestLog[i].rematch ==> CompletedBefore(s, i))
  {
    RunKeepsLog(children, calls);
  }

  // ------------------------------------------------------------------ the clock

  /** Check-ins are not in the future, and no check-out precedes its check-in. */
  ghost predicate InOrder(sessions: seq<CareSession>, now: int) {
    forall i :: 0 <= i < |sessions| && sessions[i].checkinAt.Some? ==>
      && sessions[i].checkinAt.value <= now
      && (sessions[i].checkoutAt.Some? ==> sessions[i].checkinAt.value <= sessions[i].checkoutAt.value)
  }

  lemma StepInOrder(s: State, call: Call, before: int, now: int)
    requires InOrder(s.sessions, before) && before <= now
    requires forall i :: 0 <= i < |s.sessions| && s.sessions[i].checkoutAt.Some? ==> s.sessions[i].checkinAt.Some?
    ensures InOrder(Step(s, call, now).state.sessions, now)
  {
    match call
    case CallCheckin(id, actor, far, reason) => CheckinFrame(s, id, actor, far, reason, now);
    case CallCheckout(id, actor) => CheckoutFrame(s, id, actor, now);
    case _ => OthersKeepTimes(s, call, now);
  }

  lemma {:induction false} RunInOrder(children: map<int, UserId>, calls: seq<Timed>, now: int)
    requires Chronological(calls) && forall i :: 0 <= i < |calls| ==> calls[i].now <= now
    ensures InOrder(Run(children, calls).sessions, now)
  {
    if calls == [] {
    } else {
      var rest, last := calls[..|calls| - 1], calls[|calls| - 1];
      RunInOrder(children, rest, last.now);
      RunKeeps(children, rest);
      forall i | 0 <= i < |Run(children, rest).sessions| && Run(children, rest).sessions[i].checkoutAt.Some?
        ensures Run(children, rest).sessions[i].checkinAt.Some?
      {
        assert RowOk(Run(children, rest).sessions[i], Run(children, rest).children);
      }
      StepInOrder(Run(children, rest), last.call, last.now, last.now);
    }
  }

  /** With a clock that never goes back there are no windfalls: points only ever move. */
  lemma ForwardClockConserves(s: State, children: map<int, UserId>, calls: seq<Timed>, user: UserId)
    requires Reached(s, children, calls) && Chronological(calls)
    ensures Total(s.accounts.Keys, s.accounts) == SEED_POINTS * |s.accounts|
    ensures BalanceOf(s.accounts, user) + HeldOf(s.accounts, user) == SEED_POINTS + Flow(s, user)
  {
    RunInOrder(children, calls, if calls == [] then 0 else calls[|calls| - 1].now);
    PointsConserved(s, children, calls);
    PointsClosedForm(s, children, calls, user);
    ReachedInv(s, children, calls);
    forall id: nat { WindfallMeans(s, id); }
    NoWindfalls(s, user);
  }
}
