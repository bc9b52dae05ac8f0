/** What each call leaves alone. */
module CareFrames {
  import opened Prelude
  import opened CareModel
  import WorkSchedule
  import TrustModel

  /** The tables beside sessions, holds, accounts and the ledger are as before. */
  ghost predicate Beside(s: State, t: State) {
    t == s.(sessions := t.sessions, holds := t.holds, accounts := t.accounts, transactions := t.transactions,
            entries := t.entries)
  }

  /** Rows keep their parties and times; new rows have no times yet. */
  ghost predicate SameTimes(before: seq<CareSession>, after: seq<CareSession>) {
    && |before| <= |after|
    && (forall i :: 0 <= i < |before| ==>
          && after[i].requester == before[i].requester && after[i].provider == before[i].provider
          && after[i].checkinAt == before[i].checkinAt && after[i].checkoutAt == before[i].checkoutAt)
    && forall i :: |before| <= i < |after| ==> after[i].checkinAt.None? && after[i].checkoutAt.None?
  }

  lemma RequestFrame(s: State, requester: UserId, provider: UserId, child: int, day: int, start: int, end: int,
                     isSolo: bool)
    ensures var result := CreateRequest(s, requester, provider, child, day, start, end, isSolo); var t := result.state;
      && t == s.(accounts := t.accounts, sessions := t.sessions, requestLog := t.requestLog)
      && SameTimes(s.sessions, t.sessions)
      && (result.reply != Done ==> t.sessions == s.sessions && t.requestLog == s.requestLog)
      && (result.reply == Done ==>
            && |t.sessions| == |s.sessions| + 1
            && t.sessions[|s.sessions|].requester == requester && t.sessions[|s.sessions|].provider == provider
            && t.requestLog == s.requestLog
                 + [RequestEvent(requester, provider, HasCompletedPairing(s.sessions, requester, provider))])
  {}

  lemma AcceptFrame(s: State, id: SessionId, actor: UserId)
    ensures var t := Accept(s, id, actor).state;
      && Beside(if ForProvider(s, id, actor, Requested) == Done && !HasPendingEvaluation(s, actor)
                then Acquaint(s, id) else s, t)
      && SameTimes(s.sessions, t.sessions) && |t.sessions| == |s.sessions|
  {}

  lemma RejectFrame(s: State, id: SessionId, actor: UserId)
    ensures var t := Reject(s, id, actor).state;
      Beside(s, t) && SameTimes(s.sessions, t.sessions) && |t.sessions| == |s.sessions|
  {}

  lemma CheckinFrame(s: State, id: SessionId, actor: UserId, outOfRange: bool, hasReason: bool, now: int)
    ensures var result := Checkin(s, id, actor, outOfRange, hasReason, now);
      && Beside(s, result.state)
      && (result.reply == Done ==> s.sessions[id].checkinAt.None?)
      && result.state.sessions
         == if result.reply == Done then s.sessions[id := s.sessions[id].(checkinAt := Some(now))] else s.sessions
  {}

  lemma CheckoutFrame(s: State, id: SessionId, actor: UserId, now: int)
    ensures var result := Checkout(s, id, actor, now);
      && Beside(s, result.state)
      && result.state.sessions
         == if result.reply == Done then s.sessions[id := CheckedOut(s.sessions[id], now)] else s.sessions
  {}

  lemma ResolveFrame(s: State, id: SessionId, pastDeadline: bool)
    requires 0 <= id < |s.sessions|
    ensures var t := ResolveOnCancel(s, id, pastDeadline); Beside(s, t) && t.sessions == s.sessions
    ensures var t := ResolveOnNoShow(s, id); Beside(s, t) && t.sessions == s.sessions
  {}

  lemma CancelFrame(s: State, id: SessionId, actor: UserId, now: int)
    ensures var t := Cancel(s, id, actor, now).state;
      Beside(s, t) && SameTimes(s.sessions, t.sessions) && |t.sessions| == |s.sessions|
  {
    if Cancel(s, id, actor, now).reply == Done {
      ResolveFrame(Edit(s, id, CancelledBy(s.sessions[id], actor, now)), id, PastDeadline(s.sessions[id], now));
    }
  }

  lemma NoShowFrame(s: State, id: SessionId, actor: UserId, now: int)
    ensures var t := ReportNoShow(s, id, actor, now).state;
      Beside(s, t) && SameTimes(s.sessions, t.sessions) && |t.sessions| == |s.sessions|
  {
    if ReportNoShow(s, id, actor, now).reply == Done {
      ResolveFrame(Edit(s, id, FailedBy(s.sessions[id], actor, now)), id, false);
    }
  }

  lemma SuspendFrame(s: State, byAdmin: bool, target: UserId, targetExists: bool, now: int)
    ensures var t := EmergencySuspend(s, byAdmin, target, targetExists, now).state;
      && Beside(s, t.(sanctioned := s.sanctioned, inactive := s.inactive))
      && SameTimes(s.sessions, t.sessions) && |t.sessions| == |s.sessions|
  {}

  /** The calls that touch neither sessions nor the request log. */
  predicate IsSideCall(call: Call) {
    || call.CallSubmitEvaluation? || call.CallWriteLog? || call.CallRegisterShift? || call.CallReadBalance?
    || call.CallTrust?
  }

  lemma SideFrame(s: State, call: Call, now: int)
    requires IsSideCall(call)
    ensures var t := Step(s, call, now).state;
      && t == s.(accounts := t.accounts, schedules := t.schedules, evaluations := t.evaluations, careLogs := t.careLogs,
                 trust := t.trust)
      && (!call.CallRegisterShift? ==> t.schedules == s.schedules) && (!call.CallTrust? ==> t.trust == s.trust)
  {}

  lemma ShiftFrame(s: State, call: Call, now: int)
    requires call.CallRegisterShift?
    ensures Step(s, call, now) == RegisterShift(s, call.shift)
  {
    match call
    case CallRegisterShift(_) =>
  }

  // ------------------------------------------------------------------ table by table

  lemma StepSchedules(s: State, call: Call, now: int)
    ensures Step(s, call, now).state.schedules
         == if call.CallRegisterShift? then WorkSchedule.Register(s.schedules, call.shift) else s.schedules
  {
    match call
    case CallCreateRequest(r, p, c, d, st, e, isSolo) => RequestFrame(s, r, p, c, d, st, e, isSolo);
    case CallAccept(id, actor) => AcceptFrame(s, id, actor);
    case CallReject(id, actor) => RejectFrame(s, id, actor);
    case CallCheckin(id, actor, far, reason) => CheckinFrame(s, id, actor, far, reason, now);
    case CallCheckout(id, actor) => CheckoutFrame(s, id, actor, now);
    case CallCancel(id, actor) => CancelFrame(s, id, actor, now);
    case CallReportNoShow(id, actor) => NoShowFrame(s, id, actor, now);
    case CallEmergencySuspend(byAdmin, target, targetExists) => SuspendFrame(s, byAdmin, target, targetExists, now);
    case CallRegisterShift(_) => ShiftFrame(s, call, now);
    case _ => SideFrame(s, call, now);
  }

  /** What a call asks of the trust-level service; a request's acceptance grants L1. */
  function TrustCallOf(s: State, call: Call): Option<TrustModel.Call> {
    match call
    case CallTrust(trustCall) => Some(trustCall)
    case CallAccept(id, actor) =>
      if ForProvider(s, id, actor, Requested) == Done && !HasPendingEvaluation(s, actor)
      then Some(TrustModel.CallGrantL1(s.sessions[id].requester, s.sessions[id].provider)) else None
    case _ => None
  }

  lemma StepTrust(s: State, call: Call, now: int)
    ensures Step(s, call, now).state.trust
         == if TrustCallOf(s, call).Some? then TrustModel.Step(s.trust, TrustCallOf(s, call).value).state else s.trust
  {
    match call
    case CallCreateRequest(r, p, c, d, st, e, isSolo) => RequestFrame(s, r, p, c, d, st, e, isSolo);
    case CallAccept(id, actor) => AcceptFrame(s, id, actor);
    case CallReject(id, actor) => RejectFrame(s, id, actor);
    case CallCheckin(id, actor, far, reason) => CheckinFrame(s, id, actor, far, reason, now);
    case CallCheckout(id, actor) => CheckoutFrame(s, id, actor, now);
    case CallCancel(id, actor) => CancelFrame(s, id, actor, now);
    case CallReportNoShow(id, actor) => NoShowFrame(s, id, actor, now);
    case CallEmergencySuspend(byAdmin, target, targetExists) => SuspendFrame(s, byAdmin, target, targetExists, now);
    case CallTrust(_) =>
    case _ => SideFrame(s, call, now);
  }

  lemma OthersKeepTimes(s: State, call: Call, now: int)
    requires !call.CallCheckin? && !call.CallCheckout?
    ensures SameTimes(s.sessions, Step(s, call, now).state.sessions)
  {
    match call
    case CallCreateRequest(r, p, c, d, st, e, isSolo) => RequestFrame(s, r, p, c, d, st, e, isSolo);
    case CallAccept(id, actor) => AcceptFrame(s, id, actor);
    case CallReject(id, actor) => RejectFrame(s, id, actor);
    case CallCancel(id, actor) => CancelFrame(s, id, actor, now);
    case CallReportNoShow(id, actor) => NoShowFrame(s, id, actor, now);
    case CallEmergencySuspend(byAdmin, target, targetExists) => SuspendFrame(s, byAdmin, target, targetExists, now);
    case _ => SideFrame(s, call, now);
  }

  /** Only requests add sessions and log entries. */
  lemma OthersKeepLog(s: State, call: Call, now: int)
    requires !call.CallCreateRequest?
    ensures var t := Step(s, call, now).state; t.requestLog == s.requestLog && |t.sessions| == |s.sessions|
  {
    match call
    case CallAccept(id, actor) => AcceptFrame(s, id, actor);
    case CallReject(id, actor) => RejectFrame(s, id, actor);
    case CallCheckin(id, actor, far, reason) => CheckinFrame(s, id, actor, far, reason, now);
    case CallCheckout(id, actor) => CheckoutFrame(s, id, actor, now);
    case CallCancel(id, actor) => CancelFrame(s, id, actor, now);
    case CallReportNoShow(id, actor) => NoShowFrame(s, id, actor, now);
    case CallEmergencySuspend(byAdmin, target, targetExists) => SuspendFrame(s, byAdmin, target, targetExists, now);
    case _ => SideFrame(s, call, now);
  }

  /** The tables that only one kind of call writes. */
  ghost predicate WritesOwn(s: State, t: State, call: Call) {
    && t.children == s.children
    && (!call.CallSubmitEvaluation? ==> t.evaluations == s.evaluations)
    && (!call.CallWriteLog? ==> t.careLogs == s.careLogs)
    && (!call.CallEmergencySuspend? ==> t.sanctioned == s.sanctioned && t.inactive == s.inactive)
  }

  lemma StepWritesOwn(s: State, call: Call, now: int)
    ensures WritesOwn(s, Step(s, call, now).state, call)
  {
    match call
    case CallCreateRequest(r, p, c, d, st, e, isSolo) => RequestFrame(s, r, p, c, d, st, e, isSolo);
    case CallAccept(id, actor) => AcceptFrame(s, id, actor);
    case CallReject(id, actor) => RejectFrame(s, id, actor);
    case CallCheckin(id, actor, far, reason) => CheckinFrame(s, id, actor, far, reason, now);
    case CallCheckout(id, actor) => CheckoutFrame(s, id, actor, now);
    case CallCancel(id, actor) => CancelFrame(s, id, actor, now);
    case CallReportNoShow(id, actor) => NoShowFrame(s, id, actor, now);
    case CallEmergencySuspend(byAdmin, target, targetExists) => SuspendFrame(s, byAdmin, target, targetExists, now);
    case _ => SideWritesOwn(s, call, now);
  }

  lemma SideWritesOwn(s: State, call: Call, now: int)
    requires IsSideCall(call)
    ensures WritesOwn(s, Step(s, call, now).state, call)
  {}

  /** Parties never change, and a completed session stays completed. */
  ghost predicate Grows(before: seq<CareSession>, after: seq<CareSession>) {
    && |before| <= |after|
    && forall i :: 0 <= i < |before| ==>
         && after[i].requester == before[i].requester && after[i].provider == before[i].provider
         && (before[i].checkoutAt.Some? ==> after[i].checkoutAt.Some?)
  }

  lemma StepGrows(s: State, call: Call, now: int)
    ensures Grows(s.sessions, Step(s, call, now).state.sessions)
  {
    match call
    case CallCheckin(id, actor, far, reason) => CheckinFrame(s, id, actor, far, reason, now);
    case CallCheckout(id, actor) => CheckoutFrame(s, id, actor, now);
    case _ => OthersKeepTimes(s, call, now);
  }
}
