/** Which calls are behind the rows of a run: every session, mark, evaluation and transaction has its own. */
module CareCauses {
  import opened Prelude
  import opened CareModel
  import opened CareBooks
  import opened CareFrames
  import opened CareInvariants
  import opened CareRuns
  import opened CareOutcomes
  import opened CareAnswers

  // ------------------------------------------------------------------ the life of a session

  /** The seven ways in which a call can change the row of session i. */
  ghost predicate Turns(care: CareSession, after: CareSession, i: nat, call: Call, now: int) {
    match call
    case CallAccept(id, actor) =>
      id == i && actor == care.provider && care.status == Requested && after == care.(status := Confirmed)
    case CallReject(id, actor) =>
      id == i && actor == care.provider && care.status == Requested && after == care.(status := Rejected)
    case CallCheckin(id, actor, far, reason) =>
      && id == i && actor == care.provider && care.status == Confirmed && care.checkinAt.None? && (far ==> reason)
      && after == care.(checkinAt := Some(now))
    case CallCheckout(id, actor) =>
      && id == i && actor == care.provider && care.status == Confirmed
      && care.checkinAt.Some? && care.checkoutAt.None?
      && after == care.(checkoutAt := Some(now), actualMinutes := Some((now - care.checkinAt.value) / 60_000_000))
    case CallCancel(id, actor) =>
      && id == i && actor in {care.requester, care.provider}
      && care.status in {Requested, Confirmed} && care.checkinAt.None?
      && after == care.(status := Cancelled, cancelledAt := Some(now),
                        atFault := if Late(care, now) then Some(actor) else None)
    case CallReportNoShow(id, actor) =>
      && id == i && actor in {care.requester, care.provider}
      && care.status == Confirmed && care.checkinAt.None? && Over(care, now)
      && after == care.(status := NoShow, cancelledAt := Some(now),
                        atFault := Some(if actor == care.provider then care.requester else care.provider))
    case CallEmergencySuspend(byAdmin, target, targetExists) =>
      && byAdmin && targetExists && target in {care.requester, care.provider} && care.status in {Requested, Confirmed}
      && after == care.(status := Cancelled, cancelledAt := Some(now))
    case _ => false
  }

  /** A call changes rows in one of these ways only, and a request adds one. */
  ghost predicate Evolves(s: State, t: State, call: Call, now: int) {
    && |s.sessions| <= |t.sessions| <= |s.sessions| + 1
    && (forall i: nat :: i < |s.sessions| ==>
          t.sessions[i] == s.sessions[i] || Turns(s.sessions[i], t.sessions[i], i, call, now))
    && (|t.sessions| > |s.sessions| ==>
          && call.CallCreateRequest?
          && t.sessions[|s.sessions|]
             == NewCare(call.requester, call.provider, call.child, call.day, call.start, call.end))
  }

  lemma OneRowTurns(s: State, t: State, id: nat, call: Call, now: int)
    requires id < |s.sessions| == |t.sessions| && t.sessions == s.sessions[id := t.sessions[id]]
    requires Turns(s.sessions[id], t.sessions[id], id, call, now)
    ensures Evolves(s, t, call, now)
  {}

  lemma RequestEvolves(s: State, children: map<int, UserId>, calls: seq<Timed>, call: Call, now: int, t: State)
    requires Reached(s, children, calls) && call.CallCreateRequest? && t == Step(s, call, now).state
    ensures Evolves(s, t, call, now)
  {
    match call
    case CallCreateRequest(r, p, c, d, st, e, isSolo) =>
      RequestOutcome(s, children, calls, NewCare(r, p, c, d, st, e), isSolo);
  }

  lemma FailedTurns(s: State, t: State, id: nat, reporter: UserId, now: int)
    requires id < |s.sessions| && s.sessions[id].requester != s.sessions[id].provider
    requires PartyTo(s, id, reporter) && s.sessions[id].status == Confirmed && s.sessions[id].checkinAt.None?
    requires Over(s.sessions[id], now) && FailedAs(s, t, id, reporter, now)
    ensures Evolves(s, t, CallReportNoShow(id, reporter), now)
  {
    var care, fault := s.sessions[id], t.sessions[id].atFault.value;
    assert fault in {reporter, fault} && care.requester in {reporter, fault} && care.provider in {reporter, fault};
  }

  lemma CheckoutEvolves(s: State, children: map<int, UserId>, calls: seq<Timed>, id: SessionId, actor: UserId, now: int)
    requires Reached(s, children, calls)
    ensures Evolves(s, Checkout(s, id, actor, now).state, CallCheckout(id, actor), now)
  {
    var t := Checkout(s, id, actor, now).state;
    CheckoutOutcome(s, children, calls, id, actor, now);
    if Checkout(s, id, actor, now).reply == Done { OneRowTurns(s, t, id, CallCheckout(id, actor), now); }
  }

  lemma CancelEvolves(s: State, children: map<int, UserId>, calls: seq<Timed>, id: SessionId, actor: UserId, now: int)
    requires Reached(s, children, calls)
    ensures Evolves(s, Cancel(s, id, actor, now).state, CallCancel(id, actor), now)
  {
    var t := Cancel(s, id, actor, now).state;
    CancelOutcome(s, children, calls, id, actor, now);
    if Cancel(s, id, actor, now).reply == Done { OneRowTurns(s, t, id, CallCancel(id, actor), now); }
  }

  lemma NoShowEvolves(s: State, children: map<int, UserId>, calls: seq<Timed>, id: SessionId, actor: UserId, now: int)
    requires Reached(s, children, calls)
    ensures Evolves(s, ReportNoShow(s, id, actor, now).state, CallReportNoShow(id, actor), now)
  {
    NoShowOutcome(s, children, calls, id, actor, now);
    if ReportNoShow(s, id, actor, now).reply == Done {
      ReachedInv(s, children, calls);
      assert RowOk(s.sessions[id], s.children);
      FailedTurns(s, ReportNoShow(s, id, actor, now).state, id, actor, now);
    }
  }

  lemma AcceptEvolves(s: State, children: map<int, UserId>, calls: seq<Timed>, id: SessionId, actor: UserId, now: int)
    requires Reached(s, children, calls)
    ensures Evolves(s, Accept(s, id, actor).state, CallAccept(id, actor), now)
  {
    AcceptOutcome(s, children, calls, id, actor);
    if MayAccept(s, id, actor) { OneRowTurns(s, Accept(s, id, actor).state, id, CallAccept(id, actor), now); }
  }

  lemma ProviderEvolves(s: State, call: Call, now: int, t: State)
    requires t == Step(s, call, now).state && (call.CallReject? || call.CallCheckin?)
    ensures Evolves(s, t, call, now)
  {
    match call
    case CallReject(id, actor) => RejectOutcome(s, id, actor);
    case CallCheckin(id, actor, far, reason) => CheckinOutcome(s, id, actor, far, reason, now);
  }

  /** In any reachable state a session row changes in one of the seven ways or not at all, and no row goes away. */
  lemma SessionLifeCycle(s: State, children: map<int, UserId>, calls: seq<Timed>, call: Call, now: int, t: State)
    requires Reached(s, children, calls) && t == Step(s, call, now).state
    ensures Evolves(s, t, call, now)
  {
    match call
    case CallCreateRequest(_, _, _, _, _, _, _) => RequestEvolves(s, children, calls, call, now, t);
    case CallAccept(id, actor) => AcceptEvolves(s, children, calls, id, actor, now);
    case CallReject(_, _) => ProviderEvolves(s, call, now, t);
    case CallCheckin(_, _, _, _) => ProviderEvolves(s, call, now, t);
    case CallCheckout(id, actor) => CheckoutEvolves(s, children, calls, id, actor, now);
    case CallCancel(id, actor) => CancelEvolves(s, children, calls, id, actor, now);
    case CallReportNoShow(id, actor) => NoShowEvolves(s, children, calls, id, actor, now);
    case CallEmergencySuspend(byAdmin, target, targetExists) =>
      SuspendOutcome(s, children, calls, byAdmin, target, targetExists, now);
    case _ => SideFrame(s, call, now);
  }

  ghost predicate Made(calls: seq<Timed>, call: Call) { exists at :: Timed(call, at) in calls }

  ghost predicate RequestedBy(calls: seq<Timed>, care: CareSession) {
    exists isSolo :: Made(calls, CallCreateRequest(care.requester, care.provider, care.child, care.day, care.start,
                                                   care.end, isSolo))
  }

  ghost predicate EnteredBy(calls: seq<Timed>, i: nat, provider: UserId, at: int) {
    exists far, reason :: Timed(CallCheckin(i, provider, far, reason), at) in calls && (far ==> reason)
  }

  /** One of the parties cancelled the session, or was suspended by an administrator, at the time. */
  ghost predicate CalledOff(calls: seq<Timed>, i: nat, care: CareSession, at: int) {
    exists user :: user in {care.requester, care.provider}
                   && (|| Timed(CallCancel(i, user), at) in calls
                       || Timed(CallEmergencySuspend(true, user, true), at) in calls)
  }

  function OtherThan(care: CareSession, user: UserId): UserId {
    if user == care.provider then care.requester else care.provider
  }

  /** What the row of session i says goes back to calls by the right people, made when the row says. */
  ghost predicate Accounted(calls: seq<Timed>, i: nat, care: CareSession) {
    && RequestedBy(calls, care)
    && (care.status in {Confirmed, NoShow} || care.checkinAt.Some? ==> Made(calls, CallAccept(i, care.provider)))
    && (care.status == Rejected ==> Made(calls, CallReject(i, care.provider)))
    && (care.checkinAt.Some? ==> EnteredBy(calls, i, care.provider, care.checkinAt.value))
    && (care.checkoutAt.Some? ==> Timed(CallCheckout(i, care.provider), care.checkoutAt.value) in calls)
    && (care.status in {Cancelled, NoShow} <==> care.cancelledAt.Some?)
    && (care.status == Cancelled ==> CalledOff(calls, i, care, care.cancelledAt.value))
    && (care.status == Cancelled && care.atFault.Some? ==>
          Timed(CallCancel(i, care.atFault.value), care.cancelledAt.value) in calls)
    && (care.status == NoShow ==>
          && care.atFault.Some? && care.atFault.value in {care.requester, care.provider}
          && Timed(CallReportNoShow(i, OtherThan(care, care.atFault.value)), care.cancelledAt.value) in calls)
    && (care.status in {Requested, Confirmed, Rejected} ==> care.atFault.None?)
  }

  lemma AccountedLater(rest: seq<Timed>, last: Timed, i: nat, care: CareSession)
    requires Accounted(rest, i, care)
    ensures Accounted(rest + [last], i, care)
  {
    var calls := rest + [last];
    assert forall call: Call {:trigger Made(rest, call)} :: Made(rest, call) ==> Made(calls, call);
    if care.status == Cancelled {
      var user :| user in {care.requester, care.provider}
                  && (Timed(CallCancel(i, user), care.cancelledAt.value) in rest
                      || Timed(CallEmergencySuspend(true, user, true), care.cancelledAt.value) in rest);
      assert Timed(CallCancel(i, user), care.cancelledAt.value) in calls
          || Timed(CallEmergencySuspend(true, user, true), care.cancelledAt.value) in calls;
    }
  }

  lemma TurnAccounted(rest: seq<Timed>, last: Timed, i: nat, care: CareSession, after: CareSession)
    requires Accounted(rest, i, care) && Turns(care, after, i, last.call, last.now)
    requires care.requester != care.provider
    ensures Accounted(rest + [last], i, after)
  {
    var calls := rest + [last];
    AccountedLater(rest, last, i, care);
    assert last in calls && Timed(last.call, last.now) in calls;
    assert Made(calls, last.call);
    match last.call
    case CallCheckin(id, actor, far, reason) => assert EnteredBy(calls, i, after.provider, last.now);
    case CallCancel(id, actor) => assert CalledOff(calls, i, after, last.now);
    case CallEmergencySuspend(_, target, _) => assert CalledOff(calls, i, after, last.now);
    case _ =>
  }

  /**
   * In every run the row of each session goes back to calls: the request of its requester; once it was confirmed the
   * acceptance of its provider; rejection, check-in and check-out by the provider; cancellation by a party or by the
   * suspension of one; the no-show report by the party not at fault; each made at the time the row gives.
   */
  lemma {:induction false} EverySessionHasItsCalls(s: State, children: map<int, UserId>, calls: seq<Timed>, i: nat)
    requires Reached(s, children, calls) && i < |s.sessions|
    ensures Accounted(calls, i, s.sessions[i])
    decreases |calls|
  {
    if calls == [] {
    } else {
      var rest, last := calls[..|calls| - 1], calls[|calls| - 1];
      var before := Run(children, rest);
      SessionLifeCycle(before, children, rest, last.call, last.now, s);
      assert calls == rest + [last];
      if i < |before.sessions| {
        EverySessionHasItsCalls(before, children, rest, i);
        ReachedInv(before, children, rest);
        assert RowOk(before.sessions[i], before.children);
        AccountedLater(rest, last, i, before.sessions[i]);
        if s.sessions[i] != before.sessions[i] { TurnAccounted(rest, last, i, before.sessions[i], s.sessions[i]); }
      } else {
        assert last in calls && Made(calls, last.call);
      }
    }
  }

  // ------------------------------------------------------------------ suspensions, evaluations, journals

  /** In every run a user is marked, in both ways, if and only if an administrator suspended the existing user. */
  lemma {:induction false} MarkedExactly(s: State, children: map<int, UserId>, calls: seq<Timed>, user: UserId)
    requires Reached(s, children, calls)
    ensures user in s.sanctioned <==> Made(calls, CallEmergencySuspend(true, user, true))
    ensures user in s.inactive <==> Made(calls, CallEmergencySuspend(true, user, true))
    decreases |calls|
  {
    if calls == [] {
    } else {
      var rest, last := calls[..|calls| - 1], calls[|calls| - 1];
      var before := Run(children, rest);
      MarkedExactly(before, children, rest, user);
      MarkStep(before, children, rest, last, s, user);
      MadeMore(rest, last, CallEmergencySuspend(true, user, true));
      assert calls == rest + [last];
    }
  }

  lemma MadeMore(rest: seq<Timed>, last: Timed, call: Call)
    ensures Made(rest + [last], call) <==> Made(rest, call) || last.call == call
  {
    if at :| Timed(call, at) in rest { assert Timed(call, at) in rest + [last]; }
    if last.call == call { assert Timed(call, last.now) in rest + [last]; }
  }

  lemma MarkStep(s: State, children: map<int, UserId>, rest: seq<Timed>, last: Timed, t: State, user: UserId)
    requires Reached(s, children, rest) && t == Step(s, last.call, last.now).state
    ensures user in t.sanctioned <==> user in s.sanctioned || last.call == CallEmergencySuspend(true, user, true)
    ensures user in t.inactive <==> user in s.inactive || last.call == CallEmergencySuspend(true, user, true)
  {
    StepWritesOwn(s, last.call, last.now);
    match last.call
    case CallEmergencySuspend(byAdmin, target, targetExists) =>
      SuspendOutcome(s, children, rest, byAdmin, target, targetExists, last.now);
    case _ =>
  }

  /** The user handed in an evaluation of session i and it was taken. */
  predicate Submitted(children: map<int, UserId>, calls: seq<Timed>, i: int, user: UserId) {
    calls != [] &&
      var rest, last := calls[..|calls| - 1], calls[|calls| - 1];
      || Submitted(children, rest, i, user)
      || (last.call.CallSubmitEvaluation? && last.call.id == i && last.call.actor == user
          && Step(Run(children, rest), last.call, last.now).reply == Done)
  }

  lemma ReviewStep(s: State, call: Call, now: int, t: State, i: int, user: UserId)
    requires t == Step(s, call, now).state
    ensures HasReviewed(t, i, user) <==>
      || HasReviewed(s, i, user)
      || (call.CallSubmitEvaluation? && call.id == i && call.actor == user && Step(s, call, now).reply == Done)
  {
    StepWritesOwn(s, call, now);
    match call
    case CallSubmitEvaluation(id, actor, rating) =>
      ReviewOutcome(s, id, actor, rating);
      if t.evaluations != s.evaluations { LongerReviews(s, t, i, user); }
    case _ =>
  }

  lemma LongerReviews(s: State, t: State, i: int, user: UserId)
    requires |t.evaluations| == |s.evaluations| + 1 && t.evaluations[..|s.evaluations|] == s.evaluations
    ensures var last := t.evaluations[|s.evaluations|];
      HasReviewed(t, i, user) <==> HasReviewed(s, i, user) || (last.session == i && last.evaluator == user)
  {
    assert forall j :: 0 <= j < |s.evaluations| ==> t.evaluations[j] == s.evaluations[j];
  }

  /** In every run an evaluation exists if and only if its evaluator handed one in and it was taken. */
  lemma {:induction false} EvaluationsHaveCalls(s: State, children: map<int, UserId>, calls: seq<Timed>, i: int,
                                                user: UserId)
    requires Reached(s, children, calls)
    ensures HasReviewed(s, i, user) <==> Submitted(children, calls, i, user)
    decreases |calls|
  {
    if calls == [] {
    } else {
      var rest, last := calls[..|calls| - 1], calls[|calls| - 1];
      EvaluationsHaveCalls(Run(children, rest), children, rest, i, user);
      ReviewStep(Run(children, rest), last.call, last.now, s, i, user);
    }
  }

  /**
   * Whoever took part in a checked-out session and never got an evaluation of it through gets neither a request nor an
   * acceptance through.
   */
  lemma OwingBlocks(s: State, children: map<int, UserId>, calls: seq<Timed>, i: nat, user: UserId, id: SessionId,
                    care: CareSession, isSolo: bool)
    requires Reached(s, children, calls) && i < |s.sessions| && s.sessions[i].checkoutAt.Some?
    requires user in {s.sessions[i].requester, s.sessions[i].provider} && !Submitted(children, calls, i, user)
    requires care == NewCare(user, care.provider, care.child, care.day, care.start, care.end)
    ensures var Result(t, reply) := CreateRequest(s, user, care.provider, care.child, care.day, care.start, care.end,
                                                  isSolo);
            reply == BadRequest && t.sessions == s.sessions
    ensures var Result(t, reply) := Accept(s, id, user); reply != Done && t == s
  {
    EvaluationsHaveCalls(s, children, calls, i, user);
    RequestOutcome(s, children, calls, care, isSolo);
    AcceptOutcome(s, children, calls, id, user);
  }

  // ------------------------------------------------------------------ why points were paid

  /** Nothing more can be paid for the session. */
  predicate Closed(care: CareSession) { care.checkoutAt.Some? || care.status in {Cancelled, NoShow} }

  function ReasonFor(care: CareSession): Reason {
    if care.checkoutAt.Some? then Settlement else if care.status == NoShow then NoShowPenalty else CancelPenalty
  }

  ghost predicate TellsWhy(s: State, transaction: Transaction) {
    && transaction.reference.Some? && 0 <= transaction.reference.value < |s.sessions|
    && Closed(s.sessions[transaction.reference.value])
    && transaction.reason == ReasonFor(s.sessions[transaction.reference.value])
  }

  lemma TurnsKeepReason(care: CareSession, after: CareSession, i: nat, call: Call, now: int)
    requires Closed(care) && Turns(care, after, i, call, now)
    ensures Closed(after) && ReasonFor(after) == ReasonFor(care)
  {}

  lemma StillTellsWhy(s: State, t: State, call: Call, now: int, transaction: Transaction)
    requires TellsWhy(s, transaction) && Evolves(s, t, call, now)
    ensures TellsWhy(t, transaction)
  {
    var i := transaction.reference.value;
    if t.sessions[i] != s.sessions[i] { TurnsKeepReason(s.sessions[i], t.sessions[i], i, call, now); }
  }

  /** No transaction was added, or one that tells why. */
  ghost predicate AddsReasons(s: State, t: State) {
    || t.transactions == s.transactions
    || exists last :: t.transactions == s.transactions + [last] && TellsWhy(t, last)
  }

  lemma CheckoutAddsReasons(s: State, children: map<int, UserId>, calls: seq<Timed>, id: SessionId, actor: UserId,
                            now: int)
    requires Reached(s, children, calls)
    ensures AddsReasons(s, Checkout(s, id, actor, now).state)
  {
    CheckoutOutcome(s, children, calls, id, actor, now);
    if Checkout(s, id, actor, now).reply == Done {
      SettlementTellsWhy(s, Checkout(s, id, actor, now).state, id, now);
    }
  }

  lemma SettlementTellsWhy(s: State, t: State, id: nat, now: int)
    requires id < |s.sessions| && s.sessions[id].checkinAt.Some? && SettledAs(s, t, id, now)
    ensures AddsReasons(s, t)
  {
    if t.transactions != s.transactions { assert TellsWhy(t, Transaction(Settlement, Some(id))); }
  }

  lemma PenaltyTellsWhy(s: State, t: State, id: nat, row: CareSession, forfeits: bool, reason: Reason, now: int)
    requires id < |s.sessions| && EndsRow(s, t, id, row) && Ends(s, t, id, forfeits, reason, now)
    requires row.status in {Cancelled, NoShow} && row.checkoutAt.None? && reason == ReasonFor(row)
    ensures AddsReasons(s, t)
  {
    if t.transactions != s.transactions { assert TellsWhy(t, Transaction(reason, Some(id))); }
  }

  lemma CancelAddsReasons(s: State, children: map<int, UserId>, calls: seq<Timed>, id: SessionId, actor: UserId,
                          now: int)
    requires Reached(s, children, calls)
    ensures AddsReasons(s, Cancel(s, id, actor, now).state)
  {
    CancelOutcome(s, children, calls, id, actor, now);
    if Cancel(s, id, actor, now).reply == Done {
      var t := Cancel(s, id, actor, now).state;
      ReachedInv(s, children, calls);
      assert RowOk(s.sessions[id], s.children);
      PenaltyTellsWhy(s, t, id, t.sessions[id], Late(s.sessions[id], now) && actor == s.sessions[id].requester,
                      CancelPenalty, now);
    }
  }

  lemma NoShowAddsReasons(s: State, children: map<int, UserId>, calls: seq<Timed>, id: SessionId, actor: UserId,
                          now: int)
    requires Reached(s, children, calls)
    ensures AddsReasons(s, ReportNoShow(s, id, actor, now).state)
  {
    NoShowOutcome(s, children, calls, id, actor, now);
    if ReportNoShow(s, id, actor, now).reply == Done {
      var t := ReportNoShow(s, id, actor, now).state;
      ReachedInv(s, children, calls);
      assert RowOk(s.sessions[id], s.children);
      PenaltyTellsWhy(s, t, id, t.sessions[id], actor == s.sessions[id].provider, NoShowPenalty, now);
    }
  }

  lemma StepAddsReasons(s: State, children: map<int, UserId>, calls: seq<Timed>, call: Call, now: int, t: State)
    requires Reached(s, children, calls) && t == Step(s, call, now).state
    ensures AddsReasons(s, t)
  {
    match call
    case CallCheckout(id, actor) => CheckoutAddsReasons(s, children, calls, id, actor, now);
    case CallCancel(id, actor) => CancelAddsReasons(s, children, calls, id, actor, now);
    case CallReportNoShow(id, actor) => NoShowAddsReasons(s, children, calls, id, actor, now);
    case CallCreateRequest(r, p, c, d, st, e, isSolo) => RequestFrame(s, r, p, c, d, st, e, isSolo);
    case CallAccept(id, actor) => AcceptOutcome(s, children, calls, id, actor);
    case CallReject(id, actor) => RejectOutcome(s, id, actor);
    case CallCheckin(id, actor, far, reason) => CheckinFrame(s, id, actor, far, reason, now);
    case CallEmergencySuspend(byAdmin, target, targetExists) =>
      SuspendOutcome(s, children, calls, byAdmin, target, targetExists, now);
    case _ => SideFrame(s, call, now);
  }

  lemma {:induction false} RunTellsWhy(s: State, children: map<int, UserId>, calls: seq<Timed>, k: nat)
    requires Reached(s, children, calls) && k < |s.transactions|
    ensures TellsWhy(s, s.transactions[k])
    decreases |calls|
  {
    if calls == [] {
    } else {
      var rest, last := calls[..|calls| - 1], calls[|calls| - 1];
      var before := Run(children, rest);
      SessionLifeCycle(before, children, rest, last.call, last.now, s);
      StepAddsReasons(before, children, rest, last.call, last.now, s);
      if k < |before.transactions| {
        RunTellsWhy(before, children, rest, k);
        StillTellsWhy(before, s, last.call, last.now, before.transactions[k]);
      }
    }
  }

  /**
   * In every run the reason of a transaction is decided by what has become of its session: a settlement if it was
   * checked out, a no-show penalty if it is a no-show, a cancellation penalty if it was cancelled without a check-out;
   * and a penalty is only ever paid when the requester is at fault.
   */
  lemma TransactionsTellWhy(s: State, children: map<int, UserId>, calls: seq<Timed>, k: nat)
    requires Reached(s, children, calls) && k < |s.transactions|
    ensures var transaction := s.transactions[k];
      && transaction.reference.Some? && 0 <= transaction.reference.value < |s.sessions|
      && var care := s.sessions[transaction.reference.value];
         && (transaction.reason == Settlement <==> care.checkoutAt.Some?)
         && (transaction.reason == NoShowPenalty <==> care.status == NoShow)
         && (transaction.reason == CancelPenalty <==> care.status == Cancelled && care.checkoutAt.None?)
         && (transaction.reason != Settlement ==> care.atFault == Some(care.requester))
  {
    RunTellsWhy(s, children, calls, k);
    ReachedInv(s, children, calls);
    var id := s.transactions[k].reference.value;
    assert RowOk(s.sessions[id], s.children) && Mirrored(s, k);
    if FindHold(s.holds, id).Some? { assert HoldAgrees(s.sessions[id], s.holds[FindHold(s.holds, id).value]); }
  }
}
