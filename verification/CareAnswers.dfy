/** What the other calls answer and leave behind, told from the tables: requests, acceptances and everything beside. */
module CareAnswers {
  import opened Prelude
  import opened ScheduleSlots
  import opened CareModel
  import opened CareInvariants
  import opened CareSteps
  import opened CareRuns
  import opened CareOutcomes
  import CareSuspend
  import TrustModel
  import TrustOutcomes
  import WorkSchedule

  // ------------------------------------------------------------------ who owes an evaluation

  /** There is an evaluation of the session by the user. */
  predicate HasReviewed(s: State, id: int, user: UserId) {
    exists j :: 0 <= j < |s.evaluations| && s.evaluations[j].session == id && s.evaluations[j].evaluator == user
  }

  /** The user has evaluated every checked-out session they took part in, in either role. */
  ghost predicate OwesNothing(s: State, user: UserId) {
    forall i :: 0 <= i < |s.sessions| && s.sessions[i].checkoutAt.Some? ==>
      user in {s.sessions[i].requester, s.sessions[i].provider} ==> HasReviewed(s, i, user)
  }

  lemma PendingMeans(s: State, user: UserId)
    ensures HasPendingEvaluation(s, user) <==> !OwesNothing(s, user)
  {
    if HasPendingEvaluation(s, user) {
      var id :| 0 <= id < |s.sessions| && AwaitsEvaluation(s, id, user);
      assert !HasReviewed(s, id, user);
    }
    if id :| 0 <= id < |s.sessions| && s.sessions[id].checkoutAt.Some?
             && user in {s.sessions[id].requester, s.sessions[id].provider} && !HasReviewed(s, id, user)
    {
      assert AwaitsEvaluation(s, id, user);
    }
  }

  // ------------------------------------------------------------------ requests

  /** Somebody's active session shares a slot with [start, end) of the day. */
  ghost predicate Busy(s: State, user: UserId, day: int, start: int, end: int) {
    exists i, slot {:trigger Takes(s.sessions[i], user, day, slot)} ::
      0 <= i < |s.sessions| && start <= slot < end && Takes(s.sessions[i], user, day, slot)
  }

  lemma OverlapIsBusy(s: State, children: map<int, UserId>, user: UserId, day: int, start: int, end: int)
    requires Rows(s.sessions, children) && start < end
    ensures HasOverlap(s.sessions, user, day, start, end) <==> Busy(s, user, day, start, end)
  {
    if HasOverlap(s.sessions, user, day, start, end) {
      var i :| 0 <= i < |s.sessions| && Overlaps(s.sessions[i], user, day, start, end);
      assert RowOk(s.sessions[i], children);
      assert Takes(s.sessions[i], user, day, Max(start, s.sessions[i].start));
    }
    if Busy(s, user, day, start, end) {
      var i, slot :| 0 <= i < |s.sessions| && start <= slot < end && Takes(s.sessions[i], user, day, slot);
      assert Overlaps(s.sessions[i], user, day, start, end);
    }
  }

  /** The two are at L3 with each other. */
  ghost predicate AtL3(s: State, a: UserId, b: UserId) {
    exists pair :: TrustOutcomes.KeyOf(pair, a, b) && TrustModel.LevelOf(s.trust, pair) == Some(TrustModel.L3)
  }

  lemma GateMeans(s: State, a: UserId, b: UserId)
    ensures TrustModel.RequireL3(s.trust, a, b) == TrustModel.Done <==> AtL3(s, a, b)
  {
    TrustOutcomes.GateOutcome(s.trust, a, b, if a <= b then (a, b) else (b, a));
    assert TrustOutcomes.KeyOf(if a <= b then (a, b) else (b, a), a, b);
    if pair :| TrustOutcomes.KeyOf(pair, a, b) && TrustModel.LevelOf(s.trust, pair) == Some(TrustModel.L3) {
      TrustOutcomes.GateOutcome(s.trust, a, b, pair);
    }
  }

  /** The requester is above the limit, the child is theirs, and each slot their work time and the other's free time. */
  ghost predicate Suits(s: State, care: CareSession) {
    && BalanceOf(s.accounts, care.requester) > -12
    && care.child in s.children && s.children[care.child] == care.requester
    && 0 <= care.start <= care.end
    && BusyThroughout(WorkSchedule.MaskOn(s.schedules, care.requester, care.day), care.start, care.end)
    && FreeThroughout(WorkSchedule.MaskOn(s.schedules, care.provider, care.day), care.start, care.end)
  }

  /** The range is valid and the requester owes no evaluation. */
  ghost predicate Proper(s: State, care: CareSession) {
    0 <= care.start < care.end <= 48 && OwesNothing(s, care.requester)
  }

  ghost predicate Clashes(s: State, care: CareSession) {
    Busy(s, care.requester, care.day, care.start, care.end) || Busy(s, care.provider, care.day, care.start, care.end)
  }

  function NewCare(requester: UserId, provider: UserId, child: int, day: int, start: int, end: int): CareSession {
    CareSession(requester, provider, child, day, start, end, Requested, None, None, None, None, None)
  }

  /** When a request is accepted and how it is refused; whatever else is wrong with it is a bad request. */
  ghost predicate RequestAnswered(s: State, care: CareSession, isSolo: bool, reply: Reply) {
    var gated := isSolo && !AtL3(s, care.requester, care.provider);
    && (reply == Forbidden <==> Proper(s, care) && gated)
    && (reply == Conflict <==> Proper(s, care) && !gated && Suits(s, care) && Clashes(s, care))
    && (reply == Done <==> Proper(s, care) && !gated && Suits(s, care) && !Clashes(s, care))
    && reply in {Done, Forbidden, Conflict, BadRequest} && (reply == Done ==> care.requester != care.provider)
  }

  lemma RequestReply(s: State, care: CareSession, isSolo: bool)
    requires Rows(s.sessions, s.children)
    ensures RequestAnswered(s, care, isSolo,
                            CreateRequest(s, care.requester, care.provider, care.child, care.day, care.start, care.end,
                                          isSolo).reply)
  {
    PendingMeans(s, care.requester);
    GateMeans(s, care.requester, care.provider);
    if 0 <= care.start < care.end <= SLOT_COUNT {
      var requesterMask := WorkSchedule.MaskOn(s.schedules, care.requester, care.day);
      FitsComplementaryMeans(care.start, care.end, requesterMask,
                             WorkSchedule.MaskOn(s.schedules, care.provider, care.day));
      NoSelfCover(care.start, care.end, requesterMask);
      OverlapIsBusy(s, s.children, care.requester, care.day, care.start, care.end);
      OverlapIsBusy(s, s.children, care.provider, care.day, care.start, care.end);
    }
  }

  /** A new session row and a logged event, which says whether the two completed a session before, in either role. */
  ghost predicate RequestMade(s: State, t: State, care: CareSession) {
    && t.sessions == s.sessions + [care] && |t.requestLog| == |s.requestLog| + 1
    && t.requestLog[..|s.requestLog|] == s.requestLog
    && t.requestLog[|s.requestLog|] == RequestEvent(care.requester, care.provider, t.requestLog[|s.requestLog|].rematch)
    && (t.requestLog[|s.requestLog|].rematch <==>
          exists i :: 0 <= i < |s.sessions| && s.sessions[i].checkoutAt.Some?
                      && {s.sessions[i].requester, s.sessions[i].provider} == {care.requester, care.provider})
  }

  lemma PairingMeans(care: CareSession, a: UserId, b: UserId)
    requires care.requester != care.provider
    ensures Between(care, a, b) <==> {care.requester, care.provider} == {a, b}
  {
    if {care.requester, care.provider} == {a, b} {
      assert care.requester in {a, b} && care.provider in {a, b};
      assert a in {care.requester, care.provider} && b in {care.requester, care.provider};
    }
  }

  /** No balance changes; an accepted request adds its row and its event, a refused one nothing. */
  ghost predicate RequestLeft(s: State, t: State, care: CareSession, reply: Reply) {
    && (forall user :: Gains(s, t, user, 0, 0))
    && t == s.(accounts := t.accounts, sessions := t.sessions, requestLog := t.requestLog)
    && if reply == Done then RequestMade(s, t, care) else t.sessions == s.sessions && t.requestLog == s.requestLog
  }

  lemma RequestEffect(s: State, care: CareSession, isSolo: bool)
    requires Rows(s.sessions, s.children)
    requires care == NewCare(care.requester, care.provider, care.child, care.day, care.start, care.end)
    ensures var Result(t, reply) := CreateRequest(s, care.requester, care.provider, care.child, care.day, care.start,
                                                  care.end, isSolo);
            RequestLeft(s, t, care, reply)
  {
    forall i | 0 <= i < |s.sessions|
      ensures Between(s.sessions[i], care.requester, care.provider)
         <==> {s.sessions[i].requester, s.sessions[i].provider} == {care.requester, care.provider}
    {
      assert RowOk(s.sessions[i], s.children);
      PairingMeans(s.sessions[i], care.requester, care.provider);
    }
    PairingCompleted(s, care.requester, care.provider);
  }

  lemma PairingCompleted(s: State, a: UserId, b: UserId)
    requires forall i :: 0 <= i < |s.sessions| ==>
      (Between(s.sessions[i], a, b) <==> {s.sessions[i].requester, s.sessions[i].provider} == {a, b})
    ensures HasCompletedPairing(s.sessions, a, b) <==>
      exists i :: 0 <= i < |s.sessions| && s.sessions[i].checkoutAt.Some?
                  && {s.sessions[i].requester, s.sessions[i].provider} == {a, b}
  {
    if HasCompletedPairing(s.sessions, a, b) {
      var i :| 0 <= i < |s.sessions| && Completed(s.sessions[i], a, b);
      assert {s.sessions[i].requester, s.sessions[i].provider} == {a, b};
    }
    if i :| 0 <= i < |s.sessions| && s.sessions[i].checkoutAt.Some?
            && {s.sessions[i].requester, s.sessions[i].provider} == {a, b}
    {
      assert Completed(s.sessions[i], a, b);
    }
  }

  /** When a request is accepted and how it is refused, in both directions, and what it leaves behind. */
  lemma RequestOutcome(s: State, children: map<int, UserId>, calls: seq<Timed>, care: CareSession, isSolo: bool)
    requires Reached(s, children, calls)
    requires care == NewCare(care.requester, care.provider, care.child, care.day, care.start, care.end)
    ensures var Result(t, reply) := CreateRequest(s, care.requester, care.provider, care.child, care.day, care.start,
                                                  care.end, isSolo);
            RequestAnswered(s, care, isSolo, reply) && RequestLeft(s, t, care, reply)
  {
    ReachedInv(s, children, calls);
    RequestReply(s, care, isSolo);
    RequestEffect(s, care, isSolo);
  }

  // ------------------------------------------------------------------ accepting and rejecting

  /** The user provides the session, which waits for an answer, and owes no evaluation. */
  ghost predicate MayAccept(s: State, id: SessionId, user: UserId) {
    ProvidedBy(s, id, user) && s.sessions[id].status == Requested && OwesNothing(s, user)
  }

  /** The session is confirmed; its length is reserved if the requester is above the limit, and otherwise nothing is. */
  ghost predicate AcceptedAs(s: State, t: State, id: nat, reserves: bool)
    requires id < |s.sessions|
  {
    var care, amount := s.sessions[id], s.sessions[id].end - s.sessions[id].start;
    && t == s.(sessions := s.sessions[id := care.(status := Confirmed)], trust := t.trust, accounts := t.accounts,
               holds := if reserves then s.holds + [Hold(id, care.requester, care.provider, amount, Held, None)]
                        else s.holds)
    && (if reserves then Pays(s, t, care, -amount, amount, 0) else Pays(s, t, care, 0, 0, 0))
    && FindHold(s.holds, id).None?
  }

  /** The two have a relationship, at L1 if they had none; nothing else about trust changes. */
  ghost predicate Acquainted(s: TrustModel.State, t: TrustModel.State, a: UserId, b: UserId) {
    && t == s.(relationships := t.relationships, events := t.events)
    && forall pair :: TrustOutcomes.KeyOf(pair, a, b) ==>
         && TrustOutcomes.OtherPairsStay(s, t, pair) && pair in t.relationships
         && t.relationships[pair] == (if pair in s.relationships then s.relationships[pair]
                                      else TrustModel.Relationship(TrustModel.L1, 0))
  }

  lemma GrantAcquaints(s: TrustModel.State, a: UserId, b: UserId)
    ensures Acquainted(s, TrustModel.GrantL1(s, a, b).state, a, b)
  {
    forall pair | TrustOutcomes.KeyOf(pair, a, b)
      ensures TrustOutcomes.OtherPairsStay(s, TrustModel.GrantL1(s, a, b).state, pair)
    {
      TrustOutcomes.GrantOutcome(s, a, b, pair);
    }
  }

  lemma HoldIsPlaced(s: State, confirmed: State, id: nat, care: CareSession)
    requires id < |s.sessions| && care == s.sessions[id] && care.requester != care.provider
    requires FindHold(s.holds, id).None?
    requires confirmed == s.(sessions := s.sessions[id := care.(status := Confirmed)], trust := confirmed.trust)
    ensures var Result(t, reply) := CreateHold(confirmed, id);
      && reply == (if BalanceOf(s.accounts, care.requester) > -12 then Done else BadRequest)
      && AcceptedAs(s, t, id, reply == Done) && t.trust == confirmed.trust
  {}

  lemma AcceptEffect(s: State, id: nat, user: UserId)
    requires Inv(s) && MayAccept(s, id, user)
    ensures var care, Result(t, reply) := s.sessions[id], Accept(s, id, user);
      && reply == (if BalanceOf(s.accounts, care.requester) > -12 then Done else BadRequest)
      && AcceptedAs(s, t, id, reply == Done) && Acquainted(s.trust, t.trust, care.requester, care.provider)
  {
    var care := s.sessions[id];
    PendingMeans(s, user);
    assert RowOk(care, s.children);
    HoldOfOpenSession(s, id);
    GrantAcquaints(s.trust, care.requester, care.provider);
    HoldIsPlaced(s, Edit(Acquaint(s, id), id, care.(status := Confirmed)), id, care);
  }

  lemma AcceptReply(s: State, id: SessionId, user: UserId)
    ensures var result := Accept(s, id, user);
      && (result.reply == NotFound <==> !ProvidedBy(s, id, user))
      && (result.reply == Conflict <==> ProvidedBy(s, id, user) && s.sessions[id].status != Requested)
      && result.reply in {Done, NotFound, Conflict, BadRequest}
      && (!MayAccept(s, id, user) ==> result.state == s && result.reply != Done)
  {
    PendingMeans(s, user);
  }

  /**
   * The provider, and nobody else, can accept a requested session while owing no evaluation. That always confirms it
   * and makes the two acquaintances; the answer is an error when the requester is at the limit, and then nothing is
   * reserved. Any other call is refused and changes nothing.
   */
  lemma AcceptOutcome(s: State, children: map<int, UserId>, calls: seq<Timed>, id: SessionId, user: UserId)
    requires Reached(s, children, calls)
    ensures var Result(t, reply) := Accept(s, id, user);
      && (reply == NotFound <==> !ProvidedBy(s, id, user))
      && (reply == Conflict <==> ProvidedBy(s, id, user) && s.sessions[id].status != Requested)
      && (reply == Done <==> MayAccept(s, id, user) && BalanceOf(s.accounts, s.sessions[id].requester) > -12)
      && reply in {Done, NotFound, Conflict, BadRequest}
      && (!MayAccept(s, id, user) ==> t == s)
      && (MayAccept(s, id, user) ==>
            && AcceptedAs(s, t, id, reply == Done)
            && Acquainted(s.trust, t.trust, s.sessions[id].requester, s.sessions[id].provider))
  {
    ReachedInv(s, children, calls);
    AcceptReply(s, id, user);
    if MayAccept(s, id, user) { AcceptEffect(s, id, user); }
  }

  /** The provider, and nobody else, can reject a requested session: its status changes, and nothing else does. */
  lemma RejectOutcome(s: State, id: SessionId, user: UserId)
    ensures var Result(t, reply) := Reject(s, id, user);
      && (reply == NotFound <==> !ProvidedBy(s, id, user))
      && (reply == Conflict <==> ProvidedBy(s, id, user) && s.sessions[id].status != Requested)
      && (reply == Done <==> ProvidedBy(s, id, user) && s.sessions[id].status == Requested)
      && (reply != Done ==> t == s)
      && (reply == Done ==> t == s.(sessions := s.sessions[id := s.sessions[id].(status := Rejected)]))
  {}

  // ------------------------------------------------------------------ check-in, evaluations, journals

  /** The provider, and nobody else, checks in to a confirmed session, once; from far away only with a reason. */
  lemma CheckinOutcome(s: State, id: SessionId, user: UserId, outOfRange: bool, hasReason: bool, now: int)
    ensures var Result(t, reply) := Checkin(s, id, user, outOfRange, hasReason, now);
      var open := ProvidedBy(s, id, user) && s.sessions[id].status == Confirmed && s.sessions[id].checkinAt.None?;
      && (reply == NotFound <==> !ProvidedBy(s, id, user))
      && (reply == Conflict <==> ProvidedBy(s, id, user) && !open)
      && (reply == BadRequest <==> open && outOfRange && !hasReason)
      && (reply == Done <==> open && (outOfRange ==> hasReason))
      && (reply != Done ==> t == s)
      && (reply == Done ==> t == s.(sessions := s.sessions[id := s.sessions[id].(checkinAt := Some(now))]))
  {}

  /** The last evaluation is the user's, of the other party of the session. */
  ghost predicate ReviewAdded(s: State, t: State, id: nat, user: UserId, rating: int)
    requires id < |s.sessions|
  {
    exists other :: {user, other} == {s.sessions[id].requester, s.sessions[id].provider}
                    && t == s.(evaluations := s.evaluations + [Evaluation(id, user, other, rating)])
  }

  lemma OtherParty(s: State, id: nat, user: UserId, rating: int)
    requires id < |s.sessions| && PartyTo(s, id, user)
    ensures var care := s.sessions[id]; var other := if user == care.requester then care.provider else care.requester;
      ReviewAdded(s, s.(evaluations := s.evaluations + [Evaluation(id, user, other, rating)]), id, user, rating)
  {
    var care := s.sessions[id];
    var other := if user == care.requester then care.provider else care.requester;
    assert {user, other} == {care.requester, care.provider};
  }

  /** Each party of a checked-out session can evaluate the other one, once, with one to five stars. */
  lemma ReviewOutcome(s: State, id: SessionId, user: UserId, rating: int)
    ensures var Result(t, reply) := SubmitEvaluation(s, id, user, rating);
      var open := PartyTo(s, id, user) && s.sessions[id].checkoutAt.Some? && !HasReviewed(s, id, user);
      && (reply == BadRequest <==> rating !in {1, 2, 3, 4, 5})
      && (reply == NotFound <==> rating in {1, 2, 3, 4, 5} && !PartyTo(s, id, user))
      && (reply == Conflict <==> rating in {1, 2, 3, 4, 5} && PartyTo(s, id, user) && !open)
      && (reply == Done <==> rating in {1, 2, 3, 4, 5} && open)
      && (reply != Done ==> t == s) && (reply == Done ==> ReviewAdded(s, t, id, user, rating))
  {
    assert Evaluated(s.evaluations, id, user) <==> HasReviewed(s, id, user);
    if PartyTo(s, id, user) { OtherParty(s, id, user, rating); }
  }

  /** The provider, and nobody else, keeps the journal of a confirmed session. */
  lemma JournalOutcome(s: State, id: SessionId, user: UserId, allergyNoteMissing: bool)
    ensures var Result(t, reply) := WriteLog(s, id, user, allergyNoteMissing);
      && (reply == NotFound <==> !ProvidedBy(s, id, user))
      && (reply == Conflict <==> ProvidedBy(s, id, user) && s.sessions[id].status != Confirmed)
      && (reply == BadRequest <==> ProvidedBy(s, id, user) && s.sessions[id].status == Confirmed && allergyNoteMissing)
      && (reply == Done <==> ProvidedBy(s, id, user) && s.sessions[id].status == Confirmed && !allergyNoteMissing)
      && (reply != Done ==> t == s) && (reply == Done ==> t == s.(careLogs := s.careLogs + {id}))
  {}

  // ------------------------------------------------------------------ suspension

  /** Only an administrator suspends, and only an existing user; any other call changes nothing. */
  lemma SuspendOutcome(s: State, children: map<int, UserId>, calls: seq<Timed>, byAdmin: bool, target: UserId,
                       targetExists: bool, now: int)
    requires Reached(s, children, calls)
    ensures var Result(t, reply) := EmergencySuspend(s, byAdmin, target, targetExists, now);
      && (reply == Forbidden <==> !byAdmin)
      && (reply == NotFound <==> byAdmin && !targetExists)
      && (reply == Done <==> byAdmin && targetExists)
      && (reply != Done ==> t == s)
      && (reply == Done ==>
            && CareSuspend.RowsEnded(s, t, target, now) && CareSuspend.Refunded(s, t, target)
            && t == s.(sessions := t.sessions, holds := t.holds, accounts := t.accounts,
                       sanctioned := s.sanctioned + {target}, inactive := s.inactive + {target}))
  {
    SuspendInAnyRun(s, children, calls, target, now);
  }
}
