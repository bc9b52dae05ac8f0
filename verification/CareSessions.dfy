/** app/services/care_session_service.py: session rows edited in place, step by step, commits included. */
module CareSessions {
  import opened Prelude
  import opened ScheduleSlots
  import opened CareModel
  import opened CareDatabase
  import opened PointLedger
  import TrustLevels
  import TrustModel
  import WorkSchedule

  class CareSessionService {
    const db: Database
    const ledger: PointLedgerService
    const trust: TrustLevels.TrustLevelService

    predicate Valid() { ledger.db == db && trust.db == db }

    constructor (db: Database)
      ensures Valid() && this.db == db
    {
      var ledger := new PointLedgerService(db);
      var trust := new TrustLevels.TrustLevelService(db);
      this.db, this.ledger, this.trust := db, ledger, trust;
    }

    method Create(requester: UserId, provider: UserId, child: int, day: int, start: int, end: int, isSolo: bool)
      returns (reply: Reply)
      requires Valid()
      modifies db
      ensures Result(db.Snapshot(), reply)
           == CreateRequest(old(db.Snapshot()), requester, provider, child, day, start, end, isSolo)
    {
      if !(0 <= start < end <= SLOT_COUNT) { return BadRequest; }
      if HasPendingEvaluation(db.Snapshot(), requester) { return BadRequest; }
      if isSolo {
        var gate := trust.CheckSolo(requester, provider);
        if gate != TrustModel.Done { return Forbidden; }
      }
      reply := ledger.CheckCanRequest(requester);
      if reply != Done { return; }
      if child !in db.children || db.children[child] != requester { return BadRequest; }
      var requesterMask := WorkSchedule.MaskOn(db.schedules, requester, day);
      var providerMask := WorkSchedule.MaskOn(db.schedules, provider, day);
      if !FitsComplementary(start, end, requesterMask, providerMask) { return BadRequest; }
      if HasOverlap(db.sessions, requester, day, start, end) || HasOverlap(db.sessions, provider, day, start, end) {
        return Conflict;
      }
      AddRequest(requester, provider, child, day, start, end);
    }

    /** Adds the session and logs the request, as a rematch when the two completed a session before. */
    method AddRequest(requester: UserId, provider: UserId, child: int, day: int, start: int, end: int)
      modifies db`sessions, db`requestLog
      ensures db.sessions
           == old(db.sessions)
              + [CareSession(requester, provider, child, day, start, end, Requested, None, None, None, None, None)]
      ensures db.requestLog
           == old(db.requestLog)
              + [RequestEvent(requester, provider, HasCompletedPairing(old(db.sessions), requester, provider))]
    {
      var isRematch := HasCompletedPairing(db.sessions, requester, provider);
      db.sessions := db.sessions
        + [CareSession(requester, provider, child, day, start, end, Requested, None, None, None, None, None)];
      db.requestLog := db.requestLog + [RequestEvent(requester, provider, isRematch)];
    }

    /** The confirmation stays even when the hold is refused. */
    method AcceptRequest(id: SessionId, provider: UserId) returns (reply: Reply)
      requires Valid()
      modifies db
      ensures Result(db.Snapshot(), reply) == Accept(old(db.Snapshot()), id, provider)
    {
      reply := ForProvider(db.Snapshot(), id, provider, Requested);
      if reply != Done { return; }
      if HasPendingEvaluation(db.Snapshot(), provider) { return BadRequest; }
      db.sessions := db.sessions[id := db.sessions[id].(status := Confirmed)];
      trust.Grant(db.sessions[id].requester, db.sessions[id].provider);
      reply := ledger.PlaceHold(id);
    }

    method RejectRequest(id: SessionId, provider: UserId) returns (reply: Reply)
      modifies db`sessions
      ensures Result(db.Snapshot(), reply) == Reject(old(db.Snapshot()), id, provider)
    {
      reply := ForProvider(db.Snapshot(), id, provider, Requested);
      if reply != Done { return; }
      db.sessions := db.sessions[id := db.sessions[id].(status := Rejected)];
    }

    method CheckIn(id: SessionId, provider: UserId, outOfRange: bool, hasReason: bool, now: int) returns (reply: Reply)
      modifies db`sessions
      ensures Result(db.Snapshot(), reply) == Checkin(old(db.Snapshot()), id, provider, outOfRange, hasReason, now)
    {
      reply := ForProvider(db.Snapshot(), id, provider, Confirmed);
      if reply != Done { return; }
      if db.sessions[id].checkinAt.Some? { return Conflict; }
      if outOfRange && !hasReason { return BadRequest; }
      db.sessions := db.sessions[id := db.sessions[id].(checkinAt := Some(now))];
    }

    method CheckOut(id: SessionId, provider: UserId, now: int) returns (reply: Reply)
      requires Valid()
      modifies db
      ensures Result(db.Snapshot(), reply) == Checkout(old(db.Snapshot()), id, provider, now)
    {
      reply := ForProvider(db.Snapshot(), id, provider, Confirmed);
      if reply != Done { return; }
      var care := db.sessions[id];
      if care.checkinAt.None? { return Conflict; }
      if care.checkoutAt.Some? { return Conflict; }
      care := care.(checkoutAt := Some(now));
      care := care.(actualMinutes := Some((now - care.checkinAt.value) / MINUTE));
      db.sessions := db.sessions[id := care];
      var _ := ledger.SettleCareSession(id);
    }

    method CancelSession(id: SessionId, actor: UserId, now: int) returns (reply: Reply)
      requires Valid()
      modifies db
      ensures Result(db.Snapshot(), reply) == Cancel(old(db.Snapshot()), id, actor, now)
    {
      if !(0 <= id < |db.sessions|) || !db.sessions[id].Involves(actor) { return NotFound; }
      var care := db.sessions[id];
      if !care.Active() { return Conflict; }
      if care.checkinAt.Some? { return Conflict; }
      var wasConfirmed := care.status == Confirmed;
      var pastDeadline := PastDeadline(care, now);
      care := care.(status := Cancelled);
      care := care.(cancelledAt := Some(now));
      if wasConfirmed && pastDeadline { care := care.(atFault := Some(actor)); }
      db.sessions := db.sessions[id := care];
      if wasConfirmed { ledger.ResolveHoldOnCancel(id, pastDeadline); }
      reply := Done;
    }

    method ReportAbsence(id: SessionId, reporter: UserId, now: int) returns (reply: Reply)
      requires Valid()
      modifies db
      ensures Result(db.Snapshot(), reply) == ReportNoShow(old(db.Snapshot()), id, reporter, now)
    {
      if !(0 <= id < |db.sessions|) || !db.sessions[id].Involves(reporter) { return NotFound; }
      var care := db.sessions[id];
      if care.status != Confirmed { return Conflict; }
      if care.checkinAt.Some? { return Conflict; }
      if now < care.ScheduledEnd() { return BadRequest; }
      var atFault := if reporter == care.requester then care.provider else care.requester;
      care := care.(status := NoShow);
      care := care.(cancelledAt := Some(now));
      care := care.(atFault := Some(atFault));
      db.sessions := db.sessions[id := care];
      ledger.ResolveHoldOnNoShow(id);
      reply := Done;
    }
  }
}
