/** app/services/trust_level_service.py: relationships, joint sessions, history and events updated in place. */
module TrustLevels {
  import opened Prelude
  import opened TrustModel
  import opened CareDatabase

  class TrustLevelService {
    const db: Database

    constructor (db: Database)
      ensures this.db == db
    {
      this.db := db;
    }

    method CheckSolo(requester: UserId, provider: UserId) returns (reply: Reply)
      ensures reply == RequireL3(db.Trust(), requester, provider)
    {
      var pair := NormalizePair(requester, provider);
      if pair !in db.relationships || db.relationships[pair].level != L3 { return Forbidden; }
      reply := Done;
    }

    method Grant(a: UserId, b: UserId)
      modifies db`relationships, db`events
      ensures db.Trust() == GrantL1(old(db.Trust()), a, b).state
    {
      var pair := NormalizePair(a, b);
      if pair in db.relationships { return; }
      db.relationships := db.relationships[pair := Relationship(L1, 0)];
      db.events := db.events + [Transition(None, L1)];
    }

    /** History row first, then the level, then the event. */
    method ChangeLevel(pair: Pair, next: Level, admin: Option<UserId>)
      requires pair in db.relationships
      modifies db`relationships, db`history, db`events
      ensures db.Trust() == Shift(old(db.Trust()), pair, next, admin)
    {
      var previous := db.relationships[pair].level;
      db.history := db.history + [Change(pair, previous, next, admin)];
      db.relationships := db.relationships[pair := db.relationships[pair].(level := next)];
      db.events := db.events + [Transition(Some(previous), next)];
    }

    method Schedule(initiator: UserId, partner: UserId) returns (reply: Reply)
      modifies db`relationships, db`joints, db`history, db`events
      ensures Result(db.Trust(), reply) == ScheduleJoint(old(db.Trust()), initiator, partner)
    {
      var pair := NormalizePair(initiator, partner);
      if pair !in db.relationships { return NotFound; }
      db.joints := db.joints + [Joint(initiator, partner, false, false, false)];
      if db.relationships[pair].level == L1 { ChangeLevel(pair, L2, None); }
      reply := Done;
    }

    /** `get_or_create` on the settings. */
    method Settings(user: UserId) returns (count: int)
      modifies db`required
      ensures db.required == WithSettings(old(db.required), user) && count == RequiredOf(old(db.required), user)
    {
      if user !in db.required { db.required := db.required[user := DEFAULT_REQUIRED_JOINT_COUNT]; }
      count := db.required[user];
    }

    method RequiredCount(pair: Pair) returns (count: int)
      modifies db`required
      ensures db.required == WithSettings(WithSettings(old(db.required), pair.0), pair.1)
      ensures count == Threshold(old(db.Trust()), pair)
    {
      var a := Settings(pair.0);
      var b := Settings(pair.1);
      count := if a >= b then a else b;
    }

    /** The failed assertion of the source leaves nothing committed. */
    method Confirm(id: int, user: UserId) returns (reply: Reply)
      modifies db`relationships, db`joints, db`required, db`history, db`events
      ensures Result(db.Trust(), reply) == ConfirmJoint(old(db.Trust()), id, user)
    {
      if !(0 <= id < |db.joints|) { return NotFound; }
      var joint := db.joints[id];
      if user == joint.initiator {
        joint := joint.(byInitiator := true);
      } else if user == joint.partner {
        joint := joint.(byPartner := true);
      } else {
        return Forbidden;
      }
      if joint.byInitiator && joint.byPartner && !joint.completed {
        joint := joint.(completed := true);
        var pair := NormalizePair(joint.initiator, joint.partner);
        if pair !in db.relationships { return Crash; }
        db.joints := db.joints[id := joint];
        var relationship := db.relationships[pair];
        db.relationships := db.relationships[pair := relationship.(jointCount := relationship.jointCount + 1)];
        var count := RequiredCount(pair);
        if db.relationships[pair].level == L2 && db.relationships[pair].jointCount >= count {
          ChangeLevel(pair, L3, None);
        }
      } else {
        db.joints := db.joints[id := joint];
      }
      reply := Done;
    }

    method SetCount(user: UserId, count: int) returns (reply: Reply)
      modifies db`required
      ensures Result(db.Trust(), reply) == SetRequired(old(db.Trust()), user, count)
    {
      if count < MIN_REQUIRED_JOINT_COUNT { return BadRequest; }
      var _ := Settings(user);
      db.required := db.required[user := count];
      reply := Done;
    }

    method DemotePair(isAdmin: bool, admin: UserId, a: UserId, b: UserId) returns (reply: Reply)
      modifies db`relationships, db`history, db`events
      ensures Result(db.Trust(), reply) == Demote(old(db.Trust()), isAdmin, admin, a, b)
    {
      if !isAdmin { return Forbidden; }
      var pair := NormalizePair(a, b);
      if pair !in db.relationships { return NotFound; }
      if db.relationships[pair].level == L1 { return BadRequest; }
      ChangeLevel(pair, if db.relationships[pair].level == L3 then L2 else L1, Some(admin));
      reply := Done;
    }
  }
}
