/** app/services/admin_service.py, `AdminSuspendService`: two passes over the listed sessions. */
module AdminSuspend {
  import opened Prelude
  import opened CareModel
  import opened CareDatabase
  import opened PointLedger

  class AdminSuspendService {
    const db: Database
    const ledger: PointLedgerService

    predicate Valid() { ledger.db == db }

    constructor (db: Database)
      ensures Valid() && this.db == db
    {
      var ledger := new PointLedgerService(db);
      this.db, this.ledger := db, ledger;
    }

    /** First pass: stop every listed session that is active and remember which ones were confirmed. */
    method StopListed(ids: seq<SessionId>, now: int) returns (stopped: seq<(SessionId, bool)>)
      requires Listing(db.sessions, ids)
      modifies db`sessions
      ensures |db.sessions| == |old(db.sessions)|
      ensures forall i :: 0 <= i < |db.sessions| ==>
        db.sessions[i] == if i in ids && old(db.sessions)[i].Active() then Stop(old(db.sessions)[i], now)
                          else old(db.sessions)[i]
      ensures stopped == Stopped(old(db.sessions), ids)
    {
      stopped := [];
      ghost var before := db.sessions;
      for a := 0 to |ids|
        invariant |db.sessions| == |before|
        invariant forall i :: 0 <= i < |before| ==>
          db.sessions[i] == if i in ids[..a] && before[i].Active() then Stop(before[i], now) else before[i]
        invariant Listing(before, ids[..a]) && stopped == Stopped(before, ids[..a])
      {
        var id := ids[a];
        assert ids[..a + 1][..a] == ids[..a];
        assert id !in ids[..a] by { assert forall b :: 0 <= b < a ==> Newer(before, ids[b], id); }
        var care := db.sessions[id];
        if care.Active() {
          var wasConfirmed := care.status == Confirmed;
          care := care.(status := Cancelled);
          care := care.(cancelledAt := Some(now));
          db.sessions := db.sessions[id := care];
          stopped := stopped + [(id, wasConfirmed)];
        }
      }
      assert ids[..|ids|] == ids;
    }

    /** Second pass: give back what was held for the stopped sessions. */
    method ReleaseListed(stopped: seq<(SessionId, bool)>)
      requires Valid() && forall a :: 0 <= a < |stopped| ==> 0 <= stopped[a].0 < |db.sessions|
      modifies db
      ensures db.Snapshot() == ReleaseStopped(old(db.Snapshot()), stopped)
    {
      ghost var before := db.Snapshot();
      for a := 0 to |stopped|
        invariant db.Snapshot() == ReleaseStopped(before, stopped[..a])
      {
        var (id, wasConfirmed) := stopped[a];
        assert stopped[..a + 1][..a] == stopped[..a];
        if wasConfirmed { ledger.ResolveHoldOnCancel(id, false); }
      }
      assert stopped[..|stopped|] == stopped;
    }

    method Suspend(byAdmin: bool, target: UserId, targetExists: bool, now: int) returns (reply: Reply)
      requires Valid()
      modifies db
      ensures Result(db.Snapshot(), reply) == EmergencySuspend(old(db.Snapshot()), byAdmin, target, targetExists, now)
    {
      if !byAdmin { return Forbidden; }
      if !targetExists { return NotFound; }
      db.sanctioned := db.sanctioned + {target};
      db.inactive := db.inactive + {target};
      ghost var before := db.Snapshot();
      assert before == Ban(old(db.Snapshot()), target);
      var ids := ListForUser(db.sessions, target, |db.sessions|);
      StoppedInRange(db.sessions, ids);
      var stopped := StopListed(ids, now);
      assert db.sessions == StopAll(before.sessions, target, now);
      assert db.Snapshot() == before.(sessions := StopAll(before.sessions, target, now));
      ReleaseListed(stopped);
      reply := Done;
    }
  }
}
