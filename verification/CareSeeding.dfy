/** Creating accounts lazily cannot be told apart from giving everybody a seeded account beforehand. */
module CareSeeding {
  import opened Prelude
  import opened CareModel

  function Seed(accounts: map<UserId, Account>, users: set<UserId>): map<UserId, Account> {
    map user | user in accounts.Keys + users :: if user in accounts then accounts[user] else Account(SEED_POINTS, 0)
  }

  function Seeded(s: State, users: set<UserId>): State { s.(accounts := Seed(s.accounts, users)) }

  function SeededResult(r: Result, users: set<UserId>): Result { r.(state := Seeded(r.state, users)) }

  lemma SeedTouch(accounts: map<UserId, Account>, users: set<UserId>, user: UserId)
    ensures Seed(Touch(accounts, user), users) == Touch(Seed(accounts, users), user)
    ensures BalanceOf(Seed(accounts, users), user) == BalanceOf(accounts, user)
    ensures HeldOf(Seed(accounts, users), user) == HeldOf(accounts, user)
  {}

  lemma SeedAdjust(accounts: map<UserId, Account>, users: set<UserId>, user: UserId, balance: int, held: int)
    ensures Seed(Adjust(accounts, user, balance, held), users) == Adjust(Seed(accounts, users), user, balance, held)
  {
    SeedTouch(accounts, users, user);
  }

  lemma SeedResolve(s: State, users: set<UserId>, k: nat, status: HoldStatus, paid: int, reason: Option<Reason>,
                    at: Option<int>)
    requires k < |s.holds|
    ensures Resolve(Seeded(s, users), k, status, paid, reason, at)
         == Seeded(Resolve(s, k, status, paid, reason, at), users)
  {
    var hold := s.holds[k];
    SeedAdjust(s.accounts, users, hold.payer, hold.amount - paid, -hold.amount);
    SeedAdjust(Adjust(s.accounts, hold.payer, hold.amount - paid, -hold.amount), users, hold.payee, paid, 0);
  }

  lemma SeedTransfer(s: State, users: set<UserId>, payer: UserId, payee: UserId, amount: int, id: SessionId)
    ensures Transfer(Seeded(s, users), payer, payee, amount, Settlement, id)
         == Seeded(Transfer(s, payer, payee, amount, Settlement, id), users)
  {
    SeedTouch(s.accounts, users, payee);
    SeedAdjust(Touch(s.accounts, payee), users, payer, -amount, 0);
    SeedAdjust(Adjust(Touch(s.accounts, payee), payer, -amount, 0), users, payee, amount, 0);
  }

  lemma SeedSettle(s: State, users: set<UserId>, id: SessionId)
    requires 0 <= id < |s.sessions|
    ensures Settle(Seeded(s, users), id) == Seeded(Settle(s, id), users)
  {
    var care, raw, found := s.sessions[id], RawSlots(s.sessions[id]), FindHold(s.holds, id);
    if found.None? || s.holds[found.value].status != Held {
      SeedTransfer(s, users, care.requester, care.provider, raw, id);
    } else {
      var slots := Min(raw, s.holds[found.value].amount);
      SeedResolve(s, users, found.value, Settled, slots, if slots <= 0 then None else Some(Settlement),
                  care.checkoutAt);
    }
  }

  lemma SeedResolveOnCancel(s: State, users: set<UserId>, id: SessionId, pastDeadline: bool)
    requires 0 <= id < |s.sessions|
    ensures ResolveOnCancel(Seeded(s, users), id, pastDeadline) == Seeded(ResolveOnCancel(s, id, pastDeadline), users)
  {
    var found, at := FindHold(s.holds, id), s.sessions[id].cancelledAt;
    if found.Some? {
      SeedResolve(s, users, found.value, Forfeited, s.holds[found.value].amount, Some(CancelPenalty), at);
      SeedResolve(s, users, found.value, Released, 0, None, at);
    }
  }

  lemma SeedResolveOnNoShow(s: State, users: set<UserId>, id: SessionId)
    requires 0 <= id < |s.sessions|
    ensures ResolveOnNoShow(Seeded(s, users), id) == Seeded(ResolveOnNoShow(s, id), users)
  {
    var found, at := FindHold(s.holds, id), s.sessions[id].cancelledAt;
    if found.Some? {
      SeedResolve(s, users, found.value, Forfeited, s.holds[found.value].amount, Some(NoShowPenalty), at);
      SeedResolve(s, users, found.value, Released, 0, None, at);
    }
  }

  lemma SeedCreateHold(s: State, users: set<UserId>, id: SessionId)
    requires 0 <= id < |s.sessions|
    ensures CreateHold(Seeded(s, users), id) == SeededResult(CreateHold(s, id), users)
  {
    var care := s.sessions[id];
    SeedTouch(s.accounts, users, care.requester);
    var touched := Touch(s.accounts, care.requester);
    SeedTouch(touched, users, care.provider);
    SeedAdjust(Touch(touched, care.provider), users, care.requester, -care.Length(), care.Length());
  }

  lemma {:induction false} SeedRelease(s: State, users: set<UserId>, stopped: seq<(SessionId, bool)>)
    requires forall a :: 0 <= a < |stopped| ==> 0 <= stopped[a].0 < |s.sessions|
    ensures ReleaseStopped(Seeded(s, users), stopped) == Seeded(ReleaseStopped(s, stopped), users)
  {
    if stopped == [] {
    } else {
      var rest, last := stopped[..|stopped| - 1], stopped[|stopped| - 1];
      SeedRelease(s, users, rest);
      SeedResolveOnCancel(ReleaseStopped(s, rest), users, last.0, false);
    }
  }

  lemma SeedSuspend(s: State, users: set<UserId>, byAdmin: bool, target: UserId, targetExists: bool, now: int)
    ensures EmergencySuspend(Seeded(s, users), byAdmin, target, targetExists, now)
         == SeededResult(EmergencySuspend(s, byAdmin, target, targetExists, now), users)
  {
    var b, ids := Ban(s, target), ListForUser(s.sessions, target, |s.sessions|);
    var t := b.(sessions := StopAll(s.sessions, target, now));
    StoppedInRange(s.sessions, ids);
    SeedRelease(t, users, Stopped(s.sessions, ids));
    assert Seeded(b, users).(sessions := t.sessions) == Seeded(t, users);
  }

  lemma SeedPending(s: State, users: set<UserId>, user: UserId)
    ensures HasPendingEvaluation(Seeded(s, users), user) == HasPendingEvaluation(s, user)
  {
    var t := Seeded(s, users);
    assert forall id :: 0 <= id < |s.sessions| ==> AwaitsEvaluation(s, id, user) == AwaitsEvaluation(t, id, user);
  }

  lemma SeedCreateRequest(s: State, users: set<UserId>, requester: UserId, provider: UserId, child: int, day: int,
                          start: int, end: int, isSolo: bool)
    ensures CreateRequest(Seeded(s, users), requester, provider, child, day, start, end, isSolo)
         == SeededResult(CreateRequest(s, requester, provider, child, day, start, end, isSolo), users)
  {
    SeedPending(s, users, requester);
    SeedTouch(s.accounts, users, requester);
  }

  lemma SeedAccept(s: State, users: set<UserId>, id: SessionId, actor: UserId)
    ensures Accept(Seeded(s, users), id, actor) == SeededResult(Accept(s, id, actor), users)
  {
    SeedPending(s, users, actor);
    if ForProvider(s, id, actor, Requested) == Done {
      SeedCreateHold(Edit(Acquaint(s, id), id, s.sessions[id].(status := Confirmed)), users, id);
    }
  }

  lemma SeedCheckout(s: State, users: set<UserId>, id: SessionId, actor: UserId, now: int)
    ensures Checkout(Seeded(s, users), id, actor, now) == SeededResult(Checkout(s, id, actor, now), users)
  {
    if Checkout(s, id, actor, now).reply == Done {
      SeedSettle(Edit(s, id, CheckedOut(s.sessions[id], now)), users, id);
    }
  }

  lemma SeedCancel(s: State, users: set<UserId>, id: SessionId, actor: UserId, now: int)
    ensures Cancel(Seeded(s, users), id, actor, now) == SeededResult(Cancel(s, id, actor, now), users)
  {
    if Cancel(s, id, actor, now).reply == Done {
      var care := s.sessions[id];
      SeedResolveOnCancel(Edit(s, id, CancelledBy(care, actor, now)), users, id, PastDeadline(care, now));
    }
  }

  lemma SeedReportNoShow(s: State, users: set<UserId>, id: SessionId, actor: UserId, now: int)
    ensures ReportNoShow(Seeded(s, users), id, actor, now) == SeededResult(ReportNoShow(s, id, actor, now), users)
  {
    if ReportNoShow(s, id, actor, now).reply == Done {
      SeedResolveOnNoShow(Edit(s, id, FailedBy(s.sessions[id], actor, now)), users, id);
    }
  }

  /** A call answers the same and leaves the same behind. */
  lemma SeedStep(s: State, users: set<UserId>, call: Call, now: int)
    ensures Step(Seeded(s, users), call, now) == SeededResult(Step(s, call, now), users)
  {
    match call
    case CallCreateRequest(r, p, c, d, st, e, isSolo) => SeedCreateRequest(s, users, r, p, c, d, st, e, isSolo);
    case CallAccept(id, actor) => SeedAccept(s, users, id, actor);
    case CallCheckout(id, actor) => SeedCheckout(s, users, id, actor, now);
    case CallCancel(id, actor) => SeedCancel(s, users, id, actor, now);
    case CallReportNoShow(id, actor) => SeedReportNoShow(s, users, id, actor, now);
    case CallEmergencySuspend(byAdmin, target, targetExists) =>
      SeedSuspend(s, users, byAdmin, target, targetExists, now);
    case CallReadBalance(user) => SeedTouch(s.accounts, users, user);
    case _ => SeedQuiet(s, users, call, now);
  }

  /** Calls that do not look at accounts. */
  predicate Quiet(call: Call) {
    call.CallReject? || call.CallCheckin? || call.CallSubmitEvaluation? || call.CallWriteLog? || call.CallRegisterShift?
    || call.CallTrust?
  }

  lemma SeedQuiet(s: State, users: set<UserId>, call: Call, now: int)
    requires Quiet(call)
    ensures Step(Seeded(s, users), call, now) == SeededResult(Step(s, call, now), users)
  {}

  function Replies(s: State, calls: seq<Timed>): seq<Reply> {
    if calls == [] then []
    else
      var rest, last := calls[..|calls| - 1], calls[|calls| - 1];
      Replies(s, rest) + [Step(RunFrom(s, rest), last.call, last.now).reply]
  }

  /** Over any run, with accounts seeded up front for any users, every answer and every balance is the same. */
  lemma {:induction false} LazySeedingIsInvisible(s: State, users: set<UserId>, calls: seq<Timed>, user: UserId)
    ensures Replies(Seeded(s, users), calls) == Replies(s, calls)
    ensures RunFrom(Seeded(s, users), calls) == Seeded(RunFrom(s, calls), users)
    ensures BalanceOf(RunFrom(Seeded(s, users), calls).accounts, user) == BalanceOf(RunFrom(s, calls).accounts, user)
    ensures HeldOf(RunFrom(Seeded(s, users), calls).accounts, user) == HeldOf(RunFrom(s, calls).accounts, user)
  {
    if calls == [] {
    } else {
      var rest, last := calls[..|calls| - 1], calls[|calls| - 1];
      LazySeedingIsInvisible(s, users, rest, user);
      SeedStep(RunFrom(s, rest), users, last.call, last.now);
    }
    SeedTouch(RunFrom(s, calls).accounts, users, user);
  }
}
