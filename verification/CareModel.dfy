/**
 * The tables behind care sessions and points, and every service call as a function from tables to tables.
 * Rows that the code only inserts (sessions, holds, transactions, entries, evaluations) are sequences and a row's
 * number is its id; times are microseconds, days are day numbers.
 */
module CareModel {
  import opened Prelude
  import opened ScheduleSlots
  import TrustModel
  import WorkSchedule

  type UserId = int
  type SessionId = int

  const SEED_POINTS := 12
  const NEGATIVE_BALANCE_LIMIT := -12
  const SLOT_MINUTES := 30
  const DAY := 24 * 60 * MINUTE
  const CANCELLATION_DEADLINE := 2 * 60 * MINUTE

  datatype Account = Account(balance: int, held: int)

  datatype HoldStatus = Held | Settled | Released | Forfeited

  datatype Hold = Hold(
    session: SessionId, payer: UserId, payee: UserId, amount: int, status: HoldStatus, resolvedAt: Option<int>)

  datatype Reason = Settlement | CancelPenalty | NoShowPenalty

  /** `reference` is the care session a transaction points to; no other reference type is ever written. */
  datatype Transaction = Transaction(reason: Reason, reference: Option<SessionId>)

  datatype Entry = Entry(transaction: nat, user: UserId, counterparty: UserId, amount: int)

  datatype CareStatus = Requested | Confirmed | Rejected | Cancelled | NoShow

  datatype CareSession = CareSession(
    requester: UserId, provider: UserId, child: int, day: int, start: int, end: int, status: CareStatus,
    checkinAt: Option<int>, checkoutAt: Option<int>, actualMinutes: Option<int>,
    cancelledAt: Option<int>, atFault: Option<UserId>)
  {
    predicate Active() { status == Requested || status == Confirmed }

    predicate Involves(user: UserId) { requester == user || provider == user }

    function Length(): int { end - start }

    function ScheduledStart(): int { day * DAY + start * SLOT_MINUTES * MINUTE }

    function ScheduledEnd(): int { ScheduledStart() + Length() * SLOT_MINUTES * MINUTE }
  }

  datatype Evaluation = Evaluation(session: SessionId, evaluator: UserId, evaluatee: UserId, rating: int)

  /** A logged request; a rematch follows a completed session of the two. */
  datatype RequestEvent = RequestEvent(requester: UserId, provider: UserId, rematch: bool)

  datatype State = State(
    accounts: map<UserId, Account>, sessions: seq<CareSession>, holds: seq<Hold>, transactions: seq<Transaction>,
    entries: seq<Entry>, schedules: map<WorkSchedule.Key, WorkSchedule.Row>, evaluations: seq<Evaluation>,
    careLogs: set<SessionId>, trust: TrustModel.State, sanctioned: set<UserId>, inactive: set<UserId>,
    requestLog: seq<RequestEvent>, children: map<int, UserId>)

  function Initial(children: map<int, UserId>): State {
    State(map[], [], [], [], [], map[], [], {}, TrustModel.INITIAL, {}, {}, [], children)
  }

  /** What a call answers: HTTP 200, 400, 403, 404, 409 or 500. */
  datatype Reply = Done | BadRequest | Forbidden | NotFound | Conflict | ServerError

  datatype Result = Result(state: State, reply: Reply)

  // ------------------------------------------------------------------ accounts

  /** `PointAccountRepository.get_or_create`: a missing account is created with the seed. */
  function Touch(accounts: map<UserId, Account>, user: UserId): map<UserId, Account> {
    if user in accounts then accounts else accounts[user := Account(SEED_POINTS, 0)]
  }

  function Adjust(accounts: map<UserId, Account>, user: UserId, balance: int, held: int): map<UserId, Account> {
    var account := Touch(accounts, user)[user];
    accounts[user := Account(account.balance + balance, account.held + held)]
  }

  function BalanceOf(accounts: map<UserId, Account>, user: UserId): int {
    if user in accounts then accounts[user].balance else SEED_POINTS
  }

  function HeldOf(accounts: map<UserId, Account>, user: UserId): int {
    if user in accounts then accounts[user].held else 0
  }

  // ------------------------------------------------------------------ the ledger

  predicate Refers(transaction: Transaction, session: SessionId) { transaction.reference == Some(session) }

  predicate HasSettled(transactions: seq<Transaction>, session: SessionId) {
    exists i | 0 <= i < |transactions| :: Refers(transactions[i], session)
  }

  /** The hold of a session, by row number. */
  function FindHold(holds: seq<Hold>, session: SessionId): (found: Option<nat>)
    ensures found.Some? ==> found.value < |holds| && holds[found.value].session == session
    ensures found.None? ==> forall i :: 0 <= i < |holds| ==> holds[i].session != session
  {
    if holds == [] then None
    else if holds[|holds| - 1].session == session then Some(|holds| - 1)
    else FindHold(holds[..|holds| - 1], session)
  }

  /** One transaction with its two mirrored entries. */
  function Post(s: State, reason: Reason, session: SessionId, payer: UserId, payee: UserId, amount: int): State {
    var id := |s.transactions|;
    s.(transactions := s.transactions + [Transaction(reason, Some(session))],
       entries := s.entries + [Entry(id, payer, payee, -amount), Entry(id, payee, payer, amount)])
  }

  function Transfer(s: State, payer: UserId, payee: UserId, amount: int, reason: Reason, session: SessionId): State {
    Post(s.(accounts := Adjust(Adjust(Touch(s.accounts, payee), payer, -amount, 0), payee, amount, 0)),
         reason, session, payer, payee, amount)
  }

  function EnsureCanRequest(s: State, requester: UserId): Result {
    Result(s.(accounts := Touch(s.accounts, requester)),
           if BalanceOf(s.accounts, requester) <= NEGATIVE_BALANCE_LIMIT then BadRequest else Done)
  }

  function CreateHold(s: State, id: SessionId): Result
    requires 0 <= id < |s.sessions|
  {
    var care := s.sessions[id];
    var Result(checked, reply) := EnsureCanRequest(s, care.requester);
    if reply != Done then Result(checked, reply)
    else
      var amount := care.Length();
      var hold := Hold(id, care.requester, care.provider, amount, Held, None);
      Result(checked.(accounts := Adjust(Touch(checked.accounts, care.provider), care.requester, -amount, amount),
                      holds := s.holds + [hold]), Done)
  }

  /**
   * Ends hold k: `paid` goes to the payee, the rest back to the payer. Release pays nothing, forfeiting pays all;
   * a payment is posted when there is a reason for it.
   */
  function Resolve(s: State, k: nat, status: HoldStatus, paid: int, reason: Option<Reason>, at: Option<int>): State
    requires k < |s.holds|
  {
    var hold := s.holds[k];
    var closed := s.(accounts := Adjust(s.accounts, hold.payer, hold.amount - paid, -hold.amount),
                     holds := s.holds[k := hold.(status := status, resolvedAt := at)]);
    if reason.None? then closed
    else
      Post(closed.(accounts := Adjust(closed.accounts, hold.payee, paid, 0)),
           reason.value, hold.session, hold.payer, hold.payee, paid)
  }

  function ResolveOnCancel(s: State, id: SessionId, pastDeadline: bool): State
    requires 0 <= id < |s.sessions|
  {
    var care := s.sessions[id];
    match FindHold(s.holds, id)
    case None => s
    case Some(k) =>
      var hold := s.holds[k];
      if hold.status != Held then s
      else if pastDeadline && care.atFault == Some(hold.payer) then
        Resolve(s, k, Forfeited, hold.amount, Some(CancelPenalty), care.cancelledAt)
      else
        Resolve(s, k, Released, 0, None, care.cancelledAt)
  }

  function ResolveOnNoShow(s: State, id: SessionId): State
    requires 0 <= id < |s.sessions|
  {
    var care := s.sessions[id];
    match FindHold(s.holds, id)
    case None => s
    case Some(k) =>
      var hold := s.holds[k];
      if hold.status != Held then s
      else if care.atFault == Some(care.requester) then
        Resolve(s, k, Forfeited, hold.amount, Some(NoShowPenalty), care.cancelledAt)
      else
        Resolve(s, k, Released, 0, None, care.cancelledAt)
  }

  /** Whole slots worked; Python's floor division. */
  function RawSlots(care: CareSession): int {
    (if care.actualMinutes.Some? then care.actualMinutes.value else 0) / SLOT_MINUTES
  }

  function Settle(s: State, id: SessionId): State
    requires 0 <= id < |s.sessions|
  {
    var care := s.sessions[id];
    if HasSettled(s.transactions, id) then s
    else
      var raw := RawSlots(care);
      var found := FindHold(s.holds, id);
      if found.None? || s.holds[found.value].status != Held then
        if raw <= 0 then s else Transfer(s, care.requester, care.provider, raw, Settlement, id)
      else
        var slots := Min(raw, s.holds[found.value].amount);
        Resolve(s, found.value, Settled, slots, if slots <= 0 then None else Some(Settlement), care.checkoutAt)
  }

  // ------------------------------------------------------------------ care sessions

  predicate Overlaps(care: CareSession, user: UserId, day: int, start: int, end: int) {
    care.Involves(user) && care.day == day && care.Active() && care.start < end && care.end > start
  }

  predicate HasOverlap(sessions: seq<CareSession>, user: UserId, day: int, start: int, end: int) {
    exists i | 0 <= i < |sessions| :: Overlaps(sessions[i], user, day, start, end)
  }

  predicate Evaluated(evaluations: seq<Evaluation>, session: SessionId, evaluator: UserId) {
    exists i | 0 <= i < |evaluations| :: evaluations[i].session == session && evaluations[i].evaluator == evaluator
  }

  predicate AwaitsEvaluation(s: State, id: SessionId, user: UserId)
    requires 0 <= id < |s.sessions|
  {
    s.sessions[id].checkoutAt.Some? && s.sessions[id].Involves(user) && !Evaluated(s.evaluations, id, user)
  }

  predicate HasPendingEvaluation(s: State, user: UserId) {
    exists id | 0 <= id < |s.sessions| :: AwaitsEvaluation(s, id, user)
  }

  predicate Between(care: CareSession, a: UserId, b: UserId) {
    (care.requester == a && care.provider == b) || (care.requester == b && care.provider == a)
  }

  predicate Completed(care: CareSession, a: UserId, b: UserId) { Between(care, a, b) && care.checkoutAt.Some? }

  predicate HasCompletedPairing(sessions: seq<CareSession>, a: UserId, b: UserId) {
    exists i | 0 <= i < |sessions| :: Completed(sessions[i], a, b)
  }

  function CreateRequest(s: State, requester: UserId, provider: UserId, child: int, day: int, start: int, end: int,
                         isSolo: bool): Result
  {
    if !(0 <= start < end <= SLOT_COUNT) then Result(s, BadRequest)
    else if HasPendingEvaluation(s, requester) then Result(s, BadRequest)
    else if isSolo && TrustModel.RequireL3(s.trust, requester, provider) != TrustModel.Done then Result(s, Forbidden)
    else
      var Result(checked, reply) := EnsureCanRequest(s, requester);
      if reply != Done then Result(checked, reply)
      else if child !in s.children || s.children[child] != requester then Result(checked, BadRequest)
      else if !FitsComplementary(start, end, WorkSchedule.MaskOn(s.schedules, requester, day),
                                 WorkSchedule.MaskOn(s.schedules, provider, day)) then Result(checked, BadRequest)
      else if HasOverlap(s.sessions, requester, day, start, end) || HasOverlap(s.sessions, provider, day, start, end)
      then Result(checked, Conflict)
      else
        var care := CareSession(requester, provider, child, day, start, end, Requested, None, None, None, None, None);
        var event := RequestEvent(requester, provider, HasCompletedPairing(s.sessions, requester, provider));
        Result(checked.(sessions := s.sessions + [care], requestLog := s.requestLog + [event]), Done)
  }

  /** `_get_requested_session` and `_get_confirmed_session`. */
  function ForProvider(s: State, id: SessionId, provider: UserId, status: CareStatus): Reply {
    if !(0 <= id < |s.sessions|) || s.sessions[id].provider != provider then NotFound
    else if s.sessions[id].status != status then Conflict
    else Done
  }

  function Edit(s: State, id: SessionId, care: CareSession): State
    requires 0 <= id < |s.sessions|
  {
    s.(sessions := s.sessions[id := care])
  }

  /** The first acceptance between two users makes them acquaintances, level L1. */
  function Acquaint(s: State, id: SessionId): State
    requires 0 <= id < |s.sessions|
  {
    s.(trust := TrustModel.GrantL1(s.trust, s.sessions[id].requester, s.sessions[id].provider).state)
  }

  /** The confirmation is committed before the hold is attempted, so it stays when the hold is refused. */
  function Accept(s: State, id: SessionId, provider: UserId): Result {
    var found := ForProvider(s, id, provider, Requested);
    if found != Done then Result(s, found)
    else if HasPendingEvaluation(s, provider) then Result(s, BadRequest)
    else CreateHold(Edit(Acquaint(s, id), id, s.sessions[id].(status := Confirmed)), id)
  }

  function Reject(s: State, id: SessionId, provider: UserId): Result {
    var found := ForProvider(s, id, provider, Requested);
    if found != Done then Result(s, found)
    else Result(Edit(s, id, s.sessions[id].(status := Rejected)), Done)
  }

  function Checkin(s: State, id: SessionId, provider: UserId, outOfRange: bool, hasReason: bool, now: int): Result {
    var found := ForProvider(s, id, provider, Confirmed);
    if found != Done then Result(s, found)
    else if s.sessions[id].checkinAt.Some? then Result(s, Conflict)
    else if outOfRange && !hasReason then Result(s, BadRequest)
    else Result(Edit(s, id, s.sessions[id].(checkinAt := Some(now))), Done)
  }

  function CheckedOut(care: CareSession, now: int): CareSession
    requires care.checkinAt.Some?
  {
    care.(checkoutAt := Some(now), actualMinutes := Some((now - care.checkinAt.value) / MINUTE))
  }

  function Checkout(s: State, id: SessionId, provider: UserId, now: int): Result {
    var found := ForProvider(s, id, provider, Confirmed);
    if found != Done then Result(s, found)
    else if s.sessions[id].checkinAt.None? || s.sessions[id].checkoutAt.Some? then Result(s, Conflict)
    else Result(Settle(Edit(s, id, CheckedOut(s.sessions[id], now)), id), Done)
  }

  predicate PastDeadline(care: CareSession, now: int) { now > care.ScheduledStart() - CANCELLATION_DEADLINE }

  function CancelledBy(care: CareSession, actor: UserId, now: int): CareSession {
    care.(status := Cancelled, cancelledAt := Some(now),
          atFault := if care.status == Confirmed && PastDeadline(care, now) then Some(actor) else care.atFault)
  }

  function Cancel(s: State, id: SessionId, actor: UserId, now: int): Result {
    if !(0 <= id < |s.sessions|) || !s.sessions[id].Involves(actor) then Result(s, NotFound)
    else if !s.sessions[id].Active() || s.sessions[id].checkinAt.Some? then Result(s, Conflict)
    else
      var care := s.sessions[id];
      var edited := Edit(s, id, CancelledBy(care, actor, now));
      Result(if care.status == Confirmed then ResolveOnCancel(edited, id, PastDeadline(care, now)) else edited, Done)
  }

  function FailedBy(care: CareSession, reporter: UserId, now: int): CareSession {
    care.(status := NoShow, cancelledAt := Some(now),
          atFault := Some(if reporter == care.requester then care.provider else care.requester))
  }

  function ReportNoShow(s: State, id: SessionId, reporter: UserId, now: int): Result {
    if !(0 <= id < |s.sessions|) || !s.sessions[id].Involves(reporter) then Result(s, NotFound)
    else if s.sessions[id].status != Confirmed || s.sessions[id].checkinAt.Some? then Result(s, Conflict)
    else if now < s.sessions[id].ScheduledEnd() then Result(s, BadRequest)
    else
      Result(ResolveOnNoShow(Edit(s, id, FailedBy(s.sessions[id], reporter, now)), id), Done)
  }

  // ------------------------------------------------------------------ emergency suspension

  /** Listing order: latest day first, then latest id. */
  predicate Newer(sessions: seq<CareSession>, i: SessionId, j: SessionId) {
    0 <= i < |sessions| && 0 <= j < |sessions|
    && (sessions[i].day > sessions[j].day || (sessions[i].day == sessions[j].day && i > j))
  }

  predicate Listing(sessions: seq<CareSession>, ids: seq<SessionId>) {
    && (forall a :: 0 <= a < |ids| ==> 0 <= ids[a] < |sessions|)
    && (forall a, b :: 0 <= a < b < |ids| ==> Newer(sessions, ids[a], ids[b]))
  }

  function InsertByAge(sessions: seq<CareSession>, ids: seq<SessionId>, id: SessionId): (r: seq<SessionId>)
    requires Listing(sessions, ids) && 0 <= id < |sessions| && id !in ids
    ensures Listing(sessions, r) && forall j :: j in r <==> j == id || j in ids
  {
    if ids == [] then [id]
    else if Newer(sessions, id, ids[0]) then [id] + ids
    else
      var rest := InsertByAge(sessions, ids[1..], id);
      assert forall j :: j in ids[1..] ==> Newer(sessions, ids[0], j);
      assert forall b :: 0 <= b < |rest| ==> rest[b] in rest;
      [ids[0]] + rest
  }

  /** `list_for_user` over the first n rows. */
  function ListForUser(sessions: seq<CareSession>, user: UserId, n: nat): (ids: seq<SessionId>)
    requires n <= |sessions|
    ensures Listing(sessions, ids)
    ensures forall i :: i in ids <==> 0 <= i < n && user in {sessions[i].requester, sessions[i].provider}
  {
    if n == 0 then []
    else
      var ids := ListForUser(sessions, user, n - 1);
      if sessions[n - 1].Involves(user) then InsertByAge(sessions, ids, n - 1) else ids
  }

  /** Latest day first, and latest id first within a day. */
  lemma ListedNewestFirst(sessions: seq<CareSession>, user: UserId, n: nat, a: nat, b: nat)
    requires n <= |sessions| && a < b < |ListForUser(sessions, user, n)|
    ensures var i, j := ListForUser(sessions, user, n)[a], ListForUser(sessions, user, n)[b];
      && 0 <= i < n && 0 <= j < n
      && (sessions[i].day > sessions[j].day || (sessions[i].day == sessions[j].day && i > j))
  {
    var ids := ListForUser(sessions, user, n);
    assert Newer(sessions, ids[a], ids[b]) && ids[a] in ids && ids[b] in ids;
  }

  function Stop(care: CareSession, now: int): CareSession {
    care.(status := Cancelled, cancelledAt := Some(now))
  }

  /** The listed sessions that are still active, each with whether it was confirmed. */
  function Stopped(sessions: seq<CareSession>, ids: seq<SessionId>): seq<(SessionId, bool)>
    requires Listing(sessions, ids)
  {
    if ids == [] then []
    else
      var id, before := ids[|ids| - 1], Stopped(sessions, ids[..|ids| - 1]);
      if sessions[id].Active() then before + [(id, sessions[id].status == Confirmed)] else before
  }

  function StopAll(sessions: seq<CareSession>, user: UserId, now: int): seq<CareSession> {
    seq(|sessions|, i requires 0 <= i < |sessions| =>
      if sessions[i].Active() && sessions[i].Involves(user) then Stop(sessions[i], now) else sessions[i])
  }

  function ReleaseStopped(s: State, stopped: seq<(SessionId, bool)>): (r: State)
    requires forall a :: 0 <= a < |stopped| ==> 0 <= stopped[a].0 < |s.sessions|
    ensures r == s.(accounts := r.accounts, holds := r.holds, transactions := r.transactions, entries := r.entries)
  {
    if stopped == [] then s
    else
      var (id, wasConfirmed) := stopped[|stopped| - 1];
      var before := ReleaseStopped(s, stopped[..|stopped| - 1]);
      if wasConfirmed then ResolveOnCancel(before, id, false) else before
  }

  lemma {:induction false} StoppedInRange(sessions: seq<CareSession>, ids: seq<SessionId>)
    requires Listing(sessions, ids)
    ensures forall a :: 0 <= a < |Stopped(sessions, ids)| ==> 0 <= Stopped(sessions, ids)[a].0 < |sessions|
  {
    if ids == [] {
    } else {
      StoppedInRange(sessions, ids[..|ids| - 1]);
    }
  }

  /** Every active session of the user is stopped, then what was held for the confirmed ones is released. */
  function StopSessions(s: State, target: UserId, now: int): State {
    var ids := ListForUser(s.sessions, target, |s.sessions|);
    StoppedInRange(s.sessions, ids);
    ReleaseStopped(s.(sessions := StopAll(s.sessions, target, now)), Stopped(s.sessions, ids))
  }

  function Ban(s: State, target: UserId): State {
    s.(sanctioned := s.sanctioned + {target}, inactive := s.inactive + {target})
  }

  function EmergencySuspend(s: State, byAdmin: bool, target: UserId, targetExists: bool, now: int): Result {
    if !byAdmin then Result(s, Forbidden)
    else if !targetExists then Result(s, NotFound)
    else Result(StopSessions(Ban(s, target), target, now), Done)
  }

  // ------------------------------------------------------------------ evaluations, journals, schedules, reads

  function SubmitEvaluation(s: State, id: SessionId, evaluator: UserId, rating: int): Result {
    if !(1 <= rating <= 5) then Result(s, BadRequest)
    else if !(0 <= id < |s.sessions|) || !s.sessions[id].Involves(evaluator) then Result(s, NotFound)
    else if s.sessions[id].checkoutAt.None? || Evaluated(s.evaluations, id, evaluator) then Result(s, Conflict)
    else
      var care := s.sessions[id];
      var evaluatee := if evaluator == care.requester then care.provider else care.requester;
      Result(s.(evaluations := s.evaluations + [Evaluation(id, evaluator, evaluatee, rating)]), Done)
  }

  function WriteLog(s: State, id: SessionId, provider: UserId, allergyNoteMissing: bool): Result {
    var found := ForProvider(s, id, provider, Confirmed);
    if found != Done then Result(s, found)
    else if allergyNoteMissing then Result(s, BadRequest)
    else Result(s.(careLogs := s.careLogs + {id}), Done)
  }

  function RegisterShift(s: State, shift: WorkSchedule.Shift): Result {
    Result(s.(schedules := WorkSchedule.Register(s.schedules, shift)), Done)
  }

  function ReadBalance(s: State, user: UserId): Result {
    Result(s.(accounts := Touch(s.accounts, user)), Done)
  }

  /** Calls of the trust-level service; a failed assertion is a server error. */
  function Trust(s: State, call: TrustModel.Call): Result {
    var result := TrustModel.Step(s.trust, call);
    Result(s.(trust := result.state),
           match result.reply
           case Done => Done
           case BadRequest => BadRequest
           case Forbidden => Forbidden
           case NotFound => NotFound
           case Crash => ServerError)
  }

  // ------------------------------------------------------------------ calls and runs

  datatype Call =
    | CallCreateRequest(requester: UserId, provider: UserId, child: int, day: int, start: int, end: int, isSolo: bool)
    | CallAccept(id: SessionId, actor: UserId)
    | CallReject(id: SessionId, actor: UserId)
    | CallCheckin(id: SessionId, actor: UserId, outOfRange: bool, hasReason: bool)
    | CallCheckout(id: SessionId, actor: UserId)
    | CallCancel(id: SessionId, actor: UserId)
    | CallReportNoShow(id: SessionId, actor: UserId)
    | CallEmergencySuspend(byAdmin: bool, target: UserId, targetExists: bool)
    | CallSubmitEvaluation(id: SessionId, actor: UserId, rating: int)
    | CallWriteLog(id: SessionId, actor: UserId, allergyNoteMissing: bool)
    | CallRegisterShift(shift: WorkSchedule.Shift)
    | CallReadBalance(user: UserId)
    | CallTrust(call: TrustModel.Call)

  function Step(s: State, call: Call, now: int): Result {
    match call
    case CallCreateRequest(r, p, c, d, st, e, solo) => CreateRequest(s, r, p, c, d, st, e, solo)
    case CallAccept(id, actor) => Accept(s, id, actor)
    case CallReject(id, actor) => Reject(s, id, actor)
    case CallCheckin(id, actor, far, reason) => Checkin(s, id, actor, far, reason, now)
    case CallCheckout(id, actor) => Checkout(s, id, actor, now)
    case CallCancel(id, actor) => Cancel(s, id, actor, now)
    case CallReportNoShow(id, actor) => ReportNoShow(s, id, actor, now)
    case CallEmergencySuspend(byAdmin, target, targetExists) => EmergencySuspend(s, byAdmin, target, targetExists, now)
    case CallSubmitEvaluation(id, actor, rating) => SubmitEvaluation(s, id, actor, rating)
    case CallWriteLog(id, actor, missing) => WriteLog(s, id, actor, missing)
    case CallRegisterShift(shift) => RegisterShift(s, shift)
    case CallReadBalance(user) => ReadBalance(s, user)
    case CallTrust(trustCall) => Trust(s, trustCall)
  }

  datatype Timed = Timed(call: Call, now: int)

  function RunFrom(s: State, calls: seq<Timed>): State {
    if calls == [] then s
    else
      var last := calls[|calls| - 1];
      Step(RunFrom(s, calls[..|calls| - 1]), last.call, last.now).state
  }

  /** The tables after any calls, in any order and by anybody, on a fresh system. */
  function Run(children: map<int, UserId>, calls: seq<Timed>): State { RunFrom(Initial(children), calls) }

  /** The clock never goes back between calls. */
  predicate Chronological(calls: seq<Timed>) {
    forall i, j :: 0 <= i < j < |calls| ==> calls[i].now <= calls[j].now
  }
}
